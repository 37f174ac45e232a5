/** Hash-linked logs. The entry hash is any injective function of the whole entry; the
    ops-host chain and the validator-host chain are two instances. */
module HashChain {
  import opened Wrappers

  type Digest = string

  const GENESIS: Digest := "0000000000000000000000000000000000000000000000000000000000000000"

  datatype Link<T> = Link(num: int, prev: Digest, data: T)

  ghost predicate Injective<T(!new)>(h: Link<T> -> Digest) {
    forall a, b :: h(a) == h(b) ==> a == b
  }

  /** The head after the first n links. */
  function HeadAt<T>(h: Link<T> -> Digest, c: seq<Link<T>>, n: nat): Digest
    requires n <= |c|
  {
    if n == 0 then GENESIS else h(c[n - 1])
  }

  /** Link i (from 0) has sequence number i + 1 and names the head before it. */
  predicate LinkedAt<T(==)>(h: Link<T> -> Digest, c: seq<Link<T>>, i: nat)
    requires i < |c|
  {
    c[i].num == i + 1 && c[i].prev == HeadAt(h, c, i)
  }

  predicate WellLinked<T(==)>(h: Link<T> -> Digest, c: seq<Link<T>>) {
    forall i | 0 <= i < |c| :: LinkedAt(h, c, i)
  }

  function Extend<T>(h: Link<T> -> Digest, c: seq<Link<T>>, data: T): seq<Link<T>> {
    c + [Link(|c| + 1, HeadAt(h, c, |c|), data)]
  }

  lemma {:induction false} ExtendLinked<T>(h: Link<T> -> Digest, c: seq<Link<T>>, data: T)
    requires WellLinked(h, c)
    ensures WellLinked(h, Extend(h, c, data))
  {
    var d := Extend(h, c, data);
    forall i | 0 <= i < |d| ensures LinkedAt(h, d, i) {
      assert i < |c| ==> LinkedAt(h, c, i);
    }
  }

  /** Checking a file link by link. */
  lemma {:induction false} PrefixLinked<T>(h: Link<T> -> Digest, c: seq<Link<T>>, n: nat)
    requires n < |c|
    ensures WellLinked(h, c[..n + 1]) <==> WellLinked(h, c[..n]) && LinkedAt(h, c, n)
  {
    assert forall i: nat | i < n :: LinkedAt(h, c[..n], i) == LinkedAt(h, c, i);
    assert forall i: nat | i < n + 1 :: LinkedAt(h, c[..n + 1], i) == LinkedAt(h, c, i);
    if WellLinked(h, c[..n + 1]) {
      forall i | 0 <= i < n ensures LinkedAt(h, c[..n], i) {
        assert LinkedAt(h, c[..n + 1], i);
      }
      assert LinkedAt(h, c[..n + 1], n);
    }
    if WellLinked(h, c[..n]) && LinkedAt(h, c, n) {
      var d := c[..n + 1];
      forall i | 0 <= i < |d| ensures LinkedAt(h, d, i) {
        assert i < n ==> LinkedAt(h, c[..n], i);
      }
    }
  }

  lemma {:induction false} TakeLinked<T>(h: Link<T> -> Digest, c: seq<Link<T>>, n: nat)
    requires n <= |c|
    ensures WellLinked(h, c) ==> WellLinked(h, c[..n])
  {
    if WellLinked(h, c) {
      forall i | 0 <= i < n ensures LinkedAt(h, c[..n], i) {
        assert LinkedAt(h, c, i);
      }
    }
  }

  /** A head pins down everything before it: backward induction over the prev links. */
  lemma {:induction false} SameHeadSamePrefix<T(!new)>(h: Link<T> -> Digest, a: seq<Link<T>>, b: seq<Link<T>>, n: nat)
    requires Injective(h) && WellLinked(h, a) && WellLinked(h, b)
    requires n <= |a| && n <= |b| && HeadAt(h, a, n) == HeadAt(h, b, n)
    ensures a[..n] == b[..n]
  {
    if n > 0 {
      assert a[n - 1] == b[n - 1];
      assert LinkedAt(h, a, n - 1) && LinkedAt(h, b, n - 1);
      SameHeadSamePrefix(h, a, b, n - 1);
      assert a[..n] == a[..n - 1] + [a[n - 1]];
      assert b[..n] == b[..n - 1] + [b[n - 1]];
    }
  }
}
