/** The validator host's local chain (valops/observer/chain.py) and the two-party checkpoint
    protocol by which the ops host notices its truncation or rewriting
    (valops/audit/sequencer.py, `record_daemon_checkpoint`). */
module DaemonChain {
  import opened Wrappers
  import opened HashChain

  /** What the daemon records about one served request. */
  datatype Served = Served(ts: int, requestId: string, commandId: string, status: string, outputHash: string)

  datatype Checkpoint = Checkpoint(num: int, head: Digest, ts: int, sinceSeq: Option<int>, sinceHead: Option<Digest>)

  /** The recorded position of the daemon's chain. */
  datatype Position = Position(num: int, head: Digest)

  /** `checkpoint`: a `since` the chain does not reach is answered as if none was asked. */
  function CheckpointOf(h: Link<Served> -> Digest, file: seq<Link<Served>>, since: Option<int>, ts: int): Checkpoint {
    var known := since.Some? && 0 <= since.value <= |file|;
    Checkpoint(|file|, HeadAt(h, file, |file|), ts,
               if known then since else None,
               if known then Some(HeadAt(h, file, since.value)) else None)
  }

  datatype Problem = Truncated | Rewritten

  /** The sequencer's decision on a correctly signed checkpoint. */
  function Judge(last: Option<Position>, ck: Checkpoint): Option<Problem> {
    if last.None? then None
    else if ck.num < last.value.num then Some(Truncated)
    else if ck.sinceSeq != Some(last.value.num) || ck.sinceHead != Some(last.value.head) then Some(Rewritten)
    else None
  }

  function Record(last: Option<Position>, ck: Checkpoint): Option<Position> {
    if Judge(last, ck).None? then Some(Position(ck.num, ck.head)) else last
  }

  // ---------------------------------------------------------------- the daemon's object

  class LocalChain {
    const h: Link<Served> -> Digest
    var file: seq<Link<Served>>
    var hashes: map<int, Digest>
    var seqNo: int

    ghost predicate Valid()
      reads this
    {
      && WellLinked(h, file)
      && seqNo == |file|
      && (forall n: int :: n in hashes <==> 0 <= n <= |file|)
      && forall n: int | n in hashes :: hashes[n] == HeadAt(h, file, n)
    }

    constructor (h: Link<Served> -> Digest)
      ensures Valid() && this.h == h && file == []
    {
      this.h := h;
      file, hashes, seqNo := [], map[0 := GENESIS], 0;
    }

    /** The constructor's loop over an existing file: starts exactly on well-linked files. */
    method Reopen(lines: seq<Link<Served>>) returns (ok: bool)
      requires Valid() && file == []
      modifies this
      ensures ok <==> WellLinked(h, lines)
      ensures ok ==> Valid() && file == lines
    {
      ghost var g := h;
      var prev := GENESIS;
      for n := 0 to |lines|
        invariant Valid() && file == lines[..n] && h == g
        invariant prev == HeadAt(h, file, n)
      {
        var e := lines[n];
        PrefixLinked(h, lines, n);
        TakeLinked(h, lines, n + 1);
        assert HeadAt(h, lines, n) == HeadAt(h, lines[..n], n) == prev;
        if e.prev != prev || e.num != n + 1 {
          return false;
        }
        prev := h(e);
        file := file + [e];
        hashes := hashes[n + 1 := prev];
        seqNo := n + 1;
        assert lines[..n + 1] == lines[..n] + [e];
      }
      assert lines[..|lines|] == lines;
      ok := true;
    }

    method Append(data: Served) returns (at: Position)
      requires Valid()
      modifies this
      ensures Valid() && file == Extend(h, old(file), data)
      ensures at == Position(|file|, HeadAt(h, file, |file|))
    {
      var e := Link(seqNo + 1, hashes[seqNo], data);
      ExtendLinked(h, file, data);
      file := file + [e];
      seqNo := seqNo + 1;
      hashes := hashes[seqNo := h(e)];
      at := Position(seqNo, hashes[seqNo]);
    }

    method TakeCheckpoint(sinceSeq: Option<int>, now: int) returns (ck: Checkpoint)
      requires Valid()
      ensures ck == CheckpointOf(h, file, sinceSeq, now)
    {
      var since := None;
      if sinceSeq.Some? && 0 <= sinceSeq.value <= seqNo {
        since := sinceSeq;
      }
      ck := Checkpoint(seqNo, hashes[seqNo], now, since, if since.None? then None else Some(hashes[since.value]));
    }
  }

  // ---------------------------------------------------------------- the protocol

  /** One checkpoint the sequencer is shown: signed by the daemon, hence computed from some
      well-linked file. Restarts may put any well-linked file under the daemon. */
  datatype Shown = Shown(file: seq<Link<Served>>, since: Option<int>, ts: int)

  function Ask(h: Link<Served> -> Digest, s: Shown): Checkpoint {
    CheckpointOf(h, s.file, s.since, s.ts)
  }

  /** The recorded position after a history of checkpoints. */
  function Track(h: Link<Served> -> Digest, shown: seq<Shown>): Option<Position> {
    if shown == [] then None else Record(Track(h, shown[..|shown|-1]), Ask(h, shown[|shown|-1]))
  }

  /** The chains of the accepted checkpoints, in order. */
  function Accepted(h: Link<Served> -> Digest, shown: seq<Shown>): seq<seq<Link<Served>>> {
    if shown == [] then []
    else
      var s := shown[|shown|-1];
      Accepted(h, shown[..|shown|-1]) +
      (if Judge(Track(h, shown[..|shown|-1]), Ask(h, s)).None? then [s.file] else [])
  }

  ghost predicate AllLinked(h: Link<Served> -> Digest, shown: seq<Shown>) {
    forall i | 0 <= i < |shown| :: WellLinked(h, shown[i].file)
  }

  function End(h: Link<Served> -> Digest, f: seq<Link<Served>>): Position {
    Position(|f|, HeadAt(h, f, |f|))
  }

  ghost predicate Ascending<T(!new)>(fs: seq<seq<T>>) {
    forall i, j | 0 <= i <= j < |fs| :: fs[i] <= fs[j]
  }

  /** A checkpoint is accepted exactly when its chain extends the chain recorded last and the
      daemon was asked about that position; a refusal changes nothing. */
  lemma {:induction false} AcceptedIffExtends(h: Link<Served> -> Digest, recorded: seq<Link<Served>>, s: Shown)
    requires Injective(h) && WellLinked(h, recorded) && WellLinked(h, s.file)
    ensures var last := Some(End(h, recorded));
      && (Judge(last, Ask(h, s)).None? <==> recorded <= s.file && s.since == Some(|recorded|))
      && (Judge(last, Ask(h, s)).Some? ==> Record(last, Ask(h, s)) == last)
  {
    var last := Some(End(h, recorded));
    if Judge(last, Ask(h, s)).None? {
      SameHeadSamePrefix(h, recorded, s.file, |recorded|);
      assert recorded == recorded[..|recorded|] == s.file[..|recorded|];
    }
  }

  /** What holds after any history: accepted chains extend one another, and the recorded position
      is the end of the last. */
  ghost predicate Consistent(h: Link<Served> -> Digest, fs: seq<seq<Link<Served>>>, last: Option<Position>) {
    && Ascending(fs)
    && (forall i | 0 <= i < |fs| :: WellLinked(h, fs[i]))
    && last == if fs == [] then None else Some(End(h, fs[|fs| - 1]))
  }

  lemma {:induction false} ConsistentStep(h: Link<Served> -> Digest, fs: seq<seq<Link<Served>>>,
      last: Option<Position>, s: Shown)
    requires Injective(h) && WellLinked(h, s.file) && Consistent(h, fs, last)
    ensures Judge(last, Ask(h, s)).None? ==> Consistent(h, fs + [s.file], Record(last, Ask(h, s)))
    ensures Judge(last, Ask(h, s)).Some? ==> Consistent(h, fs, Record(last, Ask(h, s)))
  {
    if fs != [] {
      AcceptedIffExtends(h, fs[|fs| - 1], s);
      AscendingPush(fs, s.file);
    }
  }

  /** Across any number of restarts on arbitrary well-linked files, every accepted checkpoint comes
      from a chain extending all those accepted before it, and the recorded position is the
      end of the chain accepted last. */
  lemma {:induction false} AcceptedChainsExtend(h: Link<Served> -> Digest, shown: seq<Shown>)
    requires Injective(h) && AllLinked(h, shown)
    ensures Consistent(h, Accepted(h, shown), Track(h, shown))
  {
    if shown != [] {
      var before, s := shown[..|shown|-1], shown[|shown|-1];
      AcceptedChainsExtend(h, before);
      ConsistentStep(h, Accepted(h, before), Track(h, before), s);
      if Judge(Track(h, before), Ask(h, s)).Some? {
        assert Accepted(h, shown) == Accepted(h, before);
      }
    }
  }

  lemma {:induction false} AscendingPush<T(!new)>(fs: seq<seq<T>>, f: seq<T>)
    requires Ascending(fs)
    ensures fs != [] && fs[|fs| - 1] <= f ==> Ascending(fs + [f])
  {
    if fs != [] && fs[|fs| - 1] <= f {
      forall i, j | 0 <= i <= j < |fs| + 1 ensures (fs + [f])[i] <= (fs + [f])[j] {
        if i < |fs| == j {
          assert fs[i] <= fs[|fs| - 1];
        }
      }
    }
  }

  /** A daemon that only ever appends, asked each time about the position recorded so far. */
  ghost predicate Honest(h: Link<Served> -> Digest, shown: seq<Shown>) {
    shown != [] ==>
      var before, s := shown[..|shown|-1], shown[|shown|-1];
      && Honest(h, before)
      && (before != [] ==> before[|before| - 1].file <= s.file)
      && s.since == match Track(h, before) { case None => None case Some(p) => Some(p.num) }
  }

  /** Such a daemon is never refused, not even when it starts from an empty chain. */
  lemma {:induction false} HonestDaemonAccepted(h: Link<Served> -> Digest, shown: seq<Shown>)
    requires Honest(h, shown)
    ensures |Accepted(h, shown)| == |shown|
    ensures shown != [] ==> Track(h, shown) == Some(End(h, shown[|shown|-1].file))
  {
    if shown != [] {
      var before, s := shown[..|shown|-1], shown[|shown|-1];
      HonestDaemonAccepted(h, before);
      if before != [] {
        var f := before[|before| - 1].file;
        assert HeadAt(h, s.file, |f|) == HeadAt(h, f, |f|);
      }
    }
  }
}
