/** The ops-host audit chain (valops/audit/sequencer.py): one writer, signed heads anchored in
    an external store, `verify_chain`, and reloading after a restart. The anchor store is
    append-only and outside the sequencer's power; whether a key is known and a signature
    verifies is a predicate `trusted` on anchors. */
module AuditChain {
  import opened Wrappers
  import opened HashChain
  import DaemonChain

  /** The part of an entry the sequencer itself reads back; everything else is `text`. */
  datatype Note =
    | AnchorNote(anchoredNum: int, anchoredHead: Digest)
    | CheckpointNote(num: int, head: Digest, accepted: bool)
    | Other(event: string, text: string)

  datatype Entry = Entry(ts: int, actor: string, note: Note, payloadRef: Option<string>)

  type Chain = seq<Link<Entry>>

  datatype Anchor = Anchor(head: Digest, num: int, tsMs: int, keyId: string, sig: string)

  // ---------------------------------------------------------------- verify_chain

  /** A line of the chain file: JSON, or not. */
  datatype Line = Parsed(link: Link<Entry>) | Garbage

  function Links(lines: seq<Line>): (c: Chain)
    requires forall i | 0 <= i < |lines| :: lines[i].Parsed?
    ensures |c| == |lines| && forall i | 0 <= i < |lines| :: c[i] == lines[i].link
  {
    seq(|lines|, i requires 0 <= i < |lines| => lines[i].link)
  }

  predicate AnchorHolds(h: Link<Entry> -> Digest, c: Chain, trusted: Anchor -> bool, a: Anchor) {
    trusted(a) && (a.num == 0 || (1 <= a.num <= |c| && HeadAt(h, c, a.num) == a.head))
  }

  /** What `verify_chain` promises when it says ok. */
  predicate Intact(h: Link<Entry> -> Digest, lines: seq<Line>, anchors: seq<Anchor>, trusted: Anchor -> bool) {
    && (forall i | 0 <= i < |lines| :: lines[i].Parsed?)
    && WellLinked(h, Links(lines))
    && (forall i | 0 <= i < |anchors| :: AnchorHolds(h, Links(lines), trusted, anchors[i]))
  }

  datatype Fault =
    | Unparseable(line: int)
    | WrongNumber(line: int)
    | BrokenLink(line: int)
    | BadSignature(num: int)
    | BeyondEnd(num: int)
    | Differs(num: int)

  function Sorted(anchors: seq<Anchor>): seq<Anchor> {
    if anchors == [] then [] else Insert(Sorted(anchors[..|anchors|-1]), anchors[|anchors|-1])
  }

  /** Stable: an anchor goes after those with the same number. */
  function Insert(sorted: seq<Anchor>, a: Anchor): seq<Anchor> {
    if sorted == [] || sorted[|sorted|-1].num <= a.num then sorted + [a]
    else Insert(sorted[..|sorted|-1], a) + [sorted[|sorted|-1]]
  }

  ghost predicate ByNumber(anchors: seq<Anchor>) {
    forall i, j | 0 <= i <= j < |anchors| :: anchors[i].num <= anchors[j].num
  }

  lemma {:induction false} InsertSorts(sorted: seq<Anchor>, a: Anchor)
    requires ByNumber(sorted)
    ensures ByNumber(Insert(sorted, a))
    ensures forall x :: x in Insert(sorted, a) <==> x in sorted || x == a
  {
    if sorted != [] && sorted[|sorted|-1].num > a.num {
      var init, last := sorted[..|sorted|-1], sorted[|sorted|-1];
      InsertSorts(init, a);
      assert sorted == init + [last];
      var r := Insert(init, a);
      forall i | 0 <= i < |r| ensures r[i].num <= last.num {
        assert r[i] in r;
      }
    }
  }

  lemma {:induction false} SortedSorts(anchors: seq<Anchor>)
    ensures ByNumber(Sorted(anchors))
    ensures forall x :: x in Sorted(anchors) <==> x in anchors
  {
    if anchors != [] {
      SortedSorts(anchors[..|anchors|-1]);
      InsertSorts(Sorted(anchors[..|anchors|-1]), anchors[|anchors|-1]);
      assert anchors == anchors[..|anchors|-1] + [anchors[|anchors|-1]];
    }
  }

  /** The table `verify_chain` builds: the head after each line read. */
  ghost predicate Heads(h: Link<Entry> -> Digest, c: Chain, hashes: map<int, Digest>) {
    && (forall n: int :: n in hashes <==> 1 <= n <= |c|)
    && (forall n: int | n in hashes :: hashes[n] == HeadAt(h, c, n))
  }

  lemma {:induction false} HeadsPush(h: Link<Entry> -> Digest, c: Chain, hashes: map<int, Digest>, e: Link<Entry>)
    requires Heads(h, c, hashes)
    ensures Heads(h, c + [e], hashes[|c| + 1 := h(e)])
  {
  }

  /** What one more line adds to the walk. */
  lemma {:induction false} LineWalked(h: Link<Entry> -> Digest, lines: seq<Line>, n: nat, hashes: map<int, Digest>)
    requires n < |lines| && forall i | 0 <= i <= n :: lines[i].Parsed?
    requires Heads(h, Links(lines[..n]), hashes)
    ensures var e, c, d := lines[n].link, Links(lines[..n]), Links(lines[..n + 1]);
      && HeadAt(h, d, n + 1) == h(e)
      && Heads(h, d, hashes[n + 1 := h(e)])
      && (WellLinked(h, d) <==> WellLinked(h, c) && e.num == n + 1 && e.prev == HeadAt(h, c, n))
  {
    var e, c, d := lines[n].link, Links(lines[..n]), Links(lines[..n + 1]);
    PrefixLinked(h, d, n);
    assert d[..n] == c;
    assert d == c + [e] && d[..n + 1] == d && d[n] == e;
    HeadsPush(h, c, hashes, e);
    assert HeadAt(h, d, n) == HeadAt(h, c, n) by {
      assert n > 0 ==> d[n - 1] == c[n - 1];
    }
  }

  /** What a fault of the walk says is so, of the lines before `end`. */
  predicate LineFault(h: Link<Entry> -> Digest, lines: seq<Line>, end: nat, f: Fault)
    requires end <= |lines| && forall i | 0 <= i < end :: lines[i].Parsed?
  {
    match f
    case Unparseable(n) => n == end + 1 <= |lines| && lines[end].Garbage?
    case WrongNumber(n) => 1 <= n <= end && lines[n - 1].link.num != n
    case BrokenLink(n) => 1 <= n <= end && lines[n - 1].link.prev != if n == 1 then GENESIS else h(lines[n - 2].link)
    case _ => false
  }

  ghost predicate LineFaults(h: Link<Entry> -> Digest, lines: seq<Line>, end: nat, fs: seq<Fault>)
    requires end <= |lines| && forall i | 0 <= i < end :: lines[i].Parsed?
  {
    forall f | f in fs :: LineFault(h, lines, end, f)
  }

  lemma {:induction false} FaultsPush(h: Link<Entry> -> Digest, lines: seq<Line>, n: nat, fs: seq<Fault>, head: Digest)
    requires n < |lines| && (forall i | 0 <= i <= n :: lines[i].Parsed?) && (forall f | f in fs :: !f.Unparseable?)
    requires LineFaults(h, lines, n, fs) && head == HeadAt(h, Links(lines[..n]), n)
    ensures var e := lines[n].link;
      LineFaults(h, lines, n + 1, fs + (if e.num != n + 1 then [WrongNumber(n + 1)] else [])
                                     + (if e.prev != head then [BrokenLink(n + 1)] else []))
  {
    assert n > 0 ==> Links(lines[..n])[n - 1] == lines[n - 1].link;
    forall f | f in fs ensures LineFault(h, lines, n + 1, f) {
      assert LineFault(h, lines, n, f);
    }
  }

  lemma {:induction false} NoFaults(h: Link<Entry> -> Digest, lines: seq<Line>)
    ensures LineFaults(h, lines, 0, [])
  {
  }

  lemma {:induction false} Unparsed(h: Link<Entry> -> Digest, lines: seq<Line>, n: nat, fs: seq<Fault>)
    requires n < |lines| && (forall i | 0 <= i < n :: lines[i].Parsed?) && lines[n].Garbage?
    requires LineFaults(h, lines, n, fs)
    ensures LineFaults(h, lines, n, fs + [Unparseable(n + 1)])
  {
  }

  /** And a fault of the anchors. */
  predicate AnchorFault(h: Link<Entry> -> Digest, lines: seq<Line>, end: nat, a: Anchor, trusted: Anchor -> bool,
      f: Fault)
    requires end <= |lines| && forall i | 0 <= i < end :: lines[i].Parsed?
  {
    match f
    case BadSignature(n) => a.num == n && !trusted(a)
    case BeyondEnd(n) => a.num == n && trusted(a) && n > end && n != 0
    case Differs(n) => a.num == n && trusted(a) && n <= end && n != 0 && (n < 0 || a.head != h(lines[n - 1].link))
    case _ => false
  }

  /** The walk over the file: numbers, links, and the head after each line. */
  method WalkLinks(h: Link<Entry> -> Digest, lines: seq<Line>)
    returns (errors: seq<Fault>, hashes: map<int, Digest>, end: nat, head: Digest)
    ensures errors == [] <==> (forall i | 0 <= i < |lines| :: lines[i].Parsed?) && WellLinked(h, Links(lines))
    ensures end <= |lines| && (errors == [] ==> end == |lines|)
    ensures forall i | 0 <= i < end :: lines[i].Parsed?
    ensures head == HeadAt(h, Links(lines[..end]), end)
    ensures Heads(h, Links(lines[..end]), hashes)
    ensures LineFaults(h, lines, end, errors)
    ensures end < |lines| ==> lines[end].Garbage?
  {
    hide LineFaults;
    NoFaults(h, lines);
    errors, hashes, end, head := [], map[], 0, GENESIS;
    for n := 0 to |lines|
      invariant end == n
      invariant forall i | 0 <= i < n :: lines[i].Parsed?
      invariant head == HeadAt(h, Links(lines[..n]), n)
      invariant Heads(h, Links(lines[..n]), hashes)
      invariant errors == [] <==> WellLinked(h, Links(lines[..n]))
      invariant LineFaults(h, lines, n, errors) && forall f | f in errors :: !f.Unparseable?
    {
      if lines[n].Garbage? {
        Unparsed(h, lines, n, errors);
        errors := errors + [Unparseable(n + 1)];
        return;
      }
      var e := lines[n].link;
      LineWalked(h, lines, n, hashes);
      FaultsPush(h, lines, n, errors, head);
      ghost var before := errors;
      if e.num != n + 1 {
        errors := errors + [WrongNumber(n + 1)];
      }
      if e.prev != head {
        errors := errors + [BrokenLink(n + 1)];
      }
      assert errors == before + (if e.num != n + 1 then [WrongNumber(n + 1)] else [])
        + (if e.prev != head then [BrokenLink(n + 1)] else []);
      head := h(e);
      hashes := hashes[n + 1 := head];
      end := n + 1;
    }
    assert lines[..|lines|] == lines;
  }

  /** Each fault says something that is so, of a line or of an anchor. */
  ghost predicate Explained(h: Link<Entry> -> Digest, lines: seq<Line>, end: nat, anchors: seq<Anchor>,
      trusted: Anchor -> bool, fs: seq<Fault>)
    requires end <= |lines| && forall i | 0 <= i < end :: lines[i].Parsed?
  {
    forall f | f in fs ::
      LineFault(h, lines, end, f) || exists a :: a in anchors && AnchorFault(h, lines, end, a, trusted, f)
  }

  lemma {:induction false} WalkExplained(h: Link<Entry> -> Digest, lines: seq<Line>, end: nat, anchors: seq<Anchor>,
      trusted: Anchor -> bool, fs: seq<Fault>)
    requires end <= |lines| && (forall i | 0 <= i < end :: lines[i].Parsed?) && LineFaults(h, lines, end, fs)
    ensures Explained(h, lines, end, anchors, trusted, fs)
  {
  }

  /** An anchor holds or has one fault, and the table of heads tells which. */
  lemma {:induction false} AnchorChecked(h: Link<Entry> -> Digest, lines: seq<Line>, end: nat, anchors: seq<Anchor>,
      trusted: Anchor -> bool, fs: seq<Fault>, a: Anchor, hashes: map<int, Digest>)
    requires end <= |lines| && (forall i | 0 <= i < end :: lines[i].Parsed?) && a in anchors
    requires Explained(h, lines, end, anchors, trusted, fs) && Heads(h, Links(lines[..end]), hashes)
    ensures !trusted(a) ==> Explained(h, lines, end, anchors, trusted, fs + [BadSignature(a.num)])
    ensures trusted(a) && a.num != 0 && a.num > end ==>
      Explained(h, lines, end, anchors, trusted, fs + [BeyondEnd(a.num)])
    ensures trusted(a) && a.num != 0 && a.num <= end && (a.num !in hashes || hashes[a.num] != a.head) ==>
      Explained(h, lines, end, anchors, trusted, fs + [Differs(a.num)])
    ensures AnchorHolds(h, Links(lines[..end]), trusted, a) <==>
      trusted(a) && (a.num == 0 || (a.num <= end && a.num in hashes && hashes[a.num] == a.head))
  {
    assert forall i | 0 <= i < end :: Links(lines[..end])[i] == lines[i].link;
  }

  /** `verify_chain`. */
  method VerifyChain(h: Link<Entry> -> Digest, lines: seq<Line>, anchors: seq<Anchor>, trusted: Anchor -> bool)
    returns (ok: bool, entries: nat, head: Digest, errors: seq<Fault>, newest: Option<int>)
    ensures ok <==> Intact(h, lines, anchors, trusted)
    ensures ok <==> errors == []
    ensures ok ==> entries == |lines| && head == HeadAt(h, Links(lines), |lines|)
    ensures newest.Some? ==> exists a :: a in anchors && trusted(a) && a.num == newest.value != 0
    ensures forall a | a in anchors && trusted(a) && a.num != 0 :: newest.Some? && a.num <= newest.value
    ensures entries <= |lines| && (forall i | 0 <= i < entries :: lines[i].Parsed?)
    ensures entries < |lines| ==> lines[entries].Garbage?
    ensures Explained(h, lines, entries, anchors, trusted, errors)
  {
    hide Explained, AnchorHolds, AnchorFault, Heads, Sorted, WellLinked, HeadAt;
    var hashes;
    errors, hashes, entries, head := WalkLinks(h, lines);
    WalkExplained(h, lines, entries, anchors, trusted, errors);
    ghost var linked := errors == [];
    newest := None;
    var sorted := Sorted(anchors);
    SortedSorts(anchors);
    for i := 0 to |sorted|
      invariant linked ==> (errors == [] <==> forall j | 0 <= j < i :: AnchorHolds(h, Links(lines), trusted, sorted[j]))
      invariant !linked ==> errors != []
      invariant newest.Some? ==> exists a :: a in anchors && trusted(a) && a.num == newest.value != 0
      invariant forall j | 0 <= j < i && trusted(sorted[j]) && sorted[j].num != 0 ::
          newest.Some? && sorted[j].num <= newest.value
      invariant Explained(h, lines, entries, anchors, trusted, errors)
    {
      var a := sorted[i];
      assert a in sorted && a in anchors;
      assert linked ==> lines[..entries] == lines;
      AnchorChecked(h, lines, entries, anchors, trusted, errors, a, hashes);
      if !trusted(a) {
        errors := errors + [BadSignature(a.num)];
      } else if a.num != 0 {
        if a.num > entries {
          errors := errors + [BeyondEnd(a.num)];
        } else if a.num !in hashes || hashes[a.num] != a.head {
          errors := errors + [Differs(a.num)];
        }
        newest := Some(a.num);
      }
    }
    ok := errors == [];
    if ok {
      assert lines[..entries] == lines;
      forall i | 0 <= i < |anchors| ensures AnchorHolds(h, Links(lines), trusted, anchors[i]) {
        assert anchors[i] in sorted;
      }
    }
    if Intact(h, lines, anchors, trusted) {
      forall j | 0 <= j < |sorted| ensures AnchorHolds(h, Links(lines), trusted, sorted[j]) {
        assert sorted[j] in anchors;
      }
    }
    forall a | a in anchors && trusted(a) && a.num != 0 ensures newest.Some? && a.num <= newest.value {
      assert a in sorted;
    }
  }

  /** Soundness: if the check passes and one of the anchors was taken from an honest chain, the file
      still begins with everything that chain held when the anchor was taken. */
  lemma {:induction false} VerifiedFileKeepsAnchored(h: Link<Entry> -> Digest, lines: seq<Line>, anchors: seq<Anchor>,
                                  trusted: Anchor -> bool, honest: Chain, a: Anchor)
    requires Injective(h) && Intact(h, lines, anchors, trusted)
    requires a in anchors && 0 <= a.num <= |honest|
    requires WellLinked(h, honest) && a.head == HeadAt(h, honest, a.num)
    ensures a.num <= |lines| && Links(lines)[..a.num] == honest[..a.num]
  {
    var i :| 0 <= i < |anchors| && anchors[i] == a;
    assert AnchorHolds(h, Links(lines), trusted, anchors[i]);
    if a.num != 0 {
      SameHeadSamePrefix(h, Links(lines), honest, a.num);
    }
  }

  // ---------------------------------------------------------------- the sequencer's state

  /** A running `anchor_now`: it read a position, and later puts and then notes the anchor. */
  datatype Anchoring = Anchoring(num: int, head: Digest, put: bool)

  /** A running `record_daemon_checkpoint`: it holds the position it read, or the entries it has still to write. */
  datatype Reporting =
    | Judging(ck: DaemonChain.Checkpoint, last: Option<DaemonChain.Position>, actor: string)
    | Writing(notes: seq<Note>, actor: string)

  /** `reports` holds those that have decided in the order in which they did. */
  datatype Sequencer = Sequencer(
    file: Chain, num: int, head: Digest, daemonLast: Option<DaemonChain.Position>,
    anchors: seq<Anchor>, running: seq<Anchoring>, reports: seq<Reporting>)

  const EMPTY := Sequencer([], 0, GENESIS, None, [], [], [])

  function Appended(h: Link<Entry> -> Digest, s: Sequencer, e: Entry): Sequencer {
    var link := Link(s.num + 1, s.head, e);
    s.(file := s.file + [link], num := s.num + 1, head := h(link))
  }

  /** What `_load` restores from a file. */
  function LastAccepted(c: Chain): Option<DaemonChain.Position> {
    if c == [] then None
    else
      var n := c[|c|-1].data.note;
      if n.CheckpointNote? && n.accepted then Some(DaemonChain.Position(n.num, n.head)) else LastAccepted(c[..|c|-1])
  }

  /** Atomic steps of the sequencer process and its clients. `anchor_now` is three steps, because other
      submissions may come between its two locked regions and its put; and so is
      `record_daemon_checkpoint`, which takes the lock only to append. */
  datatype Step =
    | Submit(e: Entry)
    | AnchorRead
    | AnchorPut(which: nat, tsMs: int, keyId: string, sig: string)
    | AnchorWrite(which: nat, ts: int)
    | ReportRead(ck: DaemonChain.Checkpoint, signed: bool, actor: string)
    | ReportDecide(which: nat)
    | ReportWrite(which: nat, ts: int)
    | Restart

  function CheckpointEntry(ts: int, actor: string, ck: DaemonChain.Checkpoint, ok: bool): Entry {
    Entry(ts, actor, CheckpointNote(ck.num, ck.head, ok), None)
  }

  /** `record_daemon_checkpoint` when nothing comes between its steps. */
  function Reported(h: Link<Entry> -> Digest, s: Sequencer, ck: DaemonChain.Checkpoint, signed: bool, ts: int,
      actor: string): Sequencer {
    var fail := Entry(ts, actor, FAILURE, None);
    if !signed then Appended(h, s, fail)
    else if DaemonChain.Judge(s.daemonLast, ck).Some? then
      Appended(h, Appended(h, s, fail), CheckpointEntry(ts, actor, ck, false))
    else
      Appended(h, s.(daemonLast := DaemonChain.Record(s.daemonLast, ck)), CheckpointEntry(ts, actor, ck, true))
  }

  /** The checkpoint goes on from the recorded position: it is not shorter, and names it and its head. */
  predicate Continues(last: Option<DaemonChain.Position>, ck: DaemonChain.Checkpoint) {
    last.Some? ==>
      && ck.num >= last.value.num
      && ck.sinceSeq == Some(last.value.num) && ck.sinceHead == Some(last.value.head)
  }

  const FAILURE := Other("integrity_fail", "")

  /** What the decision leaves to be written. */
  function Verdict(last: Option<DaemonChain.Position>, ck: DaemonChain.Checkpoint): seq<Note> {
    if DaemonChain.Judge(last, ck).Some? then [FAILURE, CheckpointNote(ck.num, ck.head, false)]
    else [CheckpointNote(ck.num, ck.head, true)]
  }

  function Without<T>(xs: seq<T>, i: nat): seq<T>
    requires i < |xs|
  {
    xs[..i] + xs[i + 1..]
  }

  function Decided(s: Sequencer, i: nat): Sequencer
    requires i < |s.reports| && s.reports[i].Judging?
  {
    var r := s.reports[i];
    var accepted := DaemonChain.Judge(r.last, r.ck).None?;
    s.(daemonLast := if accepted then Some(DaemonChain.Position(r.ck.num, r.ck.head)) else s.daemonLast,
       reports := Without(s.reports, i) + [Writing(Verdict(r.last, r.ck), r.actor)])
  }

  /** The reports after one has written its next entry. */
  function OneWritten(rs: seq<Reporting>, i: nat): seq<Reporting>
    requires i < |rs| && rs[i].Writing? && rs[i].notes != []
  {
    if |rs[i].notes| == 1 then Without(rs, i) else rs[i := Writing(rs[i].notes[1..], rs[i].actor)]
  }

  function NoteWritten(h: Link<Entry> -> Digest, s: Sequencer, i: nat, ts: int): Sequencer
    requires i < |s.reports| && s.reports[i].Writing? && s.reports[i].notes != []
  {
    Appended(h, s.(reports := OneWritten(s.reports, i)), Entry(ts, s.reports[i].actor, s.reports[i].notes[0], None))
  }

  function Next(h: Link<Entry> -> Digest, s: Sequencer, step: Step): Sequencer {
    match step
    case Submit(e) => Appended(h, s, e)
    case AnchorRead => s.(running := s.running + [Anchoring(s.num, s.head, false)])
    case AnchorPut(i, tsMs, keyId, sig) =>
      if i < |s.running| && !s.running[i].put then
        s.(anchors := s.anchors + [Anchor(s.running[i].head, s.running[i].num, tsMs, keyId, sig)],
           running := s.running[i := s.running[i].(put := true)])
      else s
    case AnchorWrite(i, ts) =>
      if i < |s.running| && s.running[i].put then
        Appended(h, s.(running := s.running[..i] + s.running[i + 1..]),
                 Entry(ts, "audit_sequencer", AnchorNote(s.running[i].num, s.running[i].head), None))
      else s
    case ReportRead(ck, signed, actor) =>
      s.(reports := s.reports + [if signed then Judging(ck, s.daemonLast, actor) else Writing([FAILURE], actor)])
    case ReportDecide(i) => if i < |s.reports| && s.reports[i].Judging? then Decided(s, i) else s
    case ReportWrite(i, ts) =>
      if i < |s.reports| && s.reports[i].Writing? && s.reports[i].notes != [] then NoteWritten(h, s, i, ts) else s
    case Restart =>
      s.(num := |s.file|, head := HeadAt(h, s.file, |s.file|), daemonLast := LastAccepted(s.file), running := [],
         reports := [])
  }

  function Exec(h: Link<Entry> -> Digest, steps: seq<Step>): Sequencer {
    if steps == [] then EMPTY else Next(h, Exec(h, steps[..|steps|-1]), steps[|steps|-1])
  }

  /** The in-memory position is the file's, and every anchor taken or being taken is one of its heads. */
  ghost predicate Sound(h: Link<Entry> -> Digest, s: Sequencer) {
    && WellLinked(h, s.file)
    && s.num == |s.file| && s.head == HeadAt(h, s.file, |s.file|)
    && (forall i | 0 <= i < |s.anchors| ::
          0 <= s.anchors[i].num <= |s.file| && s.anchors[i].head == HeadAt(h, s.file, s.anchors[i].num))
    && (forall i | 0 <= i < |s.running| ::
          0 <= s.running[i].num <= |s.file| && s.running[i].head == HeadAt(h, s.file, s.running[i].num))
  }

  lemma {:induction false} AppendedSound(h: Link<Entry> -> Digest, s: Sequencer, e: Entry)
    requires Sound(h, s)
    ensures Sound(h, Appended(h, s, e)) && Appended(h, s, e).file == Extend(h, s.file, e)
  {
    ExtendLinked(h, s.file, e);
    var t := Appended(h, s, e);
    assert forall n: nat | n <= |s.file| :: HeadAt(h, t.file, n) == HeadAt(h, s.file, n);
  }

  lemma {:induction false} StepSound(h: Link<Entry> -> Digest, s: Sequencer, step: Step)
    requires Sound(h, s)
    ensures Sound(h, Next(h, s, step)) && s.file <= Next(h, s, step).file
  {
    match step
    case Submit(e) => AppendedSound(h, s, e);
    case AnchorWrite(i, ts) =>
      if i < |s.running| && s.running[i].put {
        AppendedSound(h, s.(running := s.running[..i] + s.running[i + 1..]),
                      Entry(ts, "audit_sequencer", AnchorNote(s.running[i].num, s.running[i].head), None));
      }
    case ReportWrite(i, ts) =>
      if i < |s.reports| && s.reports[i].Writing? && s.reports[i].notes != [] {
        AppendedSound(h, s.(reports := OneWritten(s.reports, i)),
          Entry(ts, s.reports[i].actor, s.reports[i].notes[0], None));
      }
    case _ =>
  }

  lemma {:induction false} ReachableSound(h: Link<Entry> -> Digest, steps: seq<Step>)
    ensures Sound(h, Exec(h, steps))
  {
    if steps != [] {
      ReachableSound(h, steps[..|steps|-1]);
      StepSound(h, Exec(h, steps[..|steps|-1]), steps[|steps|-1]);
    }
  }

  function Written(c: Chain): (lines: seq<Line>)
    ensures |lines| == |c| && forall i | 0 <= i < |c| :: lines[i] == Parsed(c[i])
  {
    seq(|c|, i requires 0 <= i < |c| => Parsed(c[i]))
  }

  /** Completeness: whatever the interleaving of submissions, anchorings, daemon reports and
      restarts, the chain and anchors so produced pass the check. */
  lemma {:induction false} ProducedChainsVerify(h: Link<Entry> -> Digest, steps: seq<Step>, trusted: Anchor -> bool)
    requires forall a | a in Exec(h, steps).anchors :: trusted(a)
    ensures Intact(h, Written(Exec(h, steps).file), Exec(h, steps).anchors, trusted)
  {
    ReachableSound(h, steps);
    var s := Exec(h, steps);
    assert Links(Written(s.file)) == s.file;
    forall i | 0 <= i < |s.anchors| ensures AnchorHolds(h, s.file, trusted, s.anchors[i]) {
      assert s.anchors[i] in s.anchors;
    }
  }

  lemma {:induction false} SameAt(c: Chain, d: Chain, n: nat, i: nat)
    requires i < n <= |c| && n <= |d| && c[..n] == d[..n]
    ensures c[i] == d[i]
  {
    assert c[i] == c[..n][i] == d[..n][i] == d[i];
  }

  /** Tampering: a file that lost or changed any entry older than an anchor fails the check. */
  lemma {:induction false} TamperingIsCaught(h: Link<Entry> -> Digest, steps: seq<Step>, trusted: Anchor -> bool,
                          lines: seq<Line>, a: Anchor, i: nat)
    requires Injective(h)
    requires a in Exec(h, steps).anchors && i < a.num
    requires i < |lines| && i < |Exec(h, steps).file| ==> lines[i] != Parsed(Exec(h, steps).file[i])
    ensures !Intact(h, lines, Exec(h, steps).anchors, trusted)
  {
    ReachableSound(h, steps);
    var s := Exec(h, steps);
    var j :| 0 <= j < |s.anchors| && s.anchors[j] == a;
    assert 0 <= s.anchors[j].num <= |s.file|;
    if Intact(h, lines, s.anchors, trusted) {
      VerifiedFileKeepsAnchored(h, lines, s.anchors, trusted, s.file, a);
      SameAt(Links(lines), s.file, a.num, i);
      assert false;
    }
  }

  // ---------------------------------------------------------------- reloading

  /** A restart would change nothing the sequencer relies on. */
  ghost predicate Reloads(h: Link<Entry> -> Digest, s: Sequencer) {
    && WellLinked(h, s.file)
    && var t := Next(h, s, Restart);
    t.num == s.num && t.head == s.head && t.daemonLast == s.daemonLast
  }

  lemma {:induction false} LastAcceptedPush(c: Chain, link: Link<Entry>)
    ensures LastAccepted(c + [link]) ==
      var n := link.data.note;
      if n.CheckpointNote? && n.accepted then Some(DaemonChain.Position(n.num, n.head)) else LastAccepted(c)
  {
    assert (c + [link])[..|c|] == c;
  }

  /** The entry claims an accepted checkpoint other than the one the sequencer holds. */
  predicate ForeignCheckpoint(s: Sequencer, n: Note) {
    n.CheckpointNote? && n.accepted && s.daemonLast != Some(DaemonChain.Position(n.num, n.head))
  }

  /** The step makes the file and the sequencer disagree: it writes an accepted checkpoint that is not the position
      held, or moves the position held without writing. */
  predicate Diverges(s: Sequencer, step: Step) {
    match step
    case Submit(e) => ForeignCheckpoint(s, e.note)
    case ReportDecide(i) =>
      && i < |s.reports| && s.reports[i].Judging?
      && Decided(s, i).daemonLast != s.daemonLast
    case ReportWrite(i, _) =>
      && i < |s.reports| && s.reports[i].Writing? && s.reports[i].notes != []
      && ForeignCheckpoint(s, s.reports[i].notes[0])
    case _ => false
  }

  /** Reloading stays exact over a step if and only if the step does not submit a foreign accepted checkpoint (an
      event name `submit` does not refuse), decide on a new position, or write a position decided before it. */
  lemma {:induction false} StepReloads(h: Link<Entry> -> Digest, s: Sequencer, step: Step)
    requires Sound(h, s) && Reloads(h, s)
    ensures Reloads(h, Next(h, s, step)) <==> !Diverges(s, step)
  {
    StepSound(h, s, step);
    var t := Next(h, s, step);
    match step
    case Submit(e) => LastAcceptedPush(s.file, Link(s.num + 1, s.head, e));
    case AnchorWrite(i, ts) =>
      if i < |s.running| && s.running[i].put {
        LastAcceptedPush(s.file, t.file[|s.file|]);
      }
    case ReportWrite(i, ts) =>
      if i < |s.reports| && s.reports[i].Writing? && s.reports[i].notes != [] {
        LastAcceptedPush(s.file, t.file[|s.file|]);
      }
    case _ =>
  }

  // ---------------------------------------------------------------- when a restart loses nothing

  /** Decided to accept, and not written yet. */
  predicate Accepting(r: Reporting) {
    r.Writing? && r.notes != [] && r.notes[0].CheckpointNote? && r.notes[0].accepted
  }

  /** The position decided last among those not written yet. */
  function Unwritten(rs: seq<Reporting>): Option<DaemonChain.Position> {
    if rs == [] then None
    else
      var r := rs[|rs|-1];
      if Accepting(r) then Some(DaemonChain.Position(r.notes[0].num, r.notes[0].head)) else Unwritten(rs[..|rs|-1])
  }

  /** Checkpoint entries come only from `record_daemon_checkpoint`. */
  predicate NoForgedReports(steps: seq<Step>) {
    forall i | 0 <= i < |steps| :: steps[i].Submit? ==> !steps[i].e.note.CheckpointNote?
  }

  /** Accepted checkpoints are written in the order in which they were accepted, as they are when reports do not
      overlap. */
  predicate InTurn(s: Sequencer, step: Step) {
    step.ReportWrite? && step.which < |s.reports| && Accepting(s.reports[step.which]) ==>
      forall j | 0 <= j < step.which :: !Accepting(s.reports[j])
  }

  ghost predicate InOrder(h: Link<Entry> -> Digest, steps: seq<Step>) {
    steps != [] ==> InOrder(h, steps[..|steps|-1]) && InTurn(Exec(h, steps[..|steps|-1]), steps[|steps|-1])
  }

  /** What a decision leaves to be written, or the rest of it. */
  predicate NotesFit(r: Reporting) {
    r.Writing? ==>
      || |r.notes| <= 1
      || (|r.notes| == 2 && r.notes[0] == FAILURE && r.notes[1].CheckpointNote? && !r.notes[1].accepted)
  }

  ghost predicate NotesOk(rs: seq<Reporting>) {
    forall i | 0 <= i < |rs| :: NotesFit(rs[i])
  }

  /** The position held is the one decided last, written or not. */
  ghost predicate Current(s: Sequencer) {
    && NotesOk(s.reports)
    && s.daemonLast == if Unwritten(s.reports).Some? then Unwritten(s.reports) else LastAccepted(s.file)
  }

  lemma {:induction false} UnwrittenPush(rs: seq<Reporting>, r: Reporting)
    ensures Unwritten(rs + [r]) ==
      if Accepting(r) then Some(DaemonChain.Position(r.notes[0].num, r.notes[0].head)) else Unwritten(rs)
  {
    assert (rs + [r])[..|rs|] == rs;
  }

  /** Taking out or replacing a report by one that is not accepting changes the last only if it was the last. */
  lemma {:induction false} UnwrittenWithout(rs: seq<Reporting>, i: nat)
    requires i < |rs|
    ensures !Accepting(rs[i]) ==> Unwritten(Without(rs, i)) == Unwritten(rs)
    ensures Accepting(rs[i]) && (forall j | 0 <= j < i :: !Accepting(rs[j])) ==>
      Unwritten(Without(rs, i)).Some? ==> Unwritten(Without(rs, i)) == Unwritten(rs)
    ensures Accepting(rs[i]) && (forall j | 0 <= j < i :: !Accepting(rs[j])) ==>
      Unwritten(Without(rs, i)).None? ==>
        Unwritten(rs) == Some(DaemonChain.Position(rs[i].notes[0].num, rs[i].notes[0].head))
  {
    var n := |rs| - 1;
    if i < n {
      UnwrittenWithout(rs[..n], i);
      var w := Without(rs, i);
      assert w[..|w| - 1] == Without(rs[..n], i) && w[|w| - 1] == rs[n];
    } else {
      assert Without(rs, i) == rs[..n];
      if forall j | 0 <= j < i :: !Accepting(rs[j]) {
        NoneAccepting(rs[..n]);
      }
    }
  }

  lemma {:induction false} NoneAccepting(rs: seq<Reporting>)
    requires forall j | 0 <= j < |rs| :: !Accepting(rs[j])
    ensures Unwritten(rs).None?
  {
    if rs != [] {
      NoneAccepting(rs[..|rs|-1]);
    }
  }

  lemma {:induction false} UnwrittenUpdate(rs: seq<Reporting>, i: nat, r: Reporting)
    requires i < |rs| && !Accepting(rs[i]) && !Accepting(r)
    ensures Unwritten(rs[i := r]) == Unwritten(rs)
  {
    var n := |rs| - 1;
    if i < n {
      UnwrittenUpdate(rs[..n], i, r);
      assert rs[i := r][..n] == rs[..n][i := r];
    } else {
      assert rs[i := r][..n] == rs[..n];
    }
  }

  lemma {:induction false} NotesWithout(rs: seq<Reporting>, i: nat)
    requires i < |rs| && NotesOk(rs)
    ensures NotesOk(Without(rs, i))
  {
    var w := Without(rs, i);
    forall n | 0 <= n < |w| ensures NotesFit(w[n]) {
      assert w[n] == rs[if n < i then n else n + 1];
    }
  }

  lemma {:induction false} DecideCurrent(s: Sequencer, i: nat)
    requires Current(s) && i < |s.reports| && s.reports[i].Judging?
    ensures Current(Decided(s, i))
  {
    var r := s.reports[i];
    UnwrittenWithout(s.reports, i);
    UnwrittenPush(Without(s.reports, i), Writing(Verdict(r.last, r.ck), r.actor));
    NotesWithout(s.reports, i);
  }

  lemma {:induction false} NotesWritten(rs: seq<Reporting>, i: nat)
    requires i < |rs| && rs[i].Writing? && rs[i].notes != [] && NotesOk(rs)
    ensures NotesOk(OneWritten(rs, i))
    ensures |rs[i].notes| > 1 ==> !Accepting(rs[i]) && !Accepting(OneWritten(rs, i)[i])
  {
    assert NotesFit(rs[i]);
    if |rs[i].notes| == 1 {
      NotesWithout(rs, i);
    }
  }

  /** Writing in turn keeps the last undecided position, unless it was the one written. */
  lemma {:induction false} UnwrittenWritten(rs: seq<Reporting>, i: nat)
    requires i < |rs| && rs[i].Writing? && rs[i].notes != [] && NotesOk(rs)
    requires Accepting(rs[i]) ==> forall j | 0 <= j < i :: !Accepting(rs[j])
    ensures var after := Unwritten(OneWritten(rs, i));
      if Accepting(rs[i]) && after.None? then
        Unwritten(rs) == Some(DaemonChain.Position(rs[i].notes[0].num, rs[i].notes[0].head))
      else after == Unwritten(rs)
  {
    hide Accepting;
    NotesWritten(rs, i);
    if |rs[i].notes| == 1 {
      UnwrittenWithout(rs, i);
    } else {
      UnwrittenUpdate(rs, i, OneWritten(rs, i)[i]);
    }
  }

  lemma {:induction false} WriteCurrent(h: Link<Entry> -> Digest, s: Sequencer, i: nat, ts: int)
    requires Current(s) && i < |s.reports| && s.reports[i].Writing? && s.reports[i].notes != []
    requires InTurn(s, ReportWrite(i, ts))
    ensures Current(NoteWritten(h, s, i, ts))
  {
    hide NotesOk, OneWritten, LastAccepted, Unwritten;
    LastAcceptedPush(s.file, Link(s.num + 1, s.head, Entry(ts, s.reports[i].actor, s.reports[i].notes[0], None)));
    NotesWritten(s.reports, i);
    UnwrittenWritten(s.reports, i);
  }

  lemma {:induction false} StepCurrent(h: Link<Entry> -> Digest, s: Sequencer, step: Step)
    requires Current(s) && InTurn(s, step) && !(step.Submit? && step.e.note.CheckpointNote?)
    ensures Current(Next(h, s, step))
  {
    hide Accepting, HeadAt;
    match step
    case Submit(e) => LastAcceptedPush(s.file, Link(s.num + 1, s.head, e));
    case AnchorWrite(i, ts) =>
      if i < |s.running| && s.running[i].put {
        LastAcceptedPush(s.file, Next(h, s, step).file[|s.file|]);
      }
    case ReportRead(ck, signed, actor) => ReadCurrent(h, s, ck, signed, actor);
    case ReportDecide(i) =>
      if i < |s.reports| && s.reports[i].Judging? {
        DecideCurrent(s, i);
      }
    case ReportWrite(i, ts) =>
      if i < |s.reports| && s.reports[i].Writing? && s.reports[i].notes != [] {
        WriteCurrent(h, s, i, ts);
      }
    case _ =>
  }

  lemma {:induction false} ReadCurrent(h: Link<Entry> -> Digest, s: Sequencer, ck: DaemonChain.Checkpoint,
      signed: bool, actor: string)
    requires Current(s)
    ensures Current(Next(h, s, ReportRead(ck, signed, actor)))
  {
    UnwrittenPush(s.reports, if signed then Judging(ck, s.daemonLast, actor) else Writing([FAILURE], actor));
  }

  lemma {:induction false} ReachableCurrent(h: Link<Entry> -> Digest, steps: seq<Step>)
    requires NoForgedReports(steps) && InOrder(h, steps)
    ensures Current(Exec(h, steps))
  {
    if steps != [] {
      var before := steps[..|steps|-1];
      ReachableCurrent(h, before);
      StepCurrent(h, Exec(h, before), steps[|steps|-1]);
    }
  }

  /** A reachable sequencer restarts with the same number, head and daemon position exactly when no accepted
      checkpoint is decided but not written, or that position is already the file's last: for every run without
      forged checkpoint entries that writes accepted checkpoints in the order of their acceptance. */
  lemma {:induction false} ReachableReloads(h: Link<Entry> -> Digest, steps: seq<Step>)
    requires NoForgedReports(steps) && InOrder(h, steps)
    ensures var s := Exec(h, steps);
      Reloads(h, s) <==> Unwritten(s.reports).None? || Unwritten(s.reports) == LastAccepted(s.file)
  {
    hide Exec;
    ReachableCurrent(h, steps);
    ReachableSound(h, steps);
  }

  lemma {:induction false} ExecPush(h: Link<Entry> -> Digest, steps: seq<Step>, step: Step)
    ensures Exec(h, steps + [step]) == Next(h, Exec(h, steps), step)
  {
    assert (steps + [step])[..|steps|] == steps;
  }

  function PositionOf(ck: DaemonChain.Checkpoint): DaemonChain.Position {
    DaemonChain.Position(ck.num, ck.head)
  }

  function Accept(ck: DaemonChain.Checkpoint, actor: string): Reporting {
    Writing([CheckpointNote(ck.num, ck.head, true)], actor)
  }

  lemma {:induction false} WrittenAccepted(h: Link<Entry> -> Digest, s: Sequencer, i: nat, ck: DaemonChain.Checkpoint,
      actor: string, ts: int)
    requires i < |s.reports| && s.reports[i] == Accept(ck, actor)
    ensures var t := Next(h, s, ReportWrite(i, ts));
      && t.reports == Without(s.reports, i) && t.daemonLast == s.daemonLast
      && LastAccepted(t.file) == Some(PositionOf(ck))
  {
    LastAcceptedPush(s.file, Link(s.num + 1, s.head, Entry(ts, actor, CheckpointNote(ck.num, ck.head, true), None)));
  }

  /** Two reports, the second begun when the first has decided. */
  function BothDecide(first: DaemonChain.Checkpoint, second: DaemonChain.Checkpoint, actor: string): seq<Step> {
    [ReportRead(first, true, actor), ReportDecide(0), ReportRead(second, true, actor), ReportDecide(1)]
  }

  /** Overlapping reports can break that order. Then, with nothing under way any more, the sequencer holds the
      position accepted last and a restart goes back to an earlier one, written last. */
  lemma {:induction false} OverlappedReportsRewind(h: Link<Entry> -> Digest, first: DaemonChain.Checkpoint,
      second: DaemonChain.Checkpoint, actor: string, ts: int)
    requires first.num <= second.num && second.sinceSeq == Some(first.num) && second.sinceHead == Some(first.head)
    ensures var s := Exec(h, BothDecide(first, second, actor) + [ReportWrite(1, ts)] + [ReportWrite(0, ts)]);
      && s.reports == [] && s.daemonLast == Some(PositionOf(second))
      && Next(h, s, Restart).daemonLast == Some(PositionOf(first))
  {
    hide Exec;
    var run := BothDecide(first, second, actor);
    BothAccepted(h, first, second, actor);
    ExecPush(h, run, ReportWrite(1, ts));
    ExecPush(h, run + [ReportWrite(1, ts)], ReportWrite(0, ts));
    WrittenAccepted(h, Exec(h, run), 1, second, actor, ts);
    WrittenAccepted(h, Exec(h, run + [ReportWrite(1, ts)]), 0, first, actor, ts);
  }

  lemma {:induction false} BothAccepted(h: Link<Entry> -> Digest, first: DaemonChain.Checkpoint,
      second: DaemonChain.Checkpoint, actor: string)
    requires first.num <= second.num && second.sinceSeq == Some(first.num) && second.sinceHead == Some(first.head)
    ensures var s := Exec(h, BothDecide(first, second, actor));
      s == EMPTY.(daemonLast := Some(PositionOf(second)), reports := [Accept(first, actor), Accept(second, actor)])
  {
    var run := BothDecide(first, second, actor);
    assert run[..3][..2] == run[..2] && run[..2][..1] == run[..1] && run[..1][..0] == [];
    assert Exec(h, run[..1]).reports == [Judging(first, None, actor)];
    assert Exec(h, run[..2]).reports == [Accept(first, actor)];
  }

  /** One report at a time is the three steps in a row. */
  lemma {:induction false} ReportedInSteps(h: Link<Entry> -> Digest, s: Sequencer, ck: DaemonChain.Checkpoint,
      signed: bool, ts: int, actor: string)
    ensures var n := |s.reports|;
      var read := Next(h, s, ReportRead(ck, signed, actor));
      var decided := Next(h, read, ReportDecide(n));
      var written := Next(h, decided, ReportWrite(n, ts));
      Reported(h, s, ck, signed, ts, actor) ==
        if signed && DaemonChain.Judge(s.daemonLast, ck).Some? then Next(h, written, ReportWrite(n, ts)) else written
  {
    var n := |s.reports|;
    var read := Next(h, s, ReportRead(ck, signed, actor));
    assert Without(read.reports, n) == s.reports;
    if signed {
      var last := Writing(Verdict(s.daemonLast, ck), actor);
      assert Next(h, read, ReportDecide(n)).reports == s.reports + [last];
      assert Without(s.reports + [last], n) == s.reports;
      if DaemonChain.Judge(s.daemonLast, ck).Some? {
        var rest := Writing([CheckpointNote(ck.num, ck.head, false)], actor);
        assert (s.reports + [last])[n := rest] == s.reports + [rest];
        assert Without(s.reports + [rest], n) == s.reports;
      }
    }
  }

  /** One submitted event is enough to make a restart believe any position at all. */
  lemma {:induction false} ForgedReportSurvivesRestart(h: Link<Entry> -> Digest, s: Sequencer, ts: int, actor: string,
      forged: DaemonChain.Position)
    ensures var t := Next(h, s, Submit(Entry(ts, actor, CheckpointNote(forged.num, forged.head, true), None)));
      t.daemonLast == s.daemonLast && Next(h, t, Restart).daemonLast == Some(forged)
  {
    LastAcceptedPush(s.file,
      Link(s.num + 1, s.head, Entry(ts, actor, CheckpointNote(forged.num, forged.head, true), None)));
  }

  // ---------------------------------------------------------------- the sequencer's object

  /** What one more line adds to a load. */
  lemma {:induction false} LineLoaded(h: Link<Entry> -> Digest, lines: Chain, n: nat)
    requires n < |lines|
    ensures var e := lines[n];
      && HeadAt(h, lines, n + 1) == h(e)
      && (WellLinked(h, lines[..n + 1]) <==>
        WellLinked(h, lines[..n]) && e.num == n + 1 && e.prev == HeadAt(h, lines, n))
      && LastAccepted(lines[..n + 1]) ==
           if e.data.note.CheckpointNote? && e.data.note.accepted then
             Some(DaemonChain.Position(e.data.note.num, e.data.note.head))
           else LastAccepted(lines[..n])
  {
    PrefixLinked(h, lines, n);
    assert lines[..n + 1] == lines[..n] + [lines[n]];
    LastAcceptedPush(lines[..n], lines[n]);
  }

  class AuditSequencer {
    const h: Link<Entry> -> Digest
    var file: Chain
    var num: int
    var head: Digest
    var daemonLast: Option<DaemonChain.Position>
    var lastAnchorTs: Option<int>
    var integrityError: Option<int>
    var anchors: seq<Anchor>
    var running: seq<Anchoring>
    var reports: seq<Reporting>

    function State(): Sequencer
      reads this
    {
      Sequencer(file, num, head, daemonLast, anchors, running, reports)
    }

    /** `__init__` and `_load`: the walk over an existing file, broken or not. */
    constructor (h: Link<Entry> -> Digest, lines: Chain, anchors: seq<Anchor>)
      ensures this.h == h && file == lines && this.anchors == anchors && running == [] && reports == []
      ensures integrityError.None? <==> WellLinked(h, lines)
      ensures WellLinked(h, lines) ==> num == |lines|
      ensures head == HeadAt(h, lines, |lines|) && daemonLast == LastAccepted(lines)
    {
      assert lines[..0] == [] && WellLinked(h, lines[..0]) && LastAccepted(lines[..0]) == None
        && HeadAt(h, lines, 0) == GENESIS;
      hide WellLinked, LastAccepted, HeadAt;
      this.h, this.file, this.anchors, this.running, this.reports := h, lines, anchors, [], [];
      var prev, at, last, anchorTs, broken := GENESIS, 0, None, None, None;
      for n := 0 to |lines|
        invariant prev == HeadAt(h, lines, n)
        invariant broken.None? <==> WellLinked(h, lines[..n])
        invariant WellLinked(h, lines[..n]) ==> at == n
        invariant last == LastAccepted(lines[..n])
      {
        var e := lines[n];
        LineLoaded(h, lines, n);
        if e.prev != prev || e.num != n + 1 {
          broken := Some(n + 1);
        }
        prev := h(e);
        at := e.num;
        if e.data.note.AnchorNote? {
          anchorTs := Some(e.data.ts);
        }
        if e.data.note.CheckpointNote? && e.data.note.accepted {
          last := Some(DaemonChain.Position(e.data.note.num, e.data.note.head));
        }
      }
      assert lines[..|lines|] == lines;
      num, head, daemonLast, lastAnchorTs, integrityError := at, prev, last, anchorTs, broken;
    }

    /** `_append` (and `submit`, whose event check refuses only unknown names). */
    method Append(e: Entry) returns (at: int, hash: Digest)
      modifies this
      ensures State() == Appended(h, old(State()), e)
      ensures file == old(file) + [Link(old(num) + 1, old(head), e)]
      ensures num == old(num) + 1 && head == h(file[|file|-1])
      ensures at == num && hash == head
      ensures lastAnchorTs == old(lastAnchorTs) && integrityError == old(integrityError)
    {
      var link := Link(num + 1, head, e);
      file := file + [link];
      num := num + 1;
      head := h(link);
      at, hash := num, head;
    }

    /** First locked region of `anchor_now`. */
    method BeginAnchor()
      modifies this
      ensures State() == Next(h, old(State()), AnchorRead)
      ensures lastAnchorTs == old(lastAnchorTs) && integrityError == old(integrityError)
    {
      running := running + [Anchoring(num, head, false)];
    }

    /** Signing and putting; an unreachable store raises here and nothing is noted. */
    method PutAnchor(i: nat, tsMs: int, keyId: string, sig: string, reachable: bool)
      requires i < |running| && !running[i].put
      modifies this
      ensures reachable ==> State() == Next(h, old(State()), AnchorPut(i, tsMs, keyId, sig))
      ensures reachable ==>
        anchors == old(anchors) + [Anchor(old(running[i].head), old(running[i].num), tsMs, keyId, sig)]
      ensures !reachable ==> State() == old(State())
      ensures integrityError == old(integrityError)
    {
      if reachable {
        anchors := anchors + [Anchor(running[i].head, running[i].num, tsMs, keyId, sig)];
        running := running[i := running[i].(put := true)];
        lastAnchorTs := Some(tsMs);
      }
    }

    /** Second locked region of `anchor_now`. */
    method NoteAnchor(i: nat, ts: int)
      requires i < |running| && running[i].put
      modifies this
      ensures State() == Next(h, old(State()), AnchorWrite(i, ts))
      ensures |file| == |old(file)| + 1 && file[..|old(file)|] == old(file)
      ensures file[|old(file)|].data ==
        Entry(ts, "audit_sequencer", AnchorNote(old(running[i].num), old(running[i].head)), None)
    {
      var a := running[i];
      running := running[..i] + running[i + 1..];
      var at, hash := Append(Entry(ts, "audit_sequencer", AnchorNote(a.num, a.head), None));
    }

    /** `record_daemon_checkpoint`: the signature, and the read of `daemon_last`. */
    method ReadReport(ck: DaemonChain.Checkpoint, signed: bool, actor: string)
      modifies this`reports
      ensures State() == Next(h, old(State()), ReportRead(ck, signed, actor))
    {
      reports := reports + [if signed then Judging(ck, daemonLast, actor) else Writing([FAILURE], actor)];
    }

    /** Its decision, which no lock protects. */
    method DecideReport(i: nat) returns (ok: bool)
      requires i < |reports| && reports[i].Judging?
      modifies this`daemonLast, this`reports
      ensures State() == Next(h, old(State()), ReportDecide(i))
      ensures ok <==> DaemonChain.Judge(old(reports[i].last), old(reports[i].ck)).None?
      ensures ok <==> Continues(old(reports[i].last), old(reports[i].ck))
      ensures daemonLast ==
        if ok then Some(DaemonChain.Position(old(reports[i].ck.num), old(reports[i].ck.head))) else old(daemonLast)
    {
      var r := reports[i];
      var problem := None;
      if r.last.Some? {
        if r.ck.num < r.last.value.num {
          problem := Some(DaemonChain.Truncated);
        } else if r.ck.sinceSeq != Some(r.last.value.num) || r.ck.sinceHead != Some(r.last.value.head) {
          problem := Some(DaemonChain.Rewritten);
        }
      }
      ok := problem.None?;
      var notes;
      if ok {
        daemonLast := Some(DaemonChain.Position(r.ck.num, r.ck.head));
        notes := [CheckpointNote(r.ck.num, r.ck.head, true)];
      } else {
        notes := [FAILURE, CheckpointNote(r.ck.num, r.ck.head, false)];
      }
      reports := Without(reports, i) + [Writing(notes, r.actor)];
    }

    /** And each of its appends, under the lock. */
    method WriteReport(i: nat, ts: int)
      requires i < |reports| && reports[i].Writing? && reports[i].notes != []
      modifies this
      ensures State() == Next(h, old(State()), ReportWrite(i, ts))
      ensures |file| == |old(file)| + 1 && file[..|old(file)|] == old(file)
      ensures file[|old(file)|].data == Entry(ts, old(reports[i].actor), old(reports[i].notes[0]), None)
    {
      var r := reports[i];
      reports := OneWritten(reports, i);
      var at, hash := Append(Entry(ts, r.actor, r.notes[0], None));
    }

    /** The whole of `record_daemon_checkpoint` when nothing comes between. */
    method RecordDaemonCheckpoint(ck: DaemonChain.Checkpoint, signed: bool, ts: int, actor: string) returns (ok: bool)
      modifies this
      ensures State() == Reported(h, old(State()), ck, signed, ts, actor)
      ensures ok <==> signed && DaemonChain.Judge(old(daemonLast), ck).None?
      ensures ok <==> signed && Continues(old(daemonLast), ck)
      ensures daemonLast == if ok then Some(DaemonChain.Position(ck.num, ck.head)) else old(daemonLast)
      ensures file[..|old(file)|] == old(file) && |file| == |old(file)| + (if signed && !ok then 2 else 1)
      ensures var n := |old(file)|;
        && (ok ==> file[n].data == Entry(ts, actor, CheckpointNote(ck.num, ck.head, true), None))
        && (!ok ==> file[n].data == Entry(ts, actor, Other("integrity_fail", ""), None))
        && (signed && !ok ==> file[n + 1].data == Entry(ts, actor, CheckpointNote(ck.num, ck.head, false), None))
    {
      ReportedInSteps(h, State(), ck, signed, ts, actor);
      ghost var waiting := reports;
      var n := |reports|;
      ReadReport(ck, signed, actor);
      ok := false;
      if signed {
        assert Without(reports, n) == waiting;
        ok := DecideReport(n);
      }
      WriteReport(n, ts);
      if signed && !ok {
        WriteReport(n, ts);
      }
    }
  }
}
