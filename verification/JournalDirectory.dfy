/** The journal directory as its readers find it: segments of whole frames, the
    last one possibly ending in part of a frame, extended by a writer they do not
    synchronise with. */
module JournalDirectory {
  import opened JournalFormat

  /** A segment file: its 32-byte header, if it has been written, whole frames,
      and whatever a crash or an unfinished write left after them. */
  datatype Segment = Segment(base: nat, begun: bool, frames: seq<Record>, torn: seq<bv8>)

  type Directory = seq<Segment>

  /** Left by a write cut short: a proper prefix of some frame. */
  ghost predicate CutShort(torn: seq<bv8>) {
    exists r :: Writable(r) && torn < Encode(r)
  }

  ghost predicate SoundSegment(s: Segment) {
    && (!s.begun ==> s.frames == [] && s.torn == [])
    && (forall k | 0 <= k < |s.frames| :: Writable(s.frames[k]) && s.frames[k].seqNo == s.base + k)
    && CutShort(s.torn)
  }

  /** Sequences run on from segment to segment; only the last may be empty. */
  ghost predicate Gapless(d: Directory) {
    && (forall i | 0 <= i < |d| :: SoundSegment(d[i]))
    && (forall i | 0 <= i < |d| - 1 :: d[i].frames != [] && d[i + 1].base == d[i].base + |d[i].frames|)
  }

  /** What the writer may have done in between: appended frames, written or cut
      off a tail, begun segments.  No whole frame ever changes or goes away. */
  ghost predicate Grows(d: Directory, d': Directory) {
    && |d| <= |d'|
    && forall i | 0 <= i < |d| ::
         d'[i].base == d[i].base && (d[i].begun ==> d'[i].begun) && d[i].frames <= d'[i].frames
  }

  function Heading(base: nat): (h: seq<bv8>)
    ensures |h| == SEGMENT_HEADER_LEN
  {
    seq(SEGMENT_HEADER_LEN, i => 0)
  }

  function EncodeAll(frames: seq<Record>): seq<bv8> {
    if frames == [] then [] else EncodeAll(frames[..|frames| - 1]) + Encode(frames[|frames| - 1])
  }

  function Bytes(s: Segment): seq<bv8> {
    if s.begun then Heading(s.base) + EncodeAll(s.frames) + s.torn else []
  }

  /** Nothing already in a file has been cut off or rewritten. */
  predicate Steady(d: Directory, d': Directory) {
    |d| <= |d'| && forall i | 0 <= i < |d| :: Bytes(d[i]) <= Bytes(d'[i])
  }

  /** Where frame `k` starts. */
  function Start(frames: seq<Record>, k: nat): nat
    requires k <= |frames|
  {
    SEGMENT_HEADER_LEN + |EncodeAll(frames[..k])|
  }

  lemma GrowsTransitive(a: Directory, b: Directory, c: Directory)
    requires Grows(a, b) && Grows(b, c)
    ensures Grows(a, c)
  {
  }

  lemma {:induction false} EncodeAllConcat(a: seq<Record>, b: seq<Record>)
    ensures EncodeAll(a + b) == EncodeAll(a) + EncodeAll(b)
  {
    hide Encode;
    if b == [] {
      assert a + b == a;
    } else {
      var rest, last := b[..|b| - 1], b[|b| - 1];
      EncodeAllConcat(a, rest);
      EncodeAllLast(b);
      EncodeAllLast(a + b);
      assert (a + b)[..|a + b| - 1] == a + rest;
      hide EncodeAll;
      assert EncodeAll(a) + EncodeAll(rest) + Encode(last) == EncodeAll(a) + (EncodeAll(rest) + Encode(last));
    }
  }

  lemma EncodeAllLast(b: seq<Record>)
    requires b != []
    ensures EncodeAll(b) == EncodeAll(b[..|b| - 1]) + Encode(b[|b| - 1])
  {
    hide Encode;
  }

  lemma StartIsStable(frames: seq<Record>, more: seq<Record>, k: nat)
    requires frames <= more && k <= |frames|
    ensures Start(more, k) == Start(frames, k)
  {
    assert more[..k] == frames[..k];
  }

  /** Frame `k`, where it starts. */
  lemma FrameThere(s: Segment, k: nat)
    requires s.begun && k < |s.frames|
    ensures
      var from, f := Start(s.frames, k), s.frames[k];
      && Start(s.frames, k + 1) == from + |Encode(f)| <= |Bytes(s)|
      && Bytes(s)[from..from + |Encode(f)|] == Encode(f)
  {
    hide Encode;
    var f := s.frames[k];
    var before, upTo, rest := s.frames[..k], s.frames[..k + 1], s.frames[k + 1..];
    assert upTo[..k] == before && upTo[k] == f;
    assert EncodeAll(upTo) == EncodeAll(before) + Encode(f);
    assert s.frames == upTo + rest;
    EncodeAllConcat(upTo, rest);
  }

  /** What follows the last whole frame. */
  lemma TailThere(s: Segment)
    requires s.begun
    ensures
      var from := Start(s.frames, |s.frames|);
      from <= |Bytes(s)| && Bytes(s)[from..] == s.torn
  {
    hide Encode;
    assert s.frames[..|s.frames|] == s.frames;
  }

  /** A whole frame in the directory. */
  ghost predicate Holds(d: Directory, r: Record) {
    exists i, k :: 0 <= i < |d| && 0 <= k < |d[i].frames| && d[i].frames[k] == r
  }

  lemma {:induction false} BasesAscend(d: Directory, i: nat, j: nat)
    requires Gapless(d) && i < j < |d|
    ensures d[i].base + |d[i].frames| <= d[j].base
  {
    if i + 1 < j { BasesAscend(d, i, j - 1); }
  }

  lemma SequenceIs(d: Directory, i: nat, k: nat)
    requires Gapless(d) && i < |d| && k < |d[i].frames|
    ensures d[i].frames[k].seqNo == d[i].base + k
  {
    assert SoundSegment(d[i]);
  }

  /** In a gapless log a sequence names one record. */
  lemma SequenceNamesOne(d: Directory, r: Record, q: Record)
    requires Gapless(d) && Holds(d, r) && Holds(d, q) && r.seqNo == q.seqNo
    ensures r == q
  {
    var i: nat, k: nat :| i < |d| && k < |d[i].frames| && d[i].frames[k] == r;
    var j: nat, m: nat :| j < |d| && m < |d[j].frames| && d[j].frames[m] == q;
    hide Gapless, Holds;
    SequenceIs(d, i, k);
    SequenceIs(d, j, m);
    OnePlace(d, i, k, j, m);
  }

  lemma OnePlace(d: Directory, i: nat, k: nat, j: nat, m: nat)
    requires Gapless(d) && i < |d| && k < |d[i].frames| && j < |d| && m < |d[j].frames|
    requires d[i].base + k == d[j].base + m
    ensures i == j && k == m
  {
    hide Gapless;
    if i < j { BasesAscend(d, i, j); }
    if j < i { BasesAscend(d, j, i); }
  }

  lemma HeldStays(d: Directory, d': Directory, r: Record)
    requires Grows(d, d') && Holds(d, r)
    ensures Holds(d', r)
  {
    var i: nat, k: nat :| i < |d| && k < |d[i].frames| && d[i].frames[k] == r;
    assert d'[i].frames[k] == r;
  }
}
