/** A reader that follows the journal while the writer extends it.

    Every file operation first lets the writer do whatever it will: the
    directory's future is an arbitrary chain of states, and a look at the disk
    may step along it.  Only between the two reads of one frame is nothing cut
    off the file; a checksum, not an argument, stands guard over that. */
module Tailing {
  import opened Common
  import opened JournalFormat
  import opened JournalDirectory

  ghost predicate Chained(now: Directory, future: seq<Directory>)
    decreases |future|
  {
    Gapless(now) && (future != [] ==> Grows(now, future[0]) && Chained(future[0], future[1..]))
  }

  function Final(now: Directory, future: seq<Directory>): Directory {
    if future == [] then now else future[|future| - 1]
  }

  lemma {:induction false} FinalGrows(now: Directory, future: seq<Directory>)
    requires Chained(now, future)
    ensures Grows(now, Final(now, future)) && Gapless(Final(now, future))
    decreases |future|
  {
    if future != [] {
      FinalGrows(future[0], future[1..]);
      GrowsTransitive(now, future[0], Final(now, future));
    }
  }

  /** A segment by its base sequence, and the file it names. */
  datatype SegmentRef = SegmentRef(baseSeq: nat, place: nat)

  function Listing(d: Directory): (found: seq<SegmentRef>)
    ensures |found| == |d| && forall i | 0 <= i < |d| :: found[i] == SegmentRef(d[i].base, i)
  {
    seq(|d|, i requires 0 <= i < |d| => SegmentRef(d[i].base, i))
  }

  /** The disk, with the writer at work on it. */
  class Disk {
    var now: Directory
    ghost var end: Directory
    var future: seq<Directory>

    ghost predicate Valid()
      reads this
    {
      Chained(now, future) && end == Final(now, future)
    }

    constructor (now: Directory, future: seq<Directory>)
      requires Chained(now, future)
      ensures Valid() && this.now == now && this.future == future
    {
      this.now, this.future := now, future;
      this.end := Final(now, future);
    }

    /** Let the writer work; when `steady`, only if it cuts nothing off. */
    method Pass(steady: bool)
      requires Valid()
      modifies this`now, this`future
      ensures Valid() && Grows(old(now), now) && end == old(end)
      ensures steady ==> Steady(old(now), now)
    {
      if future != [] && (!steady || Steady(now, future[0])) {
        now, future := future[0], future[1..];
      }
    }

    method ListSegments() returns (found: seq<SegmentRef>)
      requires Valid()
      modifies this`now, this`future
      ensures Valid() && Grows(old(now), now)
      ensures found == Listing(now)
    {
      Pass(false);
      found := Listing(now);
    }

    /** Open a segment and read its header. */
    method ReadHeading(place: nat) returns (ok: bool)
      requires Valid() && place < |now|
      modifies this`now, this`future
      ensures Valid() && Grows(old(now), now) && ok == now[place].begun
    {
      Pass(false);
      ok := now[place].begun;
    }

    method Size(place: nat) returns (size: nat)
      requires Valid() && place < |now|
      modifies this`now, this`future
      ensures Valid() && Grows(old(now), now) && size == |Bytes(now[place])|
    {
      Pass(false);
      size := |Bytes(now[place])|;
    }

    /** The bytes asked for, or nothing if the file is too short. */
    method ReadAt(place: nat, offset: nat, n: nat, steady: bool) returns (read: Option<seq<bv8>>)
      requires Valid() && place < |now|
      modifies this`now, this`future
      ensures Valid() && Grows(old(now), now) && (steady ==> Steady(old(now), now))
      ensures read == if offset + n <= |Bytes(now[place])| then Some(Bytes(now[place])[offset..offset + n]) else None
    {
      Pass(steady);
      var b := Bytes(now[place]);
      read := if offset + n <= |b| then Some(b[offset..offset + n]) else None;
    }
  }

  datatype TailError = SequenceGap(expected: nat, found: nat) | CorruptFrame | ShortHeading

  datatype Outcome = Got(header: Header, payload: array<bv8>) | CaughtUp | Failed(error: TailError)

  /** `offset` is where frame `at` of the segment starts, or will. */
  ghost predicate Positioned(d: Directory, place: nat, offset: nat, at: nat) {
    place < |d| && d[place].begun && at <= |d[place].frames| && offset == Start(d[place].frames, at)
  }

  ghost predicate Listed(d: Directory, segments: seq<SegmentRef>) {
    |segments| <= |d| && forall i | 0 <= i < |segments| :: segments[i] == SegmentRef(d[i].base, i)
  }

  lemma PositionStays(d: Directory, d': Directory, place: nat, offset: nat, at: nat)
    requires Grows(d, d') && Positioned(d, place, offset, at)
    ensures Positioned(d', place, offset, at)
  {
    StartIsStable(d[place].frames, d'[place].frames, at);
  }

  lemma ListingStays(d: Directory, d': Directory, segments: seq<SegmentRef>)
    requires Grows(d, d') && Listed(d, segments)
    ensures Listed(d', segments)
  {
  }

  lemma SliceOfSlice(b: seq<bv8>, from: nat, e: seq<bv8>, lo: nat, hi: nat)
    requires from + |e| <= |b| && b[from..from + |e|] == e && lo <= hi <= |e|
    ensures b[from + lo..from + hi] == e[lo..hi]
  {
    forall k | 0 <= k < hi - lo ensures b[from + lo..from + hi][k] == e[lo..hi][k] {
      assert b[from..from + |e|][lo + k] == b[from + lo + k];
    }
  }

  /** A whole frame, as its two reads find it. */
  lemma FrameBytes(s: Segment, at: nat)
    requires s.begun && at < |s.frames|
    ensures
      var r, from := s.frames[at], Start(s.frames, at);
      && from + FRAME_HEADER_LEN + |r.payload| <= |Bytes(s)|
      && Bytes(s)[from..from + FRAME_HEADER_LEN] == Prefix(r)
      && Bytes(s)[from + FRAME_HEADER_LEN..from + FRAME_HEADER_LEN + |r.payload|] == r.payload
  {
    hide Prefix, Bytes, EncodeAll;
    FrameThere(s, at);
    var r := s.frames[at];
    SliceOfSlice(Bytes(s), Start(s.frames, at), Encode(r), 0, FRAME_HEADER_LEN);
    SliceOfSlice(Bytes(s), Start(s.frames, at), Encode(r), FRAME_HEADER_LEN, |Encode(r)|);
  }

  /** Part of a frame, if there is as much as a header: never all of it. */
  lemma TornBytes(s: Segment) returns (r: Record)
    requires SoundSegment(s) && s.begun && Start(s.frames, |s.frames|) + FRAME_HEADER_LEN <= |Bytes(s)|
    ensures
      var from := Start(s.frames, |s.frames|);
      && Writable(r) && Bytes(s)[from..from + FRAME_HEADER_LEN] == Prefix(r)
      && |Bytes(s)| < from + FRAME_HEADER_LEN + |r.payload|
  {
    hide Prefix, Bytes, EncodeAll;
    TailThere(s);
    r :| Writable(r) && s.torn < Encode(r);
    assert s.torn[..FRAME_HEADER_LEN] == Encode(r)[..FRAME_HEADER_LEN] == Prefix(r);
  }

  /** A record's length is what its header bytes say. */
  lemma LengthOf(r: Record)
    requires Writable(r)
    ensures |Prefix(r)| == FRAME_HEADER_LEN && LengthIn(Prefix(r)) == |r.payload|
  {
    FrameRoundTrip(r);
  }

  /** The header bytes at a frame boundary belong to some frame: the whole one
      there, or one of which only part is there. */
  lemma HeaderBytesAt(s: Segment, at: nat) returns (r: Record)
    requires SoundSegment(s) && s.begun && at <= |s.frames|
    requires Start(s.frames, at) + FRAME_HEADER_LEN <= |Bytes(s)|
    ensures Writable(r) && (at < |s.frames| ==> r == s.frames[at])
    ensures Bytes(s)[Start(s.frames, at)..Start(s.frames, at) + FRAME_HEADER_LEN] == Prefix(r)
    ensures |Prefix(r)| == FRAME_HEADER_LEN && LengthIn(Prefix(r)) == |r.payload|
    ensures at < |s.frames| <==> Start(s.frames, at) + FRAME_HEADER_LEN + |r.payload| <= |Bytes(s)|
  {
    hide Prefix, Bytes, EncodeAll, LengthIn;
    if at < |s.frames| {
      FrameBytes(s, at);
      r := s.frames[at];
    } else {
      r := TornBytes(s);
    }
    LengthOf(r);
  }

  /** The payload bytes that follow those header bytes, if they are all there by
      then, belong to a whole frame, and the header is its header. */
  lemma PayloadBytesAt(s: Segment, s': Segment, at: nat, length: nat)
    requires SoundSegment(s) && SoundSegment(s') && s.begun && s'.begun && at <= |s.frames| && s.frames <= s'.frames
    requires Bytes(s) <= Bytes(s') && Start(s.frames, at) + FRAME_HEADER_LEN <= |Bytes(s)|
    requires
      var from := Start(s.frames, at);
      && length == LengthIn(Bytes(s)[from..from + FRAME_HEADER_LEN])
      && from + FRAME_HEADER_LEN + length <= |Bytes(s')|
    ensures at < |s'.frames|
    ensures
      var from, r := Start(s.frames, at), s'.frames[at];
      && Bytes(s')[from + FRAME_HEADER_LEN..from + FRAME_HEADER_LEN + length] == r.payload
      && DecodeFrameHeader(Bytes(s)[from..from + FRAME_HEADER_LEN], r.payload) == Ok(HeaderOf(r))
  {
    hide Prefix, Bytes, EncodeAll, LengthIn, DecodeFrameHeader;
    var from := Start(s.frames, at);
    StartIsStable(s.frames, s'.frames, at);
    assert Bytes(s)[from..from + FRAME_HEADER_LEN] == Bytes(s')[from..from + FRAME_HEADER_LEN];
    var r := HeaderBytesAt(s', at);
    FrameBytes(s', at);
    FrameRoundTrip(r);
    assert Encode(r)[..FRAME_HEADER_LEN] == Prefix(r);
  }

  /** The two reads of a frame, with anything done to the file in between: a frame
      that was whole is read as it is; of one that was torn, whatever has since
      been written in its place is refused unless it has the torn one's checksum. */
  lemma ReadsAcrossACut(s: Segment, s': Segment, at: nat, payload: seq<bv8>) returns (r: Record)
    requires SoundSegment(s) && SoundSegment(s') && s.begun && s'.begun && at <= |s.frames| && s.frames <= s'.frames
    requires Start(s.frames, at) + FRAME_HEADER_LEN <= |Bytes(s)|
    requires
      var from := Start(s.frames, at);
      && |payload| == LengthIn(Bytes(s)[from..from + FRAME_HEADER_LEN])
      && from + FRAME_HEADER_LEN + |payload| <= |Bytes(s')|
      && payload == Bytes(s')[from + FRAME_HEADER_LEN..from + FRAME_HEADER_LEN + |payload|]
    ensures Writable(r) && Bytes(s)[Start(s.frames, at)..Start(s.frames, at) + FRAME_HEADER_LEN] == Prefix(r)
    ensures at < |s.frames| ==> r == s'.frames[at] && payload == r.payload
    ensures at == |s.frames| ==> s.torn < Encode(r)
    ensures DecodeFrameHeader(Prefix(r), payload) ==
              if Seal(Stamp(r), payload) == Seal(Stamp(r), r.payload) then Ok(HeaderOf(r)) else Corrupt
  {
    hide Prefix, Bytes, EncodeAll, LengthIn, DecodeFrameHeader, Seal, Stamp, Encode;
    if at < |s.frames| {
      r := HeaderBytesAt(s, at);
      StartIsStable(s.frames, s'.frames, at);
      FrameBytes(s', at);
    } else {
      r := TornFrame(s);
    }
    LengthOf(r);
    SealDecides(r, payload);
  }

  /** The frame a torn tail is part of, by its header. */
  lemma TornFrame(s: Segment) returns (r: Record)
    requires SoundSegment(s) && s.begun && Start(s.frames, |s.frames|) + FRAME_HEADER_LEN <= |Bytes(s)|
    ensures
      var from := Start(s.frames, |s.frames|);
      Writable(r) && Bytes(s)[from..from + FRAME_HEADER_LEN] == Prefix(r) && s.torn < Encode(r)
  {
    hide Prefix, Bytes, EncodeAll;
    TailThere(s);
    r :| Writable(r) && s.torn < Encode(r);
    assert s.torn[..FRAME_HEADER_LEN] == Encode(r)[..FRAME_HEADER_LEN] == Prefix(r);
  }

  /** What was true of a position stays true as the journal grows. */
  lemma Follows(d: Directory, d': Directory, future: seq<Directory>, segments: seq<SegmentRef>, place: nat,
                offset: nat, at: nat)
    requires Grows(d, d') && Chained(d', future) && Listed(d, segments) && Positioned(d, place, offset, at)
    ensures Listed(d', segments) && Positioned(d', place, offset, at) && Gapless(d') && SoundSegment(d'[place])
    ensures d[place].frames <= d'[place].frames
  {
    PositionStays(d, d', place, offset, at);
  }

  class Tailer {
    const disk: Disk
    var segments: seq<SegmentRef>
    var index: nat
    var file: Option<nat>
    var offset: nat
    var nextSeq: nat
    /** The payload buffer, reused from read to read, and how much of it is in use. */
    var buffer: array<bv8>
    var used: nat
    /** Whole frames of the segment that lie before the offset. */
    ghost var at: nat

    ghost predicate Valid()
      reads this, disk
    {
      && disk.Valid() && used <= buffer.Length
      && Listed(disk.now, segments)
      && (offset != 0 ==> index < |segments| && Positioned(disk.now, index, offset, at))
      && (file.Some? ==> offset != 0 && file.value == index)
    }

    /** The record the last successful read found. */
    ghost predicate JustRead(header: Header)
      reads this, disk, buffer
    {
      && Valid() && file.Some? && at < |disk.now[index].frames|
      && header == HeaderOf(disk.now[index].frames[at])
      && buffer[..used] == disk.now[index].frames[at].payload
    }

    /** Whole frames of the segment already passed. */
    ghost function Here(): nat
      reads this
    {
      if offset == 0 then 0 else at
    }

    /** A whole frame stands where the current segment will be read next. */
    ghost predicate Waiting()
      reads this, disk
    {
      index < |segments| && index < |disk.now| && Here() < |disk.now[index].frames|
    }

    /** The sequence of that frame. */
    ghost function Found(): nat
      requires Waiting()
      reads this, disk
    {
      disk.now[index].frames[Here()].seqNo
    }

    /** The sequence expected is that of the place where the reader stands. */
    ghost predicate InStep()
      reads this, disk
    {
      && index < |segments| && index < |disk.now| && Here() <= |disk.now[index].frames|
      && nextSeq == disk.now[index].base + Here()
    }

    /** The record expected is in the log, here or in a later segment. */
    ghost predicate Ahead()
      reads this, disk
    {
      InStep() && nextSeq < SequenceEnd(disk.now)
    }

    /** Why there was no record: no heading yet where one was looked for, the frame
        there has another sequence, or the last segment listed has been read. */
    ghost predicate Because(outcome: Outcome)
      reads this, disk
    {
      match outcome
      case Got(_, _) => true
      case Failed(ShortHeading) => file.None? && index < |segments| && index < |disk.now| && !disk.now[index].begun
      case Failed(SequenceGap(expected, found)) =>
        file.Some? && Waiting() && expected == nextSeq != found == Found()
      case Failed(CorruptFrame) => false
      case CaughtUp => segments == Listing(disk.now) && index + 1 >= |segments|
    }

    constructor (disk: Disk, segments: seq<SegmentRef>, after: nat)
      requires disk.Valid() && Listed(disk.now, segments)
      ensures Valid() && fresh(buffer) && this.disk == disk && nextSeq == after + 1
      ensures this.segments == segments && index == 0 && file == None && offset == 0
    {
      this.disk, this.segments, this.index, this.file, this.offset := disk, segments, 0, None, 0;
      this.nextSeq, this.buffer, this.used, this.at := after + 1, new bv8[1024], 0, 0;
    }

    /** One frame, if all of it is there yet; never a guess at the next one. */
    method ReadFrameAt(size: nat) returns (header: Option<Header>, error: Option<TailError>)
      requires Valid() && file.Some?
      modifies this`buffer, this`used, disk, buffer
      ensures Valid() && Grows(old(disk.now), disk.now) && disk.end == old(disk.end)
      ensures buffer == old(buffer) || fresh(buffer)
      ensures error == None
      ensures header.Some? ==> JustRead(header.value) && offset + FRAME_HEADER_LEN + header.value.len <= size
      ensures WholeWithin(old(disk.now), index, at, size) ==> header.Some?
    {
      hide Encode, EncodeAll, DecodeFrameHeader, Prefix, Chained, Start, SoundSegment, Gapless, Grows, Listed,
           Positioned, HeadRead;
      ghost var d := disk.now;
      GrowsRefl(d);
      ChainedIsGapless(d, disk.future);
      WholeReads(d, d, index, offset, at);
      if size < offset + FRAME_HEADER_LEN {
        return None, None;
      }
      var head := ReadHead();
      if head.None? {
        return None, None;
      }
      var length := LengthIn(head.value);
      if length > MAX_PAYLOAD {
        return None, Some(CorruptFrame);
      }
      if offset + FRAME_HEADER_LEN + length > size {
        return None, None;
      }
      ghost var d' := disk.now;
      header, error := ReadPayload(head.value, length);
      GrowsTransitive(d, d', disk.now);
    }

    method ReadHead() returns (head: Option<seq<bv8>>)
      requires Valid() && file.Some?
      modifies disk
      ensures Valid() && Grows(old(disk.now), disk.now) && disk.end == old(disk.end)
      ensures head.Some? ==> HeadRead(disk.now, index, offset, at, head.value)
      ensures head.Some? ==> |head.value| == FRAME_HEADER_LEN && LengthIn(head.value) <= MAX_PAYLOAD
      ensures forall size :: WholeWithin(old(disk.now), index, at, size) ==>
                head.Some? && offset + FRAME_HEADER_LEN + LengthIn(head.value) <= size
                    && WholeWithin(disk.now, index, at, size)
    {
      hide Bytes, Encode, EncodeAll, LengthIn, DecodeFrameHeader, Prefix, Start, SoundSegment, Gapless, Grows, Listed;
      ghost var d := disk.now;
      PlaceOf(d, index, offset, at);
      head := disk.ReadAt(index, offset, FRAME_HEADER_LEN, false);
      Follows(d, disk.now, disk.future, segments, index, offset, at);
      WholeReads(d, disk.now, index, offset, at);
      if head.Some? { ghost var r := HeaderBytesAt(disk.now[index], at); }
    }

    method ReadPayload(head: seq<bv8>, length: nat) returns (header: Option<Header>, error: Option<TailError>)
      requires Valid() && file.Some? && HeadRead(disk.now, index, offset, at, head)
      requires |head| == FRAME_HEADER_LEN && length == LengthIn(head)
      modifies this`buffer, this`used, disk, buffer
      ensures Valid() && Grows(old(disk.now), disk.now) && disk.end == old(disk.end)
      ensures buffer == old(buffer) || fresh(buffer)
      ensures error == None && (header.Some? ==> JustRead(header.value) && header.value.len == length)
      ensures forall size :: WholeWithin(old(disk.now), index, at, size) ==> header.Some?
    {
      hide Bytes, Encode, EncodeAll, LengthIn, DecodeFrameHeader, Prefix, Chained, Start, SoundSegment, Gapless,
           Grows, Listed, Positioned, HeadRead;
      ghost var d := disk.now;
      PlaceOf(d, index, offset, at);
      ChainedIsGapless(d, disk.future);
      Resize(length);
      var payload := disk.ReadAt(index, offset + FRAME_HEADER_LEN, length, true);
      Follows(d, disk.now, disk.future, segments, index, offset, at);
      WholeReads(d, disk.now, index, offset, at);
      WholeLength(d, index, offset, at, head, length);
      if payload.None? {
        return None, None;
      }
      FrameIsWhole(d, disk.now, index, offset, at, head, length);
      Fill(payload.value);
      var decoded := DecodeFrameHeader(head, buffer[..used]);
      if decoded.Corrupt? {
        return None, Some(CorruptFrame);
      }
      return Some(decoded.header), None;
    }

    /** Use `length` bytes of the buffer, a bigger one if need be. */
    method Resize(length: nat)
      modifies this`buffer, this`used
      ensures used == length <= buffer.Length && (buffer == old(buffer) || fresh(buffer))
    {
      if buffer.Length < length {
        buffer := new bv8[length];
      }
      used := length;
    }

    method Fill(bytes: seq<bv8>)
      requires used == |bytes| <= buffer.Length
      modifies buffer
      ensures buffer[..used] == bytes
    {
      forall i | 0 <= i < |bytes| {
        buffer[i] := bytes[i];
      }
    }

    /** Open the current segment, at its first frame if it is new to us. */
    method OpenCurrent() returns (isOpen: bool, error: Option<TailError>)
      requires Valid() && file.None?
      modifies this`file, this`offset, this`at, disk
      ensures Valid() && Grows(old(disk.now), disk.now) && disk.end == old(disk.end)
      ensures isOpen && index < |old(disk.now)| ==>
          index < |disk.now| && old(disk.now)[index].base == disk.now[index].base
      ensures isOpen ==> error.None? && file.Some? && index < |segments| && Here() == at == old(Here())
      ensures !isOpen ==> file.None? && (error.None? ==> index >= |segments|)
      ensures error.Some? ==> error.value == ShortHeading && Because(Failed(ShortHeading))
      ensures index < |segments| && index < |old(disk.now)| && old(disk.now)[index].begun ==> isOpen
    {
      hide Chained, SoundSegment, Gapless, Start, Bytes;
      GrowsRefl(disk.now);
      if index >= |segments| {
        return false, None;
      }
      ghost var d := disk.now;
      var ok := disk.ReadHeading(segments[index].place);
      ListingStays(d, disk.now, segments);
      if offset != 0 { PositionStays(d, disk.now, index, offset, at); }
      if !ok {
        return false, Some(ShortHeading);
      }
      if offset == 0 {
        offset := SEGMENT_HEADER_LEN;
        at := 0;
        FirstFrame(disk.now[index].frames);
      }
      file := Some(index);
      return true, None;
    }

    /** Leave this segment for the next one listed. */
    method Advance()
      requires Valid()
      modifies this`file, this`index, this`offset, this`at
      ensures Valid() && file.None? && index == old(index) + 1 && offset == 0 && at == 0
    {
      file := None;
      index := index + 1;
      offset, at := 0, 0;
    }

    /** List the directory again; step on if a segment appeared.  This can step
        over segments; the sequence check is what makes that an error. */
    method Rescan() returns (grew: bool)
      requires Valid()
      modifies this`segments, this`file, this`index, this`offset, this`at, disk
      ensures Valid() && Grows(old(disk.now), disk.now) && disk.end == old(disk.end)
      ensures segments == Listing(disk.now)
      ensures grew ==> index == old(index) + 1 < |segments| && file.None? && offset == 0
      ensures !grew ==> |segments| <= |old(segments)| || index + 1 >= |segments|
      ensures !grew ==> index == old(index) && file == old(file) && offset == old(offset) && at == old(at)
    {
      hide Chained, SoundSegment, Gapless, Start;
      ghost var d := disk.now;
      var found := disk.ListSegments();
      if offset != 0 { PositionStays(d, disk.now, index, offset, at); }
      grew := |found| > |segments|;
      segments := found;
      if grew && index + 1 < |segments| {
        Advance();
        return true;
      }
      return false;
    }

    /** Hand over the record just read, its payload in an array of its own. */
    method Take(header: Header) returns (outcome: Outcome)
      requires JustRead(header) && header.seqNo == nextSeq
      modifies this`offset, this`at, this`nextSeq
      ensures Valid() && Delivers(disk.now, old(nextSeq), outcome) && nextSeq == old(nextSeq) + 1
      ensures outcome.Got? && fresh(outcome.payload) && at == old(at) + 1 && Here() == at <= |disk.now[index].frames|
    {
      hide Chained, Start, Listed, Positioned, Holds;
      var payload := new bv8[used];
      forall i | 0 <= i < used {
        payload[i] := buffer[i];
      }
      assert payload[..] == buffer[..used];
      PlaceOf(disk.now, index, offset, at);
      FrameRead(disk.now, index, offset, at, header);
      offset := offset + FRAME_HEADER_LEN + header.len;
      at := at + 1;
      nextSeq := header.seqNo + 1;
      return Got(header, payload);
    }

    /** The next record, or that there is none yet. */
    method Next() returns (outcome: Outcome)
      requires Valid()
      modifies this, disk, buffer
      ensures Valid() && Grows(old(disk.now), disk.now) && disk.end == old(disk.end)
      ensures buffer == old(buffer) || fresh(buffer)
      ensures Delivers(disk.now, old(nextSeq), outcome)
      ensures nextSeq == if outcome.Got? then old(nextSeq) + 1 else old(nextSeq)
      ensures outcome.Got? ==> fresh(outcome.payload) && outcome.payload != buffer
      ensures old(Waiting()) ==> Answers(outcome, old(nextSeq), old(Found()))
      ensures old(Ahead()) ==> outcome.Got? && InStep()
      ensures Because(outcome)
    {
      hide Chained, Grows, Listed, Positioned, Delivers, SequenceEnd, InStep, Waiting, Because, Found;
      ghost var d := disk.now;
      GrowsRefl(d);
      while true
        invariant Valid() && Grows(d, disk.now) && disk.end == old(disk.end)
        invariant buffer == old(buffer) || fresh(buffer)
        invariant nextSeq == old(nextSeq)
        invariant old(Waiting()) ==> Waiting() && Found() == old(Found())
        invariant old(Ahead()) ==> Ahead()
        decreases |disk.end| - index
      {
        ghost var d' := disk.now;
        var looked := Look();
        GrowsTransitive(d, d', disk.now);
        EndBounds(disk.now, disk.future, segments);
        if looked.Some? {
          return looked.value;
        }
      }
    }

    /** Everything available now. */
    method Drain() returns (out: seq<Outcome>, error: Option<TailError>)
      requires Valid()
      modifies this, disk, buffer
      ensures Valid() && Grows(old(disk.now), disk.now)
      ensures Consecutive(disk.now, old(nextSeq), out)
      ensures nextSeq == old(nextSeq) + |out|
      ensures old(InStep()) ==> SequenceEnd(old(disk.now)) <= nextSeq
      ensures Because(if error.None? then CaughtUp else Failed(error.value))
    {
      hide Chained, Grows, Listed, Positioned, Delivers, Holds, SequenceEnd, Because, InStep, Gapless;
      out, error := [], None;
      ghost var d := disk.now;
      ChainedIsGapless(d, disk.future);
      GrowsRefl(d);
      while true
        invariant Valid() && Grows(d, disk.now) && disk.end == old(disk.end)
        invariant buffer == old(buffer) || fresh(buffer)
        invariant nextSeq == old(nextSeq) + |out|
        invariant forall i | 0 <= i < |out| :: out[i].Got? && fresh(out[i].payload) && out[i].payload != buffer
        invariant Consecutive(disk.now, old(nextSeq), out)
        invariant old(InStep()) ==> InStep() || SequenceEnd(d) <= nextSeq
        decreases SequenceEnd(disk.end) - nextSeq
      {
        ghost var d', wanted := disk.now, nextSeq;
        EndGrows(d, d', disk.future);
        var outcome := Next();
        GrowsTransitive(d, d', disk.now);
        forall i | 0 <= i < |out| ensures Delivers(disk.now, old(nextSeq) + i, out[i]) {
          DeliveryStands(d', disk.now, old(nextSeq) + i, out[i]);
        }
        match outcome {
          case Failed(e) => return out, Some(e);
          case CaughtUp => return;
          case Got(_, _) =>
            out := out + [outcome];
            BeforeTheEnd(disk.now, disk.future, wanted, outcome);
        }
      }
    }

    /** Find the segment that should hold what is wanted, and the frame in it.
        The sequence wanted moves only when the log begins after it: then the
        reader starts at the first frame there is, and says nothing. */
    method SeekToStart() returns (error: Option<TailError>)
      requires Valid() && index == 0 && file.None? && offset == 0
      modifies this, disk, buffer
      ensures Valid() && Grows(old(disk.now), disk.now) && disk.end == old(disk.end)
      ensures error.Some? ==> error.value == ShortHeading
      ensures segments == old(segments) && (buffer == old(buffer) || fresh(buffer))
      ensures nextSeq != old(nextSeq) ==> BeginsAfter(segments, old(nextSeq)) && nextSeq == segments[0].baseSeq
      ensures error.None? && BeginsAfter(segments, old(nextSeq)) && HasFrames(old(disk.now), 0) ==>
                nextSeq == segments[0].baseSeq
      ensures InLog(old(disk.now), |segments|, old(nextSeq)) ==> error.None?
      ensures UpToEnd(old(disk.now), |segments|, old(nextSeq)) && error.None? ==> InStep()
      ensures error.Some? ==> exists place: nat :: place < |disk.now| && !disk.now[place].begun
    {
      hide Chained, Start, Grows, Listed, Positioned, WholeWithin, SoundSegment, Gapless, Bytes, SequenceEnd, InStep;
      GrowsRefl(disk.now);
      if |segments| == 0 {
        return None;
      }
      index := LastAtOrBelow();
      ghost var d := disk.now;
      FoundInLog(d, disk.future, segments, index, nextSeq);
      var isOpen, failed := OpenCurrent();
      if failed.Some? || !isOpen {
        return failed;
      }
      ghost var d1 := disk.now;
      PlaceOf(d1, index, offset, at);
      var size := disk.Size(index);
      Moved(d, d1, disk.now, segments, index, offset, at);
      SizeCovers(d1, disk.now, index, offset, at, size);
      if HasFrames(d, index) { FramesStay(d, d1, index); }
      ghost var d2 := disk.now;
      SizeIsAll(d, d2, index, nextSeq, size);
      error := Walk(size);
      GrowsTransitive(d, d2, disk.now);
    }

    method LastAtOrBelow() returns (last: nat)
      requires |segments| > 0
      ensures last < |segments|
      ensures segments[last].baseSeq <= nextSeq || (last == 0 && segments[0].baseSeq > nextSeq)
      ensures forall i | last < i < |segments| :: segments[i].baseSeq > nextSeq
    {
      last := 0;
      for i := 0 to |segments|
        invariant last < |segments|
        invariant segments[last].baseSeq <= nextSeq || (last == 0 && (i > 0 ==> segments[0].baseSeq > nextSeq))
        invariant forall j | last < j < i :: segments[j].baseSeq > nextSeq
      {
        if segments[i].baseSeq <= nextSeq {
          last := i;
        }
      }
    }

    /** Walk forward inside the segment to the frame wanted, or to its end. */
    method Walk(size: nat) returns (error: Option<TailError>)
      requires Valid() && file.Some? && at == 0
      requires segments[index].baseSeq <= nextSeq || index == 0
      modifies this`offset, this`at, this`nextSeq, this`buffer, this`used, disk, buffer
      ensures Valid() && Grows(old(disk.now), disk.now) && disk.end == old(disk.end) && error == None
      ensures buffer == old(buffer) || fresh(buffer)
      ensures nextSeq == old(nextSeq) || (nextSeq == segments[index].baseSeq > old(nextSeq))
      ensures segments[index].baseSeq > old(nextSeq) && WholeWithin(old(disk.now), index, 0, size) ==>
                nextSeq == segments[index].baseSeq
      ensures AllWithin(old(disk.now), index, old(nextSeq), size) ==> InStep()
    {
      hide Chained, Start, Grows, Listed, Positioned, WholeWithin, AllWithin, Gapless, SoundSegment, Bytes, Encode,
           EncodeAll, HeadRead;
      ghost var d, base := disk.now, segments[index].baseSeq;
      ghost var wanted := nextSeq;
      BaseOf(d, segments, index);
      GrowsRefl(d);
      while true
        invariant Valid() && file.Some? && Grows(d, disk.now) && disk.end == old(disk.end)
        invariant buffer == old(buffer) || fresh(buffer)
        invariant nextSeq == old(nextSeq) && segments == old(segments) && index == old(index)
        invariant if base <= nextSeq then base + at <= nextSeq else at == 0 && disk.now == d
        decreases size - offset
      {
        ghost var d1 := disk.now;
        ChainedIsGapless(d1, disk.future);
        NextIsWhole(d, d1, index, at, wanted, size);
        var header, failed := ReadFrameAt(size);
        GrowsTransitive(d, d1, disk.now);
        BaseOf(disk.now, segments, index);
        if failed.Some? || header.None? {
          EndsHere(d, disk.now, index, offset, at, wanted, size);
          return failed;
        }
        Numbered(disk.now, disk.future, segments, index, at);
        if header.value.seqNo >= nextSeq {
          nextSeq := header.value.seqNo;
          PlaceOf(disk.now, index, offset, at);
          return None;
        }
        FrameRead(disk.now, index, offset, at, header.value);
        offset := offset + FRAME_HEADER_LEN + header.value.len;
        at := at + 1;
      }
    }

    /** Once around the loop: an answer, or one segment further on. */
    method Look() returns (answer: Option<Outcome>)
      requires Valid()
      modifies this, disk, buffer
      ensures Valid() && Grows(old(disk.now), disk.now) && disk.end == old(disk.end)
      ensures buffer == old(buffer) || fresh(buffer)
      ensures answer.Some? ==> Delivers(disk.now, old(nextSeq), answer.value)
      ensures nextSeq == if answer.Some? && answer.value.Got? then old(nextSeq) + 1 else old(nextSeq)
      ensures answer.Some? && answer.value.Got? ==> fresh(answer.value.payload) && answer.value.payload != buffer
      ensures answer.None? ==> index == old(index) + 1 <= |segments|
      ensures old(Waiting()) ==> answer.Some? && Answers(answer.value, old(nextSeq), old(Found()))
      ensures old(Ahead()) ==> if answer.None? then Ahead() else answer.value.Got? && InStep()
      ensures answer.Some? ==> Because(answer.value)
    {
      hide Chained, Start, Grows, Listed, Positioned, WholeWithin, Delivers, Because, Gapless, Waiting, Ahead, InStep,
           Found, Here;
      ghost var d := disk.now;
      var ready, early := MakeReady();
      if !ready {
        return early;
      }
      ghost var d1 := disk.now;
      answer := LookOpen();
      GrowsTransitive(d, d1, disk.now);
    }

    /** The open segment: how long it is, and what stands in it. */
    method LookOpen() returns (answer: Option<Outcome>)
      requires Valid() && file.Some?
      modifies this, disk, buffer
      ensures Valid() && Grows(old(disk.now), disk.now) && disk.end == old(disk.end)
      ensures buffer == old(buffer) || fresh(buffer)
      ensures answer.Some? ==> Delivers(disk.now, old(nextSeq), answer.value)
      ensures nextSeq == if answer.Some? && answer.value.Got? then old(nextSeq) + 1 else old(nextSeq)
      ensures answer.Some? && answer.value.Got? ==> fresh(answer.value.payload) && answer.value.payload != buffer
      ensures answer.None? ==> index == old(index) + 1 <= |segments|
      ensures old(Waiting()) ==> answer.Some? && Answers(answer.value, old(nextSeq), old(Found()))
      ensures old(Ahead()) ==> if answer.None? then Ahead() else answer.value.Got? && InStep()
      ensures answer.Some? ==> Because(answer.value)
    {
      hide Chained, Start, Grows, Listed, Positioned, WholeWithin, Delivers, Because, SequenceEnd, Gapless;
      ghost var d := disk.now;
      PlaceOf(d, index, offset, at);
      ChainedIsGapless(d, disk.future);
      if InStep() { PlaceOfNext(d, index, at, nextSeq); }
      var size := disk.Size(index);
      ghost var d1 := disk.now;
      BasesAre(d, d1);
      Moved(d, d, d1, segments, index, offset, at) by { GrowsRefl(d); }
      SizeCovers(d, d1, index, offset, at, size);
      FullIsFull(d, d1, disk.future, index);
      FrameStays(d, d1, index, at);
      answer := LookHere(size);
      GrowsTransitive(d, d1, disk.now);
      BasesAre(d, disk.now);
      EndGrows(d, disk.now, disk.future);
    }

    /** Have a segment open, or find out that there is none to open. */
    method MakeReady() returns (ready: bool, early: Option<Outcome>)
      requires Valid()
      modifies this`segments, this`file, this`index, this`offset, this`at, disk
      ensures Valid() && Grows(old(disk.now), disk.now) && disk.end == old(disk.end)
      ensures ready ==> file.Some? && index == old(index) < |segments| && Here() == at == old(Here())
      ensures segments == old(segments) || !ready
      ensures !ready && early.Some? ==> !early.value.Got? && Delivers(disk.now, nextSeq, early.value)
      ensures !ready && early.Some? ==> Because(early.value)
      ensures old(Waiting()) ==> ready && Waiting() && Found() == old(Found())
      ensures old(Ahead()) ==> ready && Ahead()
      ensures !ready && early.None? ==> index == old(index) + 1 <= |segments|
      ensures old(file).Some? ==> ready && disk.now == old(disk.now) && offset == old(offset) && at == old(at)
    {
      hide Chained, Start, Grows, Listed, Positioned, SequenceEnd, Gapless;
      ghost var d := disk.now;
      GrowsRefl(d);
      if file.Some? {
        return true, None;
      }
      ChainedIsGapless(d, disk.future);
      if index < |d| {
        FramesMeanBegun(d, index);
        if InStep() { PlaceOfNext(d, index, Here(), nextSeq); }
      }
      var isOpen, error := OpenCurrent();
      BasesAre(d, disk.now);
      EndGrows(d, disk.now, disk.future);
      if error.Some? {
        return false, Some(Failed(error.value));
      }
      if isOpen {
        return true, None;
      }
      ghost var d1 := disk.now;
      var grew := Rescan();
      GrowsTransitive(d, d1, disk.now);
      return false, if grew then None else Some(CaughtUp);
    }

    method LookHere(size: nat) returns (answer: Option<Outcome>)
      requires Valid() && file.Some?
      modifies this, disk, buffer
      ensures Valid() && Grows(old(disk.now), disk.now) && disk.end == old(disk.end)
      ensures buffer == old(buffer) || fresh(buffer)
      ensures answer.Some? ==> Delivers(disk.now, old(nextSeq), answer.value)
      ensures nextSeq == if answer.Some? && answer.value.Got? then old(nextSeq) + 1 else old(nextSeq)
      ensures answer.Some? && answer.value.Got? ==> fresh(answer.value.payload) && answer.value.payload != buffer
      ensures answer.None? ==> index == old(index) + 1 <= |segments|
      ensures WholeWithin(old(disk.now), old(index), old(at), size) ==>
                answer.Some? && Answers(answer.value, old(nextSeq), old(disk.now)[old(index)].frames[old(at)].seqNo)
      ensures answer.Some? ==> Because(answer.value)
      ensures answer.Some? && answer.value.Got? ==>
                && index == old(index) && segments == old(segments) && Here() == at == old(at) + 1
                && index < |disk.now| && at <= |disk.now[index].frames|
      ensures old(index) + 1 < |old(disk.now)| && old(at) == |old(disk.now)[old(index)].frames| ==>
                answer.None? && Here() == 0 && index < |segments|
    {
      hide Chained, Start, Grows, Listed, Positioned, WholeWithin, Gapless;
      ghost var d := disk.now;
      PlaceOf(d, index, offset, at);
      ChainedIsGapless(d, disk.future);
      WholeIsThere(d, index, at, size);
      var header, error := ReadFrameAt(size);
      ghost var d1 := disk.now;
      BasesAre(d, d1);
      FullIsFull(d, d1, disk.future, index);
      FrameStays(d, d1, index, at);
      if error.Some? {
        assert false;  // no frame of this writer's fails its checks
      }
      if header.Some? {
        if header.value.seqNo != nextSeq {
          return Some(Failed(SequenceGap(nextSeq, header.value.seqNo)));
        }
        var taken := Take(header.value);
        return Some(taken);
      }
      answer := GoOn();
      GrowsTransitive(d, d1, disk.now);
    }

    /** Nothing more here: the next segment, if there is one by now. */
    method GoOn() returns (answer: Option<Outcome>)
      requires Valid() && file.Some?
      modifies this`segments, this`file, this`index, this`offset, this`at, disk
      ensures Valid() && Grows(old(disk.now), disk.now) && disk.end == old(disk.end)
      ensures answer.Some? ==> answer.value == CaughtUp && Because(CaughtUp)
      ensures answer.None? ==> index == old(index) + 1 < |segments| && Here() == 0
      ensures old(index) + 1 < |old(disk.now)| ==> answer.None?
    {
      hide Chained, Start, Grows, Positioned, Gapless;
      ghost var d := disk.now;
      GrowsRefl(d);
      if index + 1 < |segments| {
        Advance();
        return None;
      }
      var grew := Rescan();
      BasesAre(d, disk.now);
      return if grew then None else Some(CaughtUp);
    }
  }

  lemma WholeIsThere(d: Directory, place: nat, at: nat, size: nat)
    ensures WholeWithin(d, place, at, size) ==> place < |d| && at < |d[place].frames|
  {
    hide Start;
  }

  /** What a reader waiting for one sequence is told of a frame with another, or the same. */
  predicate Answers(outcome: Outcome, wanted: nat, found: nat) {
    if found == wanted then outcome.Got? else outcome == Failed(SequenceGap(wanted, found))
  }

  lemma NextBase(d: Directory, place: nat)
    requires Gapless(d) && place + 1 < |d|
    ensures d[place].frames != [] && d[place].begun && d[place + 1].base == d[place].base + |d[place].frames|
  {
    hide CutShort;
    assert SoundSegment(d[place]);
  }

  lemma FramesMeanBegun(d: Directory, place: nat)
    requires Gapless(d) && place < |d|
    ensures d[place].frames != [] ==> d[place].begun
  {
    hide CutShort;
    assert SoundSegment(d[place]);
  }

  /** A segment with another after it never gains a frame. */
  lemma FullIsFull(d: Directory, d': Directory, future: seq<Directory>, place: nat)
    requires Gapless(d) && Chained(d', future) && Grows(d, d')
    ensures place + 1 < |d| ==> d'[place].frames == d[place].frames && d'[place + 1].base == d[place + 1].base
  {
    ChainedIsGapless(d', future);
    hide Gapless, Chained;
    if place + 1 < |d| {
      NextBase(d, place);
      NextBase(d', place);
    }
  }

  /** What stands at the place of a sequence the log has. */
  lemma PlaceOfNext(d: Directory, place: nat, here: nat, wanted: nat)
    requires Gapless(d) && place < |d| && here <= |d[place].frames| && wanted == d[place].base + here
    ensures here < |d[place].frames| ==> d[place].begun && d[place].frames[here].seqNo == wanted
    ensures here == |d[place].frames| && wanted < SequenceEnd(d) ==>
              place + 1 < |d| && d[place].begun && d[place + 1].base == wanted
  {
    hide Gapless;
    FramesMeanBegun(d, place);
    if here < |d[place].frames| {
      SequenceIs(d, place, here);
    } else if place + 1 < |d| {
      NextBase(d, place);
    }
  }

  lemma BasesAre(d: Directory, d': Directory)
    requires Grows(d, d')
    ensures |d| <= |d'| && forall i | 0 <= i < |d| :: d'[i].base == d[i].base && d[i].frames <= d'[i].frames
  {
  }

  lemma FrameStays(d: Directory, d': Directory, place: nat, at: nat)
    requires Grows(d, d') && place < |d|
    ensures at < |d[place].frames| ==> at < |d'[place].frames| && d'[place].frames[at] == d[place].frames[at]
  {
  }

  /** The log's end moves one way. */
  lemma EndGrows(d: Directory, d': Directory, future: seq<Directory>)
    requires Gapless(d) && Chained(d', future) && Grows(d, d')
    ensures SequenceEnd(d) <= SequenceEnd(d')
  {
    hide Gapless, Chained, Grows;
    ChainedIsGapless(d', future);
    BasesAre(d, d');
    if d != [] {
      var last := |d| - 1;
      assert d'[last].base == d[last].base && |d[last].frames| <= |d'[last].frames|;
      if |d| < |d'| { BasesAscend(d', last, |d'| - 1); }
    }
  }

  /** A reader that delivers everything after `after`: from after + 1, unless the
      log begins later than that and has a frame to begin with, when it starts
      there without a word. */
  method OpenTailer(disk: Disk, after: nat) returns (t: Tailer?, error: Option<TailError>)
    requires disk.Valid()
    modifies disk
    ensures disk.Valid() && Grows(old(disk.now), disk.now) && (t == null <==> error.Some?)
    ensures t != null ==> fresh(t) && fresh(t.buffer) && t.disk == disk && t.Valid()
    ensures t != null && t.nextSeq != after + 1 ==> LogBeginsAfter(disk.now, after + 1) && t.nextSeq == disk.now[0].base
    ensures t != null && LogBeginsAfter(old(disk.now), after + 1) && HasFrames(old(disk.now), 0) ==>
              t.nextSeq == disk.now[0].base
    ensures InLog(old(disk.now), |old(disk.now)|, after + 1) ==> t != null
    ensures UpToEnd(old(disk.now), |old(disk.now)|, after + 1) && t != null ==> t.InStep() && t.nextSeq == after + 1
    ensures t == null ==> exists place: nat :: place < |disk.now| && !disk.now[place].begun
  {
    hide Chained, Start, Grows, Gapless, SoundSegment, SequenceEnd;
    ghost var d := disk.now;
    ChainedIsGapless(d, disk.future);
    var segments := disk.ListSegments();
    ghost var d1 := disk.now;
    var tailer := new Tailer(disk, segments, after);
    if HasFrames(d, 0) { FramesStay(d, d1, 0); }
    StillInLog(d, d1, disk.future, after + 1);
    error := tailer.SeekToStart();
    GrowsTransitive(d, d1, disk.now);
    BasesStay(d, d1, disk.now, disk.future);
    t := if error.None? then tailer else null;
  }

  /** A log whose first segments are gone, as a disk may hold it. */
  lemma LateStartArises()
    ensures
      var d := [Segment(5, true, [Record(5, 0, 0, 1, [])], [])];
      Chained(d, []) && LogBeginsAfter(d, 1) && HasFrames(d, 0)
  {
    hide Encode;
    var r := Record(5, 0, 0, 1, []);
    assert Writable(r) && [] < Encode(r);
    assert SoundSegment(Segment(5, true, [r], []));
  }

  /** The record with that sequence is in the log, and every segment is listed. */
  predicate InLog(d: Directory, listed: nat, wanted: nat) {
    d != [] && |d| <= listed && d[0].base <= wanted < SequenceEnd(d)
  }

  /** Or it would be the next to be written. */
  predicate UpToEnd(d: Directory, listed: nat, wanted: nat) {
    d != [] && |d| <= listed && d[0].base <= wanted <= SequenceEnd(d)
  }

  /** The last segment beginning at or below such a sequence has its place. */
  lemma FoundInLog(d: Directory, future: seq<Directory>, segments: seq<SegmentRef>, last: nat, wanted: nat)
    requires Chained(d, future) && Listed(d, segments) && last < |segments|
    requires segments[last].baseSeq <= wanted || (last == 0 && segments[0].baseSeq > wanted)
    requires forall i | last < i < |segments| :: segments[i].baseSeq > wanted
    ensures UpToEnd(d, |segments|, wanted) ==>
              last < |d| && d[last].base <= wanted <= d[last].base + |d[last].frames|
    ensures InLog(d, |segments|, wanted) ==> last < |d| && d[last].begun
  {
    hide Gapless, Chained;
    ChainedIsGapless(d, future);
    if UpToEnd(d, |segments|, wanted) {
      FramesMeanBegun(d, last);
      if last + 1 < |d| {
        NextBase(d, last);
      } else {
        assert SequenceEnd(d) == d[last].base + |d[last].frames|;
      }
    }
  }

  lemma SizeIsAll(d: Directory, d': Directory, place: nat, wanted: nat, size: nat)
    requires Grows(d, d') && place < |d'| && d'[place].begun && size == |Bytes(d'[place])|
    ensures place < |d| && d[place].base <= wanted <= d[place].base + |d[place].frames| ==>
              AllWithin(d', place, wanted, size)
  {
    TailThere(d'[place]);
    hide Bytes;
  }

  lemma StillInLog(d: Directory, d': Directory, future: seq<Directory>, wanted: nat)
    requires Gapless(d) && Chained(d', future) && Grows(d, d')
    ensures InLog(d, |d|, wanted) ==> InLog(d', |d'|, wanted)
    ensures UpToEnd(d, |d|, wanted) ==> UpToEnd(d', |d'|, wanted)
  {
    hide Chained, SequenceEnd, Gapless;
    EndGrows(d, d', future);
  }

  predicate LogBeginsAfter(d: Directory, wanted: nat) {
    d != [] && d[0].base > wanted
  }

  lemma BasesStay(d: Directory, d': Directory, d'': Directory, future: seq<Directory>)
    requires Chained(d'', future) && Grows(d, d') && Grows(d', d'')
    ensures d != [] ==> d' != [] && d'[0].base == d[0].base
    ensures d' != [] ==> d'' != [] && d''[0].base == d'[0].base
    ensures forall wanted | LogBeginsAfter(d', wanted) :: BeginsAfter(Listing(d'), wanted)
    ensures forall wanted | BeginsAfter(Listing(d'), wanted) :: LogBeginsAfter(d', wanted)
  {
    forall i | 0 < i < |d'| ensures d'[0].base <= d'[i].base {
      BasesAscend(d'', 0, i);
    }
  }

  /** What a reader waiting for `wanted` may be told: the record written under
      that sequence, that there is none yet, or that the log seems to skip. */
  ghost predicate Delivers(d: Directory, wanted: nat, outcome: Outcome)
    reads if outcome.Got? then {outcome.payload} else {}
  {
    match outcome
    case Got(header, payload) =>
      header.seqNo == wanted && exists r :: Holds(d, r) && header == HeaderOf(r) && payload[..] == r.payload
    case CaughtUp => true
    case Failed(error) => error == ShortHeading || (error.SequenceGap? && error.expected == wanted != error.found)
  }

  /** Records delivered one after another. */
  ghost predicate Consecutive(d: Directory, from: nat, out: seq<Outcome>)
    reads set i | 0 <= i < |out| && out[i].Got? :: out[i].payload
  {
    forall i | 0 <= i < |out| :: out[i].Got? && Delivers(d, from + i, out[i])
  }

  lemma DeliveryStands(d: Directory, d': Directory, wanted: nat, outcome: Outcome)
    requires Grows(d, d') && Delivers(d, wanted, outcome)
    ensures Delivers(d', wanted, outcome)
  {
    if outcome.Got? {
      var r :| Holds(d, r) && outcome.header == HeaderOf(r) && outcome.payload[..] == r.payload;
      HeldStays(d, d', r);
    }
  }

  /** One past the last sequence in the log. */
  function SequenceEnd(d: Directory): nat {
    if d == [] then 0 else d[|d| - 1].base + |d[|d| - 1].frames|
  }

  lemma HeldBeforeEnd(d: Directory, r: Record)
    requires Gapless(d) && Holds(d, r)
    ensures r.seqNo < SequenceEnd(d)
  {
    hide Gapless;
    var i: nat, k: nat :| i < |d| && k < |d[i].frames| && d[i].frames[k] == r;
    PlaceBeforeEnd(d, i, k);
  }

  lemma PlaceBeforeEnd(d: Directory, i: nat, k: nat)
    requires Gapless(d) && i < |d| && k < |d[i].frames|
    ensures d[i].frames[k].seqNo < SequenceEnd(d)
  {
    hide Gapless;
    SequenceIs(d, i, k);
    if i < |d| - 1 { BasesAscend(d, i, |d| - 1); }
  }

  lemma BeforeTheEnd(d: Directory, future: seq<Directory>, wanted: nat, outcome: Outcome)
    requires Chained(d, future) && Delivers(d, wanted, outcome) && outcome.Got?
    ensures wanted < SequenceEnd(Final(d, future))
  {
    hide Holds, Gapless, Grows, SequenceEnd, Chained, Final;
    FinalGrows(d, future);
    var r :| Holds(d, r) && outcome.header == HeaderOf(r) && outcome.payload[..] == r.payload;
    HeldStays(d, Final(d, future), r);
    HeldBeforeEnd(Final(d, future), r);
  }

  predicate HasFrames(d: Directory, place: nat) {
    place < |d| && d[place].frames != []
  }

  lemma FramesStay(d: Directory, d': Directory, place: nat)
    requires Grows(d, d') && HasFrames(d, place)
    ensures HasFrames(d', place)
  {
  }

  predicate BeginsAfter(segments: seq<SegmentRef>, wanted: nat) {
    segments != [] && forall i | 0 <= i < |segments| :: segments[i].baseSeq > wanted
  }

  lemma Numbered(d: Directory, future: seq<Directory>, segments: seq<SegmentRef>, place: nat, at: nat)
    requires Chained(d, future) && Listed(d, segments) && place < |segments| && at < |d[place].frames|
    ensures d[place].frames[at].seqNo == segments[place].baseSeq + at
  {
    SequenceIs(d, place, at);
  }

  lemma FirstFrame(frames: seq<Record>)
    ensures Start(frames, 0) == SEGMENT_HEADER_LEN
  {
  }

  lemma Moved(d: Directory, d': Directory, d'': Directory, segments: seq<SegmentRef>, place: nat, offset: nat, at: nat)
    requires Grows(d, d') && Grows(d', d'') && Listed(d', segments) && Positioned(d', place, offset, at)
    ensures Grows(d, d'') && Listed(d'', segments) && Positioned(d'', place, offset, at)
  {
    PositionStays(d', d'', place, offset, at);
  }

  /** No reader ever lists more segments than there will be. */
  lemma EndBounds(d: Directory, future: seq<Directory>, segments: seq<SegmentRef>)
    requires Chained(d, future) && Listed(d, segments)
    ensures |segments| <= |Final(d, future)|
  {
    FinalGrows(d, future);
  }

  lemma FrameRead(d: Directory, place: nat, offset: nat, at: nat, header: Header)
    requires Positioned(d, place, offset, at) && at < |d[place].frames| && header == HeaderOf(d[place].frames[at])
    ensures Positioned(d, place, offset + FRAME_HEADER_LEN + header.len, at + 1)
    ensures Holds(d, d[place].frames[at])
  {
    FrameThere(d[place], at);
  }

  /** Frame `at` is all there, and inside the first `size` bytes. */
  predicate WholeWithin(d: Directory, place: nat, at: nat, size: nat) {
    place < |d| && d[place].begun && at < |d[place].frames| && Start(d[place].frames, at + 1) <= size
  }

  /** The segment's frames up to the place of that sequence, which is at most the
      first after them, are all within the size. */
  predicate AllWithin(d: Directory, place: nat, wanted: nat, size: nat) {
    && place < |d| && d[place].begun && d[place].base <= wanted <= d[place].base + |d[place].frames|
    && Start(d[place].frames, |d[place].frames|) <= size
  }

  lemma NextIsWhole(d: Directory, d': Directory, place: nat, at: nat, wanted: nat, size: nat)
    requires Grows(d, d')
    ensures AllWithin(d, place, wanted, size) && d[place].base + at < d[place].base + |d[place].frames| ==>
              WholeWithin(d', place, at, size)
  {
    hide Start;
    if AllWithin(d, place, wanted, size) && at < |d[place].frames| {
      assert WholeWithin(d, place, |d[place].frames| - 1, size);
      WholeBefore(d, d', place, at, |d[place].frames| - 1, size);
    }
  }

  lemma EndsHere(d: Directory, d': Directory, place: nat, offset: nat, at: nat, wanted: nat, size: nat)
    requires Grows(d, d') && Positioned(d', place, offset, at)
    ensures place < |d'| && at <= |d'[place].frames|
    ensures AllWithin(d, place, wanted, size) ==>
              && d'[place].base == d[place].base <= wanted
              && (d[place].base + at <= wanted && at >= |d[place].frames| ==> wanted == d'[place].base + at)
  {
    hide Start;
  }

  lemma BaseOf(d: Directory, segments: seq<SegmentRef>, place: nat)
    requires Listed(d, segments) && place < |segments|
    ensures place < |d| && d[place].base == segments[place].baseSeq
  {
  }

  /** With one frame, those before it are whole and within the size. */
  lemma WholeBefore(d: Directory, d': Directory, place: nat, at: nat, later: nat, size: nat)
    requires Grows(d, d')
    ensures at <= later && WholeWithin(d, place, later, size) ==> WholeWithin(d', place, at, size)
  {
    if at <= later && WholeWithin(d, place, later, size) {
      StartIsStable(d[place].frames, d'[place].frames, at + 1);
      StartsAscend(d[place].frames, at + 1, later + 1);
    }
  }

  lemma StartsAscend(frames: seq<Record>, a: nat, b: nat)
    requires a <= b <= |frames|
    ensures Start(frames, a) <= Start(frames, b)
  {
    hide Encode;
    EncodeAllConcat(frames[..a], frames[a..b]);
    assert frames[..b] == frames[..a] + frames[a..b];
  }

  lemma SizeCovers(d: Directory, d': Directory, place: nat, offset: nat, at: nat, size: nat)
    requires Grows(d, d') && Positioned(d, place, offset, at) && Positioned(d', place, offset, at)
    requires size == |Bytes(d'[place])|
    ensures at < |d[place].frames| ==> WholeWithin(d', place, at, size)
  {
    if at < |d[place].frames| {
      hide Bytes;
      FrameThere(d'[place], at);
    }
  }

  lemma WholeReads(d: Directory, d': Directory, place: nat, offset: nat, at: nat)
    requires Gapless(d') && Grows(d, d') && Positioned(d, place, offset, at) && Positioned(d', place, offset, at)
    ensures forall size :: WholeWithin(d, place, at, size) ==>
              && WholeWithin(d', place, at, size)
              && var r := d'[place].frames[at];
                 && Writable(r) && offset + FRAME_HEADER_LEN + |r.payload| <= |Bytes(d'[place])|
                 && offset + FRAME_HEADER_LEN + |r.payload| <= size
  {
    if at < |d[place].frames| {
      assert SoundSegment(d'[place]);
      hide Bytes;
      StartIsStable(d[place].frames, d'[place].frames, at + 1);
      FrameThere(d'[place], at);
    }
  }

  ghost predicate HeadRead(d: Directory, place: nat, offset: nat, at: nat, head: seq<bv8>) {
    && Positioned(d, place, offset, at)
    && offset + FRAME_HEADER_LEN <= |Bytes(d[place])| && head == Bytes(d[place])[offset..offset + FRAME_HEADER_LEN]
  }

  lemma WholeLength(d: Directory, place: nat, offset: nat, at: nat, head: seq<bv8>, length: nat)
    requires Gapless(d) && HeadRead(d, place, offset, at, head) && |head| == FRAME_HEADER_LEN
        && length == LengthIn(head)
    ensures at < |d[place].frames| ==> length == |d[place].frames[at].payload|
  {
    assert SoundSegment(d[place]);
    hide Bytes, LengthIn;
    var r := HeaderBytesAt(d[place], at);
  }

  lemma ChainedIsGapless(d: Directory, future: seq<Directory>)
    requires Chained(d, future)
    ensures Gapless(d)
  {
  }

  lemma PlaceOf(d: Directory, place: nat, offset: nat, at: nat)
    requires Positioned(d, place, offset, at)
    ensures place < |d|
  {
  }

  lemma GrowsRefl(d: Directory)
    ensures Grows(d, d)
  {
  }

  lemma SegmentsSound(d: Directory, place: nat)
    requires Gapless(d) && place < |d|
    ensures SoundSegment(d[place])
  {
    hide SoundSegment;
  }

  lemma FrameFacts(d: Directory, d': Directory, place: nat, offset: nat, at: nat, head: seq<bv8>)
    requires Gapless(d) && Gapless(d') && Grows(d, d') && Steady(d, d') && HeadRead(d, place, offset, at, head)
    ensures place < |d| <= |d'| && SoundSegment(d[place]) && SoundSegment(d'[place])
    ensures d[place].begun && d'[place].begun && d[place].frames <= d'[place].frames
    ensures at <= |d[place].frames| && Start(d[place].frames, at) == offset && Bytes(d[place]) <= Bytes(d'[place])
    ensures offset + FRAME_HEADER_LEN <= |Bytes(d[place])|
    ensures head == Bytes(d[place])[offset..offset + FRAME_HEADER_LEN]
  {
    hide Bytes, Start, Gapless, SoundSegment;
    SegmentsSound(d, place);
    SegmentsSound(d', place);
  }

  /** Header and payload read, in that order: the frame is whole and theirs. */
  lemma FrameIsWhole(d: Directory, d': Directory, place: nat, offset: nat, at: nat, head: seq<bv8>, length: nat)
    requires Gapless(d) && Gapless(d') && Grows(d, d') && Steady(d, d') && HeadRead(d, place, offset, at, head)
    requires |head| == FRAME_HEADER_LEN && length == LengthIn(head)
    requires place < |d'| && offset + FRAME_HEADER_LEN + length <= |Bytes(d'[place])|
    ensures at < |d'[place].frames|
    ensures
      var r := d'[place].frames[at];
      && Bytes(d'[place])[offset + FRAME_HEADER_LEN..offset + FRAME_HEADER_LEN + length] == r.payload
      && DecodeFrameHeader(head, r.payload) == Ok(HeaderOf(r))
  {
    hide *;
    FrameFacts(d, d', place, offset, at, head);
    PayloadBytesAt(d[place], d'[place], at, length);
  }
}
