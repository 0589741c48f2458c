/** The journal's frames, byte for byte: a length, a checksum over everything
    after it, a header and a payload, all little-endian. */
module JournalFormat {
  import opened Common
  import opened Crc32c
  import opened Octets

  const FRAME_HEADER_LEN := 36
  const SEGMENT_HEADER_LEN := 32
  const MAX_PAYLOAD := 0x10_0000

  /** Everything about a record except its payload, as a reader has it. */
  datatype Header = Header(seqNo: nat, epoch: nat, nanos: nat, kind: nat, len: nat)

  datatype Record = Record(seqNo: nat, epoch: nat, nanos: nat, kind: nat, payload: seq<bv8>)

  predicate KnownKind(kind: nat) {
    1 <= kind <= 7
  }

  /** What the writer may put in a frame. */
  predicate Writable(r: Record) {
    && r.seqNo < TWO_64 && r.epoch < TWO_64 && r.nanos < TWO_64
    && KnownKind(r.kind) && |r.payload| <= MAX_PAYLOAD
  }

  function HeaderOf(r: Record): Header {
    Header(r.seqNo, r.epoch, r.nanos, r.kind, |r.payload|)
  }

  // ---------------------------------------------------------------- frames

  /** The header from the sequence on: everything the checksum covers but the payload. */
  function Stamp(r: Record): (bytes: seq<bv8>)
    ensures |bytes| == 28
  {
    Le(r.seqNo, 8) + Le(r.epoch, 8) + Le(r.nanos, 8) + Le(r.kind, 2) + Le(0, 2)
  }

  function Seal(stamp: seq<bv8>, payload: seq<bv8>): bv32 {
    Updated(Updated(0, stamp), payload)
  }

  function Prefix(r: Record): (bytes: seq<bv8>)
    ensures |bytes| == FRAME_HEADER_LEN
  {
    Le(|r.payload|, 4) + WordBytes(Seal(Stamp(r), r.payload)) + Stamp(r)
  }

  function Encode(r: Record): (bytes: seq<bv8>)
    ensures |bytes| == FRAME_HEADER_LEN + |r.payload|
  {
    Prefix(r) + r.payload
  }

  /** The payload length a header claims. */
  function LengthIn(b: seq<bv8>): nat
    requires |b| >= 4
  {
    UnLe(b[0..4])
  }

  datatype Decoded = Ok(header: Header) | Corrupt

  /** Read a frame header and verify it against its payload. */
  function DecodeFrameHeader(b: seq<bv8>, payload: seq<bv8>): Decoded {
    if |b| < FRAME_HEADER_LEN then Corrupt
    else if LengthIn(b) > MAX_PAYLOAD || |payload| != LengthIn(b) then Corrupt
    else if Word(b[4..8]) != Seal(b[8..36], payload) then Corrupt
    else if !KnownKind(UnLe(b[32..34])) then Corrupt
    else Ok(Header(UnLe(b[8..16]), UnLe(b[16..24]), UnLe(b[24..32]), UnLe(b[32..34]), LengthIn(b)))
  }

  lemma PrefixParts(r: Record)
    ensures
      var b := Prefix(r);
      && b[0..4] == Le(|r.payload|, 4) && b[4..8] == WordBytes(Seal(Stamp(r), r.payload)) && b[8..36] == Stamp(r)
      && b[8..16] == Le(r.seqNo, 8) && b[16..24] == Le(r.epoch, 8) && b[24..32] == Le(r.nanos, 8)
      && b[32..34] == Le(r.kind, 2)
  {
    hide Le, WordBytes, Seal;
  }

  /** What the writer frames, the reader reads back. */
  lemma FrameRoundTrip(r: Record)
    requires Writable(r)
    ensures Encode(r)[FRAME_HEADER_LEN..] == r.payload && Encode(r)[..FRAME_HEADER_LEN] == Prefix(r)
    ensures LengthIn(Prefix(r)) == |r.payload|
    ensures DecodeFrameHeader(Prefix(r), r.payload) == Ok(HeaderOf(r))
  {
    hide Le, UnLe, Word, WordBytes, Seal, Prefix, Stamp, Power;
    assert Encode(r)[..FRAME_HEADER_LEN] == Prefix(r);
    Powers();
    PrefixParts(r);
    WordRoundTrip(Seal(Stamp(r), r.payload));
    LeRoundTrip(|r.payload|, 4);
    LeRoundTrip(r.seqNo, 8);
    LeRoundTrip(r.epoch, 8);
    LeRoundTrip(r.nanos, 8);
    LeRoundTrip(r.kind, 2);
  }

  /** Whatever decodes is a writable frame's header over its payload, but for two
      bytes that are reserved and not looked at. */
  lemma OnlyFramesDecode(b: seq<bv8>, payload: seq<bv8>)
    requires |b| == FRAME_HEADER_LEN && DecodeFrameHeader(b, payload).Ok?
    ensures
      var h := DecodeFrameHeader(b, payload).header;
      var r := Record(h.seqNo, h.epoch, h.nanos, h.kind, payload);
      && Writable(r) && HeaderOf(r) == h
      && (b[34..36] == Le(0, 2) ==> b == Prefix(r))
  {
    hide Le, UnLe, Word, WordBytes, Seal, Power;
    Powers();
    UnLeRoundTrip(b[0..4]);
    UnLeRoundTrip(b[8..16]);
    UnLeRoundTrip(b[16..24]);
    UnLeRoundTrip(b[24..32]);
    UnLeRoundTrip(b[32..34]);
    BytesOfWord(b[4..8]);
    assert b == b[0..4] + b[4..8] + b[8..36];
    assert b[8..36] == b[8..16] + b[16..24] + b[24..32] + b[32..34] + b[34..36];
  }

  /** With a writable frame's header, another payload of its length is taken for
      the frame's own if and only if it has the same checksum. */
  lemma SealDecides(r: Record, payload: seq<bv8>)
    requires Writable(r) && |payload| == |r.payload|
    ensures DecodeFrameHeader(Prefix(r), payload) ==
              if Seal(Stamp(r), payload) == Seal(Stamp(r), r.payload) then Ok(HeaderOf(r)) else Corrupt
  {
    hide Le, UnLe, Word, WordBytes, Seal, Prefix, Stamp, Power;
    Powers();
    PrefixParts(r);
    WordRoundTrip(Seal(Stamp(r), r.payload));
    LeRoundTrip(|r.payload|, 4);
    LeRoundTrip(r.seqNo, 8);
    LeRoundTrip(r.epoch, 8);
    LeRoundTrip(r.nanos, 8);
    LeRoundTrip(r.kind, 2);
  }

  /** Damage confined to four consecutive bytes of what the checksum covers, be
      it the sequence, the time, the kind or the payload, is always refused. */
  lemma DamageIsRefused(r: Record, before: seq<bv8>, x: seq<bv8>, y: seq<bv8>, after: seq<bv8>)
    requires Writable(r) && Stamp(r) + r.payload == before + x + after
    requires |x| == |y| <= 4 && x != y
    ensures
      var damaged := before + y + after;
      DecodeFrameHeader(Prefix(r)[..8] + damaged[..28], damaged[28..]) == Corrupt
  {
    hide Le, UnLe, Word, WordBytes, Updated, Stamp, Prefix, KnownKind, LengthIn, Seal, DecodeFrameHeader;
    var damaged := before + y + after;
    var b := Prefix(r)[..8] + damaged[..28];
    PrefixParts(r);
    assert b[4..8] == Prefix(r)[4..8] && b[8..36] == damaged[..28];
    SealMoves(r, before, x, y, after);
    BadSealIsCorrupt(b, damaged[28..]);
  }

  lemma SealMoves(r: Record, before: seq<bv8>, x: seq<bv8>, y: seq<bv8>, after: seq<bv8>)
    requires Writable(r) && Stamp(r) + r.payload == before + x + after
    requires |x| == |y| <= 4 && x != y
    ensures
      var damaged := before + y + after;
      Word(WordBytes(Seal(Stamp(r), r.payload))) != Seal(damaged[..28], damaged[28..])
  {
    hide Updated, Stamp, Word, WordBytes;
    var damaged := before + y + after;
    WordRoundTrip(Seal(Stamp(r), r.payload));
    UpdateContinues(Stamp(r), r.payload);
    UpdateContinues(damaged[..28], damaged[28..]);
    assert damaged[..28] + damaged[28..] == damaged;
    BurstsAreSeen(0, before, x, y, after);
  }

  lemma BadSealIsCorrupt(b: seq<bv8>, payload: seq<bv8>)
    requires |b| >= FRAME_HEADER_LEN && Word(b[4..8]) != Seal(b[8..36], payload)
    ensures DecodeFrameHeader(b, payload) == Corrupt
  {
    hide UnLe, Word, Updated, KnownKind, LengthIn, Seal;
  }
}
