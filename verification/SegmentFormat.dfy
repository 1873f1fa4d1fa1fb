/** What the bytes of a segment file and of an index entry mean. */
module SegmentFormat {
  import opened Bytes

  datatype Record = Record(key: Data, value: Data)

  const SIZE_BYTES := 8      // sizeof(size_t)
  const SEGMENT_BYTES := 4   // sizeof(SEGMENT_ID)
  const OFFSET_BYTES := 8    // sizeof(off_t)
  const CHECKSUM_BYTES := 8  // sizeof(CHECKSUM)
  const INT_LIMIT := 0x8000_0000

  /** crc32 is some function from data to 32-bit checksums. */
  type Checksum = x: nat | x < 0x1_0000_0000

  type Crc = Data -> Checksum

  /** The part of a frame the checksum covers: the key, then the value. */
  function Body(r: Record): Data {
    r.key + r.value
  }

  /** A record in a segment: the size of its body, then the body. */
  function Frame(r: Record): Data {
    Encode(|Body(r)|, SIZE_BYTES) + Body(r)
  }

  function Frames(rs: seq<Record>): Data {
    if rs == [] then [] else Frames(rs[..|rs| - 1]) + Frame(rs[|rs| - 1])
  }

  /** Where record `k` of a segment starts. */
  function OffsetOf(rs: seq<Record>, k: nat): nat
    requires k <= |rs|
  {
    |Frames(rs[..k])|
  }

  /** A file that holds these records, then zeros. */
  predicate Laid(file: Data, rs: seq<Record>) {
    && Holds(file, 0, Frames(rs))
    && forall i :: |Frames(rs)| <= i < |file| ==> file[i] == 0
  }

  /** What the index database stores for a key. */
  type IndexEntry = e: Data | |e| == SEGMENT_BYTES + OFFSET_BYTES + CHECKSUM_BYTES
    witness Zeros(SEGMENT_BYTES + OFFSET_BYTES + CHECKSUM_BYTES)

  /** `ToSegmentIndex`. */
  function Index(segment: nat, offset: nat, sum: Checksum): IndexEntry {
    Encode(segment, SEGMENT_BYTES) + Encode(offset, OFFSET_BYTES) + Encode(sum, CHECKSUM_BYTES)
  }

  datatype Location = Location(segment: nat, offset: nat, sum: nat)

  /** `ParseSegmentIndex`. */
  function ParseIndex(index: IndexEntry): Location {
    Location(Decode(index[..SEGMENT_BYTES]),
             Decode(index[SEGMENT_BYTES..SEGMENT_BYTES + OFFSET_BYTES]),
             Decode(index[SEGMENT_BYTES + OFFSET_BYTES..SEGMENT_BYTES + OFFSET_BYTES + CHECKSUM_BYTES]))
  }

  /** An index entry gives back the segment, offset and checksum it was made from. */
  lemma ParseIndexInverts(segment: nat, offset: nat, sum: Checksum)
    requires segment < INT_LIMIT && offset < INT_LIMIT
    ensures ParseIndex(Index(segment, offset, sum)) == Location(segment, offset, sum)
  {
    var a, b, c := Encode(segment, SEGMENT_BYTES), Encode(offset, OFFSET_BYTES), Encode(sum, CHECKSUM_BYTES);
    var index := a + b + c;
    assert index[..SEGMENT_BYTES] == a;
    assert index[SEGMENT_BYTES..SEGMENT_BYTES + OFFSET_BYTES] == b;
    assert index[SEGMENT_BYTES + OFFSET_BYTES..SEGMENT_BYTES + OFFSET_BYTES + CHECKSUM_BYTES] == c;
    Widths();
    DecodeEncode(segment, SEGMENT_BYTES);
    DecodeEncode(offset, OFFSET_BYTES);
    DecodeEncode(sum, CHECKSUM_BYTES);
  }

  /** The twenty bytes of an index entry: four of the segment, eight of the offset, eight of the checksum. */
  lemma IndexBytes(segment: Data, offset: Data, sum: Data)
    requires |segment| == 4 && |offset| == 8 && |sum| == 8 && Decode(sum) < 0x1_0000_0000
    ensures Index(Decode(segment), Decode(offset), Decode(sum)) == segment + offset + sum
  {
    EncodeDecode(segment);
    EncodeDecode(offset);
    EncodeDecode(sum);
  }

  // ---------------------------------------------------------------- records within a file

  /** The frames of a prefix are a prefix of the frames. */
  lemma {:induction false} FramesPrefix(rs: seq<Record>, k: nat)
    requires k <= |rs|
    ensures Frames(rs[..k]) <= Frames(rs)
  {
    if k < |rs| {
      FramesPrefix(rs[..|rs| - 1], k);
      assert rs[..|rs| - 1][..k] == rs[..k];
    } else {
      assert rs[..k] == rs;
    }
  }

  /** One more record is one more frame. */
  lemma FramesAppend(rs: seq<Record>, r: Record)
    ensures Frames(rs + [r]) == Frames(rs) + Frame(r)
  {
    assert (rs + [r])[..|rs|] == rs;
  }

  lemma OffsetNext(rs: seq<Record>, k: nat)
    requires k < |rs|
    ensures OffsetOf(rs, k + 1) == OffsetOf(rs, k) + |Frame(rs[k])|
    ensures OffsetOf(rs, k + 1) <= |Frames(rs)|
  {
    assert rs[..k + 1] == rs[..k] + [rs[k]];
    FramesAppend(rs[..k], rs[k]);
    FramesPrefix(rs, k + 1);
  }

  /** Later records start later. */
  lemma {:induction false} OffsetsRise(rs: seq<Record>, j: nat, k: nat)
    requires j < k <= |rs|
    ensures OffsetOf(rs, j) + SIZE_BYTES <= OffsetOf(rs, k)
  {
    OffsetNext(rs, k - 1);
    if j >= k - 1 {
    } else {
      OffsetsRise(rs, j, k - 1);
    }
  }

  /** Record `k` is found at its offset. */
  lemma FrameAt(file: Data, rs: seq<Record>, k: nat)
    requires Laid(file, rs) && k < |rs|
    ensures Holds(file, OffsetOf(rs, k), Frame(rs[k]))
  {
    hide Frame, Encode;
    assert rs[..k + 1] == rs[..k] + [rs[k]];
    FramesAppend(rs[..k], rs[k]);
    FramesPrefix(rs, k + 1);
    var at, f := OffsetOf(rs, k), Frame(rs[k]);
    assert Frames(rs) == file[..|Frames(rs)|];
    assert Frames(rs)[..at + |f|] == Frames(rs[..k]) + f;
    forall i | 0 <= i < |f| ensures file[at + i] == f[i] {
      assert file[at + i] == Frames(rs)[..at + |f|][at + i];
    }
  }

  // ---------------------------------------------------------------- replay

  /** The int that `ReplayLog` returns, and what it reports besides. */
  datatype Replay = Replay(result: int, key: Data, index: Data)

  /** Conversion to a 32-bit int. */
  function ToInt(n: nat): int {
    var low := n % 0x1_0000_0000;
    if low < INT_LIMIT then low else low - 0x1_0000_0000
  }

  /**
    `ReplayLog`: -1 if the segment does not exist, 0 at its end, otherwise the offset behind the record, with its
    key and index.
    */
  function ReplayLog(files: map<nat, Data>, crc: Crc, keyLength: nat, segment: nat, offset: nat): Replay {
    if segment !in files then Replay(-1, [], [])
    else
      var file := files[segment];
      if offset + SIZE_BYTES > |file| then Replay(0, [], [])
      else
        var size := Decode(file[offset..offset + SIZE_BYTES]);
        if size == 0 then Replay(0, [], [])
        else if offset + SIZE_BYTES + size > |file| then Replay(0, [], [])
        else
          var body := file[offset + SIZE_BYTES..offset + SIZE_BYTES + size];
          Replay(ToInt(offset + SIZE_BYTES + size), if keyLength <= size then body[..keyLength] else body,
                 Index(segment, offset, crc(body)))
  }

  /** A record that fits the store. */
  predicate Fits(r: Record, keyLength: nat, maxSize: nat) {
    |r.key| == keyLength && keyLength >= 1 && SIZE_BYTES + |Body(r)| <= maxSize
  }

  /** Replay inverts append: at the offset of a record it reports that record's key and index, and the next offset. */
  lemma ReplayFindsRecord(files: map<nat, Data>, crc: Crc, keyLength: nat, segment: nat, rs: seq<Record>, k: nat)
    requires segment in files && Laid(files[segment], rs) && |files[segment]| < INT_LIMIT
    requires k < |rs| && Fits(rs[k], keyLength, INT_LIMIT)
    ensures ReplayLog(files, crc, keyLength, segment, OffsetOf(rs, k)) ==
            Replay(OffsetOf(rs, k + 1), rs[k].key, Index(segment, OffsetOf(rs, k), crc(Body(rs[k]))))
  {
    FrameAt(files[segment], rs, k);
    OffsetNext(rs, k);
    ReplayAtFrame(files, crc, keyLength, segment, OffsetOf(rs, k), rs[k]);
  }

  lemma ReplayAtFrame(files: map<nat, Data>, crc: Crc, keyLength: nat, segment: nat, at: nat, r: Record)
    requires segment in files && |files[segment]| < INT_LIMIT
    requires Holds(files[segment], at, Frame(r)) && Fits(r, keyLength, INT_LIMIT)
    ensures ReplayLog(files, crc, keyLength, segment, at) ==
            Replay(at + |Frame(r)|, r.key, Index(segment, at, crc(Body(r))))
  {
    hide Frame, Encode, Decode, Frames, Index;
    FrameParts(files[segment], at, r);
    assert Body(r)[..keyLength] == r.key;
  }

  /** Where a frame stands, its size and its body can be read. */
  lemma FrameParts(file: Data, at: nat, r: Record)
    requires Holds(file, at, Frame(r)) && |Body(r)| < INT_LIMIT
    ensures |Frame(r)| == SIZE_BYTES + |Body(r)| && at + SIZE_BYTES + |Body(r)| <= |file|
    ensures Decode(file[at..at + SIZE_BYTES]) == |Body(r)|
    ensures file[at + SIZE_BYTES..at + SIZE_BYTES + |Body(r)|] == Body(r)
  {
    var f := Frame(r);
    assert f == file[at..at + |f|];
    assert file[at..at + SIZE_BYTES] == f[..SIZE_BYTES] == Encode(|Body(r)|, SIZE_BYTES);
    assert file[at + SIZE_BYTES..at + |f|] == f[SIZE_BYTES..] == Body(r);
    Widths();
    DecodeEncode(|Body(r)|, SIZE_BYTES);
  }

  /** Behind the last record, at padding or at the end of the file, replay reports the end. */
  lemma ReplayFindsEnd(files: map<nat, Data>, crc: Crc, keyLength: nat, segment: nat, rs: seq<Record>)
    requires segment in files && Laid(files[segment], rs)
    ensures ReplayLog(files, crc, keyLength, segment, |Frames(rs)|).result == 0
  {
    var file, at := files[segment], |Frames(rs)|;
    if at + SIZE_BYTES <= |file| {
      DecodeZeros(file[at..at + SIZE_BYTES]);
    }
  }

  /**
    The int returned for a record is the true offset exactly below 2 to the 31st; below 2 to the 32nd it can be told
    from the sentinels 0 and -1 by its sign exactly there.
    */
  lemma SentinelsUnambiguous(offset: nat)
    ensures ToInt(offset) == offset <==> offset < INT_LIMIT
    ensures 0 < offset < 0x1_0000_0000 ==> (ToInt(offset) > 0 <==> offset < INT_LIMIT)
  {
  }
}
