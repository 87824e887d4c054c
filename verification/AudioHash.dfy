/** Audio fingerprints that ignore tags (backend/services/audio_hash.py): the ID3v2, ID3v1 and FLAC
    block parsers over a seekable file, and what their hashes cover.

    A SHA-256 fingerprint is named by the bytes it digests. */
module AudioHashes {
  import opened Wrappers

  type Byte = b: int | 0 <= b < 256
  type Bytes = seq<Byte>

  datatype AudioHash = FlacMd5(signature: nat) | AudioSha256(covered: Bytes)

  datatype FlacLayout = FlacLayout(framesOffset: nat, storedMd5: nat)

  datatype Format = Flac | Mp3 | OtherFormat

  const ID3V2_MARKER: Bytes := [0x49, 0x44, 0x33]
  const ID3V1_MARKER: Bytes := [0x54, 0x41, 0x47]
  const FLAC_MARKER: Bytes := [0x66, 0x4C, 0x61, 0x43]
  const READ_CHUNK: nat := 0x10_0000

  // ---- What the parsers compute ----

  /** Seven bits a byte, the first byte highest. */
  function Syncsafe(bytes: Bytes): nat {
    if bytes == [] then 0 else Syncsafe(bytes[..|bytes| - 1]) * 128 + bytes[|bytes| - 1] % 128
  }

  function BigEndian(bytes: Bytes): nat {
    if bytes == [] then 0 else BigEndian(bytes[..|bytes| - 1]) * 256 + bytes[|bytes| - 1]
  }

  function Min(a: int, b: int): int {
    if a <= b then a else b
  }

  /** The bytes [start, end) of a file, as far as they exist. */
  function Range(data: Bytes, start: nat, end: nat): Bytes {
    if start <= end then data[Min(start, |data|)..Min(end, |data|)] else []
  }

  /** Bytes a leading ID3v2 tag takes; 0 without one. */
  function TagSize(head: Bytes): nat {
    if |head| < 10 || head[..3] != ID3V2_MARKER then 0
    else 10 + Syncsafe(head[6..10]) + if head[5] / 16 % 2 == 1 then 10 else 0
  }

  /** The MD5 a STREAMINFO body stores, from as many of its 16 bytes as the body has. */
  function BodyMd5(body: Bytes): nat {
    BigEndian(Range(body, 18, 34))
  }

  /** A metadata block read: where the next one starts, the MD5 known by then, and whether it was
      the last. */
  datatype BlockRead = BlockRead(next: nat, md5: nat, last: bool)

  /** One metadata block at a position; none when its header, or a STREAMINFO body, is cut short. */
  function BlockAt(data: Bytes, pos: nat, md5: nat): (read: Option<BlockRead>)
    ensures read.Some? ==> pos + 4 <= |data| && pos + 4 <= read.value.next
  {
    if pos + 4 > |data| then None
    else
      var header := data[pos..pos + 4];
      var next := pos + 4 + BigEndian(header[1..]);
      var last := header[0] >= 128;
      if header[0] % 128 != 0 then Some(BlockRead(next, md5, last))
      else if next > |data| then None
      else Some(BlockRead(next, BodyMd5(data[pos + 4..next]), last))
  }

  /** The rest of a FLAC's metadata blocks, from a position. */
  function LayoutFrom(data: Bytes, pos: nat, md5: nat): Option<FlacLayout>
    decreases |data| - pos
  {
    match BlockAt(data, pos, md5)
    case None => None
    case Some(read) =>
      if read.last then Some(FlacLayout(read.next, read.md5)) else LayoutFrom(data, read.next, read.md5)
  }

  function LayoutOf(data: Bytes): Option<FlacLayout> {
    var start := TagSize(Range(data, 0, 10));
    if Range(data, start, start + 4) != FLAC_MARKER then None else LayoutFrom(data, start + 4, 0)
  }

  function FlacHashOf(data: Bytes): Option<AudioHash> {
    match LayoutOf(data)
    case None => None
    case Some(layout) =>
      if layout.framesOffset >= |data| then None
      else if layout.storedMd5 != 0 then Some(FlacMd5(layout.storedMd5))
      else Some(AudioSha256(data[layout.framesOffset..]))
  }

  predicate EndsLikeId3v1(data: Bytes) {
    |data| >= 128 && Range(data, |data| - 128, |data| - 125) == ID3V1_MARKER
  }

  function Mp3HashOf(data: Bytes): Option<AudioHash> {
    var start := TagSize(Range(data, 0, 10));
    var end := if EndsLikeId3v1(data) then |data| - 128 else |data|;
    if end <= start then None else Some(AudioSha256(data[start..end]))
  }

  // ---- The parsers ----

  /** An open file: reading moves the position, and seeking may go past the end. */
  class Handle {
    const data: Bytes
    var pos: nat

    constructor (data: Bytes)
      ensures this.data == data && pos == 0
    {
      this.data, pos := data, 0;
    }

    method Read(n: nat) returns (bytes: Bytes)
      modifies this
      ensures bytes == Range(data, old(pos), old(pos) + n) && pos == old(pos) + |bytes|
    {
      bytes := data[Min(pos, |data|)..Min(pos + n, |data|)];
      pos := pos + |bytes|;
    }

    method Seek(to: nat)
      modifies this
      ensures pos == to
    {
      pos := to;
    }
  }

  method Id3v2Size(head: Bytes) returns (size: nat)
    ensures size == TagSize(head)
  {
    if |head| < 10 || head[..3] != ID3V2_MARKER {
      return 0;
    }
    var body: nat := 0;
    var bytes := head[6..10];
    for k := 0 to |bytes|
      invariant body == Syncsafe(bytes[..k])
    {
      assert bytes[..k + 1][..k] == bytes[..k];
      body := body * 128 + bytes[k] % 128;
    }
    assert bytes[..4] == bytes;
    var footer: nat := if head[5] / 16 % 2 == 1 then 10 else 0;
    return 10 + body + footer;
  }

  /** One metadata block: its header, its body when it is STREAMINFO, and a seek past it. */
  method ReadBlock(file: Handle, md5: nat) returns (read: Option<BlockRead>)
    modifies file
    ensures read == BlockAt(file.data, old(file.pos), md5)
    ensures read.Some? ==> file.pos == read.value.next
  {
    ghost var start := file.pos;
    var header := file.Read(4);
    if |header| < 4 {
      return None;
    }
    assert header == file.data[start..start + 4];
    var last := header[0] >= 128;
    var length := BigEndian(header[1..]);
    var bodyStart := file.pos;
    var stored := md5;
    if header[0] % 128 == 0 {
      var body := file.Read(length);
      if |body| < length {
        return None;
      }
      assert body == file.data[bodyStart..bodyStart + length];
      stored := BodyMd5(body);
    }
    file.Seek(bodyStart + length);
    return Some(BlockRead(bodyStart + length, stored, last));
  }

  method ReadLayout(file: Handle) returns (layout: Option<FlacLayout>)
    requires file.pos == 0
    modifies file
    ensures layout == LayoutOf(file.data)
  {
    var head := file.Read(10);
    var start := Id3v2Size(head);
    file.Seek(start);
    var marker := file.Read(4);
    if marker != FLAC_MARKER {
      return None;
    }
    var md5, last := 0, false;
    while !last
      invariant LayoutOf(file.data)
        == if last then Some(FlacLayout(file.pos, md5)) else LayoutFrom(file.data, file.pos, md5)
      decreases !last, |file.data| - file.pos
    {
      var read := ReadBlock(file, md5);
      if read.None? {
        return None;
      }
      md5, last := read.value.md5, read.value.last;
    }
    return Some(FlacLayout(file.pos, md5));
  }

  lemma {:induction false} RangeExtends(data: Bytes, start: nat, at: nat, n: nat, before: Bytes, chunk: Bytes)
    requires start <= at && before == Range(data, start, at) && |before| == at - start
    requires chunk == Range(data, at, at + n)
    ensures before + chunk == Range(data, start, at + |chunk|) && |chunk| <= n
  {
  }

  /** Reading nothing more means that the range ended with the file. */
  lemma {:induction false} RangeEnded(data: Bytes, start: nat, at: nat, n: nat, end: nat)
    requires start <= at && 0 < n && at + n <= end && Range(data, at, at + n) == []
    ensures Range(data, start, end) == Range(data, start, at)
  {
  }

  /** The fingerprint over the bytes [start, end), read in chunks. */
  method Sha256OfRange(file: Handle, start: nat, end: nat) returns (hash: Option<AudioHash>)
    modifies file
    ensures hash == if end <= start then None else Some(AudioSha256(Range(file.data, start, end)))
  {
    if end <= start {
      return None;
    }
    var digested: Bytes := [];
    file.Seek(start);
    var remaining := end - start;
    while remaining > 0
      invariant 0 <= remaining <= end - start
      invariant file.pos == start + |digested|
      invariant |digested| == end - start - remaining
      invariant digested == Range(file.data, start, start + |digested|)
    {
      var chunk := file.Read(Min(READ_CHUNK, remaining));
      if chunk == [] {
        RangeEnded(file.data, start, start + |digested|, Min(READ_CHUNK, remaining), end);
        return Some(AudioSha256(digested));
      }
      RangeExtends(file.data, start, start + |digested|, Min(READ_CHUNK, remaining), digested, chunk);
      digested := digested + chunk;
      remaining := remaining - |chunk|;
    }
    return Some(AudioSha256(digested));
  }

  method FlacHash(file: Handle) returns (hash: Option<AudioHash>)
    requires file.pos == 0
    modifies file
    ensures hash == FlacHashOf(file.data)
  {
    var layout := ReadLayout(file);
    if layout.None? || layout.value.framesOffset >= |file.data| {
      return None;
    }
    if layout.value.storedMd5 != 0 {
      return Some(FlacMd5(layout.value.storedMd5));
    }
    hash := Sha256OfRange(file, layout.value.framesOffset, |file.data|);
    assert Range(file.data, layout.value.framesOffset, |file.data|) == file.data[layout.value.framesOffset..];
  }

  method Mp3AudioEnd(file: Handle) returns (end: nat)
    modifies file
    ensures end == if EndsLikeId3v1(file.data) then |file.data| - 128 else |file.data|
  {
    if |file.data| < 128 {
      return |file.data|;
    }
    file.Seek(|file.data| - 128);
    var marker := file.Read(3);
    return if marker == ID3V1_MARKER then |file.data| - 128 else |file.data|;
  }

  method Mp3Hash(file: Handle) returns (hash: Option<AudioHash>)
    requires file.pos == 0
    modifies file
    ensures hash == Mp3HashOf(file.data)
  {
    var head := file.Read(10);
    var start := Id3v2Size(head);
    var end := Mp3AudioEnd(file);
    hash := Sha256OfRange(file, start, end);
  }

  method ComputeAudioHash(format: Format, data: Bytes) returns (hash: Option<AudioHash>)
    ensures hash == match format case Flac => FlacHashOf(data) case Mp3 => Mp3HashOf(data) case OtherFormat => None
  {
    var file := new Handle(data);
    match format
    case Flac => hash := FlacHash(file);
    case Mp3 => hash := Mp3Hash(file);
    case OtherFormat => return None;
  }

  // ---- Tags, as their formats write them ----

  function SyncsafeBytes(n: nat): Bytes
    requires n < 0x1000_0000
  {
    [n / 0x20_0000, n / 0x4000 % 128, n / 128 % 128, n % 128]
  }

  /** An ID3v2 tag: its version, its flags, its body, and the footer when the flags announce one. */
  datatype Id3v2Tag = Id3v2Tag(major: Byte, revision: Byte, flags: Byte, body: Bytes, footer: Bytes) {
    ghost predicate Valid() {
      |body| < 0x1000_0000 && |footer| == if flags / 16 % 2 == 1 then 10 else 0
    }

    function Written(): Bytes
      requires |body| < 0x1000_0000
    {
      ID3V2_MARKER + [major, revision, flags] + SyncsafeBytes(|body|) + body + footer
    }
  }

  lemma {:induction false} SyncsafeOfFour(a: Byte, b: Byte, c: Byte, d: Byte)
    ensures Syncsafe([a, b, c, d]) == ((a % 128 * 128 + b % 128) * 128 + c % 128) * 128 + d % 128
  {
    assert [a, b, c, d][..3] == [a, b, c] && [a, b, c][..2] == [a, b] && [a, b][..1] == [a] && [a][..0] == [];
    assert Syncsafe([a]) == a % 128;
    assert Syncsafe([a, b]) == a % 128 * 128 + b % 128;
    assert Syncsafe([a, b, c]) == (a % 128 * 128 + b % 128) * 128 + c % 128;
  }

  lemma {:induction false} HigherDigits(n: nat)
    ensures n / 0x4000 == n / 128 / 128 && n / 0x20_0000 == n / 0x4000 / 128
  {
  }

  lemma {:induction false} SyncsafeRoundTrip(n: nat)
    requires n < 0x1000_0000
    ensures Syncsafe(SyncsafeBytes(n)) == n
  {
    var third := n / 128;
    var second := third / 128;
    var first := second / 128;
    HigherDigits(n);
    SyncsafeOfFour(first, second % 128, third % 128, n % 128);
    assert first * 128 + second % 128 == second && first % 128 == first;
    assert second * 128 + third % 128 == third && third * 128 + n % 128 == n;
  }

  /** A tag at the start of a file is measured exactly, whatever follows it. */
  lemma {:induction false} TagIsMeasured(tag: Id3v2Tag, rest: Bytes)
    requires tag.Valid()
    ensures TagSize(Range(tag.Written() + rest, 0, 10)) == |tag.Written()|
  {
    var data := tag.Written() + rest;
    var head := Range(data, 0, 10);
    assert head == ID3V2_MARKER + [tag.major, tag.revision, tag.flags] + SyncsafeBytes(|tag.body|);
    assert head[6..10] == SyncsafeBytes(|tag.body|);
    SyncsafeRoundTrip(|tag.body|);
  }

  // ---- MP3: the hash covers the audio and nothing else ----

  /** A leading tag, or none. */
  function Leading(tag: Option<Id3v2Tag>): Bytes
    requires tag.Some? ==> tag.value.Valid()
  {
    if tag.Some? then tag.value.Written() else []
  }

  ghost predicate IsTrailer(trailer: Bytes) {
    trailer == [] || (|trailer| == 128 && trailer[..3] == ID3V1_MARKER)
  }

  predicate StartsLikeId3v2(data: Bytes) {
    |data| >= 10 && data[..3] == ID3V2_MARKER
  }

  lemma {:induction false} LeadingIsMeasured(tag: Option<Id3v2Tag>, rest: Bytes)
    requires tag.Some? ==> tag.value.Valid()
    ensures TagSize(Range(Leading(tag) + rest, 0, 10)) == |Leading(tag)|
      <==> (tag.None? ==> !StartsLikeId3v2(rest))
    ensures TagSize(Range(Leading(tag) + rest, 0, 10)) >= |Leading(tag)|
  {
    if tag.Some? {
      TagIsMeasured(tag.value, rest);
    } else {
      assert Leading(tag) + rest == rest;
      if |rest| >= 10 {
        assert Range(rest, 0, 10)[..3] == rest[..3];
      }
    }
  }

  lemma {:induction false} TrailerIsFound(before: Bytes, trailer: Bytes)
    requires |trailer| == 128 && trailer[..3] == ID3V1_MARKER
    ensures EndsLikeId3v1(before + trailer)
  {
    var data := before + trailer;
    assert Range(data, |data| - 128, |data| - 125) == trailer[..3];
  }

  /** A narrower range of a file is the whole of a wider one only when it is that one. */
  /** Data ends like an ID3v1 tag exactly when such a tag is what it ends with. */
  lemma {:induction false} TrailerIsThere(data: Bytes)
    ensures EndsLikeId3v1(data)
      <==> exists before: Bytes, trailer: Bytes ::
             |trailer| == 128 && ID3V1_MARKER <= trailer && data == before + trailer
  {
    if EndsLikeId3v1(data) {
      var before, trailer := data[..|data| - 128], data[|data| - 128..];
      assert data == before + trailer;
      assert Range(data, |data| - 128, |data| - 125) == trailer[..3];
    } else if before: Bytes, trailer: Bytes
      :| |trailer| == 128 && ID3V1_MARKER <= trailer && data == before + trailer {
      TrailerIsFound(before, trailer);
    }
  }

  lemma {:induction false} NarrowerRange(data: Bytes, from: nat, to: nat, start: nat, end: nat)
    requires from <= start <= end <= to <= |data|
    ensures data[start..end] == data[from..to] <==> start == from && end == to
  {
    assert |data[start..end]| == end - start && |data[from..to]| == to - from;
  }

  /** Where the hashed range lies, by what the file looks like. */
  lemma {:induction false} Mp3Range(tag: Option<Id3v2Tag>, audio: Bytes, trailer: Bytes, data: Bytes)
    requires tag.Some? ==> tag.value.Valid()
    requires IsTrailer(trailer) && data == Leading(tag) + audio + trailer
    ensures
      var start := TagSize(Range(data, 0, 10));
      && start >= |Leading(tag)|
      && (start == |Leading(tag)| <==> (tag.None? ==> !StartsLikeId3v2(data)))
    ensures trailer != [] ==> EndsLikeId3v1(data)
  {
    var head := Leading(tag);
    assert data == head + (audio + trailer);
    LeadingIsMeasured(tag, audio + trailer);
    if tag.None? {
      assert data == audio + trailer;
    }
    if trailer != [] {
      assert data == (head + audio) + trailer;
      TrailerIsFound(head + audio, trailer);
    }
  }

  /** An MP3 fingerprint covers exactly its audio bytes if and only if what is not tagged does not
      itself look like a tag; without audio there is none. */
  lemma {:induction false} Mp3HashIsAudio(tag: Option<Id3v2Tag>, audio: Bytes, trailer: Bytes, data: Bytes)
    requires tag.Some? ==> tag.value.Valid()
    requires IsTrailer(trailer) && data == Leading(tag) + audio + trailer
    ensures audio == [] ==> Mp3HashOf(data) == None
    ensures audio != [] ==>
      (Mp3HashOf(data) == Some(AudioSha256(audio))
       <==> (tag.None? ==> !StartsLikeId3v2(data)) && (trailer == [] ==> !EndsLikeId3v1(data)))
  {
    var from, to := |Leading(tag)|, |Leading(tag)| + |audio|;
    var start, end := TagSize(Range(data, 0, 10)), if EndsLikeId3v1(data) then |data| - 128 else |data|;
    Mp3Range(tag, audio, trailer, data);
    assert data[from..to] == audio;
    if start < end {
      NarrowerRange(data, from, to, start, end);
    }
  }

  /** Untagged audio that starts like a tag is measured as one, and its first bytes are not covered. */
  lemma {:induction false} LookAlikeIsCut()
    ensures
      var audio := ID3V2_MARKER + [4, 0, 0, 0, 0, 0, 1, 7, 8, 9];
      Mp3HashOf(audio) == Some(AudioSha256([8, 9])) != Some(AudioSha256(audio))
  {
    var audio: Bytes := ID3V2_MARKER + [4, 0, 0, 0, 0, 0, 1, 7, 8, 9];
    var head := Range(audio, 0, 10);
    assert head == ID3V2_MARKER + [4, 0, 0] + SyncsafeBytes(1);
    assert head[6..10] == SyncsafeBytes(1);
    SyncsafeRoundTrip(1);
    assert TagSize(head) == 11 && audio[11..] == [8, 9] && audio[11..13] == audio[11..];
  }

  /** Adding, editing or removing tags around the same audio does not change its fingerprint. */
  lemma {:induction false} Mp3TagsDoNotMatter(tag: Option<Id3v2Tag>, trailer: Bytes, data: Bytes,
                           otherTag: Option<Id3v2Tag>, otherTrailer: Bytes, other: Bytes, audio: Bytes)
    requires tag.Some? ==> tag.value.Valid()
    requires otherTag.Some? ==> otherTag.value.Valid()
    requires IsTrailer(trailer) && data == Leading(tag) + audio + trailer
    requires IsTrailer(otherTrailer) && other == Leading(otherTag) + audio + otherTrailer
    requires (tag.None? ==> !StartsLikeId3v2(data)) && (trailer == [] ==> !EndsLikeId3v1(data))
    requires (otherTag.None? ==> !StartsLikeId3v2(other)) && (otherTrailer == [] ==> !EndsLikeId3v1(other))
    ensures Mp3HashOf(data) == Mp3HashOf(other)
  {
    Mp3HashIsAudio(tag, audio, trailer, data);
    Mp3HashIsAudio(otherTag, audio, otherTrailer, other);
  }

  // ---- FLAC: the block loop finds the frames and the MD5 ----

  datatype Block = Block(kind: nat, body: Bytes) {
    ghost predicate Valid() {
      kind < 128 && |body| < 0x100_0000
    }
  }

  function LengthBytes(n: nat): Bytes
    requires n < 0x100_0000
  {
    [n / 0x1_0000, n / 0x100 % 256, n % 256]
  }

  lemma {:induction false} LengthRoundTrip(n: nat)
    requires n < 0x100_0000
    ensures BigEndian(LengthBytes(n)) == n
  {
    var bytes := LengthBytes(n);
    assert bytes[..2][..1] == [bytes[0]] && bytes[..2] == [bytes[0], bytes[1]];
    assert BigEndian([bytes[0]]) == n / 0x1_0000;
    assert BigEndian(bytes[..2]) == n / 0x100;
  }

  function BlockBytes(block: Block, last: bool): Bytes
    requires block.kind < 128 && |block.body| < 0x100_0000
  {
    [block.kind + if last then 128 else 0] + LengthBytes(|block.body|) + block.body
  }

  ghost predicate ValidBlocks(blocks: seq<Block>) {
    forall k :: 0 <= k < |blocks| ==> blocks[k].Valid()
  }

  /** A metadata block list, the last block marked. */
  ghost function BlocksBytes(blocks: seq<Block>): Bytes
    requires ValidBlocks(blocks)
  {
    if blocks == [] then [] else BlockBytes(blocks[0], |blocks| == 1) + BlocksBytes(blocks[1..])
  }

  /** The MD5 of the last STREAMINFO block. */
  ghost function StreamMd5(blocks: seq<Block>, md5: nat): nat {
    if blocks == [] then md5
    else StreamMd5(blocks[1..], if blocks[0].kind == 0 then BodyMd5(blocks[0].body) else md5)
  }

  /** Some bytes stand at a position of a file. */
  ghost predicate At(data: Bytes, pos: nat, bytes: Bytes) {
    pos + |bytes| <= |data| && data[pos..pos + |bytes|] == bytes
  }

  lemma {:induction false} AtSplits(data: Bytes, pos: nat, a: Bytes, b: Bytes)
    requires At(data, pos, a + b)
    ensures At(data, pos, a) && At(data, pos + |a|, b)
  {
    var whole := data[pos..pos + |a + b|];
    assert whole[..|a|] == a && whole[|a|..] == b;
    assert data[pos..pos + |a|] == whole[..|a|];
    assert data[pos + |a|..pos + |a| + |b|] == whole[|a|..];
  }

  lemma {:induction false} BlockIsRead(data: Bytes, pos: nat, block: Block, last: bool, md5: nat)
    requires block.Valid() && At(data, pos, BlockBytes(block, last))
    ensures BlockAt(data, pos, md5)
      == Some(BlockRead(pos + 4 + |block.body|, if block.kind == 0 then BodyMd5(block.body) else md5, last))
  {
    var mark: Byte := block.kind + if last then 128 else 0;
    var length := LengthBytes(|block.body|);
    AtSplits(data, pos, [mark] + length, block.body);
    var header := data[pos..pos + 4];
    assert header == [mark] + length;
    assert header[1..] == length;
    LengthRoundTrip(|block.body|);
  }

  lemma {:induction false} LayoutGoesOn(data: Bytes, pos: nat, md5: nat, read: BlockRead)
    requires BlockAt(data, pos, md5) == Some(read)
    ensures LayoutFrom(data, pos, md5)
         == if read.last then Some(FlacLayout(read.next, read.md5)) else LayoutFrom(data, read.next, read.md5)
  {
  }

  /** What a list's first block adds to its bytes and its MD5. */
  lemma {:induction false} StreamMd5First(blocks: seq<Block>, md5: nat)
    requires ValidBlocks(blocks) && blocks != []
    ensures
      var stored := if blocks[0].kind == 0 then BodyMd5(blocks[0].body) else md5;
      StreamMd5(blocks, md5) == if |blocks| == 1 then stored else StreamMd5(blocks[1..], stored)
    ensures |BlocksBytes(blocks)|
         == 4 + |blocks[0].body| + if |blocks| == 1 then 0 else |BlocksBytes(blocks[1..])|
  {
    if |blocks| == 1 {
      assert blocks[1..] == [];
    }
  }

  /** The block loop reads back any metadata block list: the frames start right after it, and the
      MD5 is that of its last STREAMINFO block. */
  lemma {:induction false} BlocksAreRead(data: Bytes, pos: nat, blocks: seq<Block>, md5: nat)
    requires ValidBlocks(blocks) && blocks != [] && At(data, pos, BlocksBytes(blocks))
    ensures LayoutFrom(data, pos, md5) == Some(FlacLayout(pos + |BlocksBytes(blocks)|, StreamMd5(blocks, md5)))
    decreases |blocks|
  {
    var block, last := blocks[0], |blocks| == 1;
    var stored := if block.kind == 0 then BodyMd5(block.body) else md5;
    AtSplits(data, pos, BlockBytes(block, last), BlocksBytes(blocks[1..]));
    BlockIsRead(data, pos, block, last, md5);
    LayoutGoesOn(data, pos, md5, BlockRead(pos + 4 + |block.body|, stored, last));
    StreamMd5First(blocks, md5);
    if !last {
      BlocksAreRead(data, pos + 4 + |block.body|, blocks[1..], stored);
    }
  }

  lemma {:induction false} LayoutIsFound(data: Bytes, start: nat, blocks: seq<Block>)
    requires ValidBlocks(blocks) && blocks != []
    requires TagSize(Range(data, 0, 10)) == start && Range(data, start, start + 4) == FLAC_MARKER
    requires At(data, start + 4, BlocksBytes(blocks))
    ensures LayoutOf(data) == Some(FlacLayout(start + 4 + |BlocksBytes(blocks)|, StreamMd5(blocks, 0)))
  {
    BlocksAreRead(data, start + 4, blocks, 0);
  }

  lemma {:induction false} FlacTagIsMeasured(tag: Option<Id3v2Tag>, data: Bytes, head: Bytes, after: Bytes)
    requires tag.Some? ==> tag.value.Valid()
    requires head == Leading(tag) && data == head + FLAC_MARKER + after
    ensures TagSize(Range(data, 0, 10)) == |head|
  {
    var rest := FLAC_MARKER + after;
    assert data == head + rest;
    assert rest[..3][0] == 0x66;
    LeadingIsMeasured(tag, rest);
  }

  lemma {:induction false} MarkerIsFound(data: Bytes, head: Bytes, listed: Bytes, frames: Bytes)
    requires data == head + FLAC_MARKER + listed + frames
    ensures Range(data, |head|, |head| + 4) == FLAC_MARKER
    ensures At(data, |head| + 4, listed)
    ensures data[|head| + 4 + |listed|..] == frames
  {
  }

  /** A FLAC's fingerprint is its stored MD5, or else covers exactly its frames, whatever tag leads
      it and whatever its other metadata blocks hold. */
  lemma {:induction false} FlacHashIsAudio(tag: Option<Id3v2Tag>, blocks: seq<Block>, frames: Bytes, data: Bytes)
    requires tag.Some? ==> tag.value.Valid()
    requires ValidBlocks(blocks) && blocks != []
    requires data == Leading(tag) + FLAC_MARKER + BlocksBytes(blocks) + frames
    ensures FlacHashOf(data)
      == if frames == [] then None
         else if StreamMd5(blocks, 0) != 0 then Some(FlacMd5(StreamMd5(blocks, 0)))
         else Some(AudioSha256(frames))
  {
    var head, listed := Leading(tag), BlocksBytes(blocks);
    assert data == head + FLAC_MARKER + (listed + frames);
    FlacTagIsMeasured(tag, data, head, listed + frames);
    MarkerIsFound(data, head, listed, frames);
    LayoutIsFound(data, |head|, blocks);
  }

  /** A block list's STREAMINFO blocks alone. */
  ghost function StreamInfos(blocks: seq<Block>): seq<Block> {
    if blocks == [] then []
    else (if blocks[0].kind == 0 then [blocks[0]] else []) + StreamInfos(blocks[1..])
  }

  lemma {:induction false} OnlyStreamInfoMatters(blocks: seq<Block>, md5: nat)
    ensures StreamMd5(StreamInfos(blocks), md5) == StreamMd5(blocks, md5)
  {
    if blocks == [] {
    } else {
      OnlyStreamInfoMatters(blocks[1..], if blocks[0].kind == 0 then BodyMd5(blocks[0].body) else md5);
      if blocks[0].kind == 0 {
        assert StreamInfos(blocks)[1..] == StreamInfos(blocks[1..]);
      } else {
        assert StreamInfos(blocks) == StreamInfos(blocks[1..]);
      }
    }
  }

  /** Edits to the tag, and to the blocks before, between and after STREAMINFO, do not change a
      FLAC's fingerprint. */
  lemma {:induction false} FlacEditsDoNotMatter(tag: Option<Id3v2Tag>, blocks: seq<Block>, data: Bytes,
                             otherTag: Option<Id3v2Tag>, otherBlocks: seq<Block>, other: Bytes, frames: Bytes)
    requires tag.Some? ==> tag.value.Valid()
    requires otherTag.Some? ==> otherTag.value.Valid()
    requires ValidBlocks(blocks) && blocks != [] && ValidBlocks(otherBlocks) && otherBlocks != []
    requires data == Leading(tag) + FLAC_MARKER + BlocksBytes(blocks) + frames
    requires other == Leading(otherTag) + FLAC_MARKER + BlocksBytes(otherBlocks) + frames
    requires StreamInfos(blocks) == StreamInfos(otherBlocks)
    ensures FlacHashOf(data) == FlacHashOf(other)
  {
    FlacHashIsAudio(tag, blocks, frames, data);
    FlacHashIsAudio(otherTag, otherBlocks, frames, other);
    OnlyStreamInfoMatters(blocks, 0);
    OnlyStreamInfoMatters(otherBlocks, 0);
  }

  // ---- What is no FLAC ----

  lemma {:induction false} HeaderIsRead(data: Bytes, pos: nat, block: Block, last: bool, md5: nat)
    requires block.Valid() && pos + 4 <= |data| < pos + 4 + |block.body|
    requires data[pos..pos + 4] == BlockBytes(block, last)[..4]
    ensures BlockAt(data, pos, md5)
         == if block.kind == 0 then None else Some(BlockRead(pos + 4 + |block.body|, md5, last))
  {
    var header := data[pos..pos + 4];
    assert header[1..] == LengthBytes(|block.body|);
    LengthRoundTrip(|block.body|);
  }

  /** The block loop finds no frames in the file: it fails, or puts them past the end. */
  ghost predicate FramesNowhere(data: Bytes, pos: nat, md5: nat) {
    match LayoutFrom(data, pos, md5) case None => true case Some(layout) => layout.framesOffset >= |data|
  }

  /** A file ends before some bytes at a position do, and holds them as far as it goes. */
  ghost predicate EndsWithin(data: Bytes, pos: nat, bytes: Bytes) {
    pos <= |data| < pos + |bytes| && data[pos..] == bytes[..|data| - pos]
  }

  lemma {:induction false} EndsInEither(data: Bytes, pos: nat, first: Bytes, rest: Bytes)
    requires EndsWithin(data, pos, first + rest)
    ensures if |data| < pos + |first| then EndsWithin(data, pos, first)
            else At(data, pos, first) && EndsWithin(data, pos + |first|, rest)
  {
    if |data| >= pos + |first| {
      assert data[pos..pos + |first|] == data[pos..][..|first|];
      assert data[pos + |first|..] == data[pos..][|first|..];
    }
  }

  lemma {:induction false} EndedInBlock(data: Bytes, pos: nat, block: Block, last: bool, md5: nat)
    requires block.Valid() && EndsWithin(data, pos, BlockBytes(block, last))
    ensures FramesNowhere(data, pos, md5)
  {
    if pos + 4 <= |data| {
      assert data[pos..pos + 4] == data[pos..][..4] == BlockBytes(block, last)[..4];
      HeaderIsRead(data, pos, block, last, md5);
      assert BlockAt(data, pos + 4 + |block.body|, md5) == None;
    }
  }

  lemma {:induction false} NowhereAfter(data: Bytes, pos: nat, block: Block, md5: nat)
    requires block.Valid() && At(data, pos, BlockBytes(block, false))
    requires FramesNowhere(data, pos + 4 + |block.body|, if block.kind == 0 then BodyMd5(block.body) else md5)
    ensures FramesNowhere(data, pos, md5)
  {
    BlockIsRead(data, pos, block, false, md5);
  }

  lemma {:induction false} EndedInEither(
      data: Bytes, pos: nat, block: Block, last: bool, rest: Bytes, md5: nat, next: nat, stored: nat)
    requires block.Valid() && EndsWithin(data, pos, BlockBytes(block, last) + rest) && (last ==> rest == [])
    requires next == pos + 4 + |block.body| && stored == if block.kind == 0 then BodyMd5(block.body) else md5
    requires EndsWithin(data, next, rest) ==> FramesNowhere(data, next, stored)
    ensures FramesNowhere(data, pos, md5)
  {
    EndsInEither(data, pos, BlockBytes(block, last), rest);
    if |data| < next {
      EndedInBlock(data, pos, block, last, md5);
    } else {
      NowhereAfter(data, pos, block, md5);
    }
  }

  lemma {:induction false} EndedInBlocks(data: Bytes, pos: nat, blocks: seq<Block>, md5: nat)
    requires ValidBlocks(blocks) && blocks != [] && EndsWithin(data, pos, BlocksBytes(blocks))
    ensures FramesNowhere(data, pos, md5)
    decreases |blocks|
  {
    var block, rest, next := blocks[0], BlocksBytes(blocks[1..]), pos + 4 + |blocks[0].body|;
    var stored := if block.kind == 0 then BodyMd5(block.body) else md5;
    if |blocks| > 1 && EndsWithin(data, next, rest) {
      EndedInBlocks(data, next, blocks[1..], stored);
    }
    EndedInEither(data, pos, block, |blocks| == 1, rest, md5, next, stored);
  }

  /** A FLAC that ends within its metadata has no fingerprint, wherever it ends. */
  lemma {:induction false} CutFlacHasNoHash(tag: Option<Id3v2Tag>, blocks: seq<Block>, n: nat, data: Bytes)
    requires tag.Some? ==> tag.value.Valid()
    requires ValidBlocks(blocks) && blocks != [] && n < |BlocksBytes(blocks)|
    requires data == Leading(tag) + FLAC_MARKER + BlocksBytes(blocks)[..n]
    ensures FlacHashOf(data) == None
  {
    var head, listed := Leading(tag), BlocksBytes(blocks)[..n];
    FlacTagIsMeasured(tag, data, head, listed);
    assert data == head + FLAC_MARKER + listed + [];
    MarkerIsFound(data, head, listed, []);
    EndedInBlocks(data, |head| + 4, blocks, 0);
  }

  /** Nor has what does not have the marker after its tag, when it has one, or at its start. */
  lemma {:induction false} UnmarkedHasNoHash(tag: Option<Id3v2Tag>, rest: Bytes)
    requires tag.Some? ==> tag.value.Valid()
    requires tag.None? ==> !StartsLikeId3v2(rest)
    requires !(FLAC_MARKER <= rest)
    ensures FlacHashOf(Leading(tag) + rest) == None
  {
    var data, start := Leading(tag) + rest, |Leading(tag)|;
    LeadingIsMeasured(tag, rest);
    assert Range(data, start, start + 4) == if |rest| < 4 then rest else rest[..4];
  }

  // ---- What a STREAMINFO holds, and the markers ----

  /** A STREAMINFO body of the full length (section 8.2 of RFC 9639): eighteen bytes of stream facts, then
      the sixteen bytes of the MD5. */
  lemma {:induction false} StreamInfoMd5(facts: Bytes, md5: Bytes, more: Bytes)
    requires |facts| == 18 && |md5| == 16
    ensures BodyMd5(facts + md5 + more) == BigEndian(md5)
  {
    assert Range(facts + md5 + more, 18, 34) == md5;
  }

  /** The MD5 is none exactly when all its bytes are zero. */
  lemma {:induction false} ZeroMd5(md5: Bytes)
    ensures BigEndian(md5) == 0 <==> forall k :: 0 <= k < |md5| ==> md5[k] == 0
  {
    if md5 == [] {
    } else {
      var last := |md5| - 1;
      ZeroMd5(md5[..last]);
      assert forall k :: 0 <= k < last ==> md5[..last][k] == md5[k];
    }
  }

  /** The markers, letter by letter. */
  lemma {:induction false} MarkersSpell()
    ensures ID3V2_MARKER == ['I' as int, 'D' as int, '3' as int]
    ensures ID3V1_MARKER == ['T' as int, 'A' as int, 'G' as int]
    ensures FLAC_MARKER == ['f' as int, 'L' as int, 'a' as int, 'C' as int]
  {
  }
}
