/** UTF-8 (RFC 3629, section 3) as Python encodes and decodes it: strictly, or ignoring bytes
    that do not form a character. */
module Utf8 {
  import opened Wrappers

  type byte = x: int | 0 <= x < 256
  type CodePoint = x: int | 0 <= x < 0x11_0000
  /** A character UTF-8 can encode: not a surrogate. */
  type Scalar = x: int | 0 <= x < 0x11_0000 && !(0xD800 <= x < 0xE000)

  predicate IsSurrogate(c: CodePoint) {
    0xD800 <= c < 0xE000
  }

  /** A continuation byte carries the low six bits. */
  function Low(c: nat): byte {
    0x80 + c % 0x40
  }

  function EncodeOne(c: Scalar): (bytes: seq<byte>)
    ensures 1 <= |bytes| <= 4
  {
    if c < 0x80 then [c]
    else if c < 0x800 then [0xC0 + c / 0x40, Low(c)]
    else if c < 0x1_0000 then [0xE0 + c / 0x40 / 0x40, Low(c / 0x40), Low(c)]
    else [0xF0 + c / 0x40 / 0x40 / 0x40, Low(c / 0x40 / 0x40), Low(c / 0x40), Low(c)]
  }

  predicate IsContinuation(b: byte) {
    0x80 <= b < 0xC0
  }

  /** The value so far with one more continuation byte's six bits. */
  function Join(high: int, b: byte): int {
    high * 0x40 + b as int - 0x80
  }

  datatype Decoded = Decoded(c: Scalar, length: nat)

  /** The character at the head of `bytes`, when a well-formed one is there: no overlong form, no
      surrogate, nothing past the last code point. */
  function DecodeOne(bytes: seq<byte>): (decoded: Option<Decoded>)
    ensures decoded.Some? ==> 1 <= decoded.value.length <= |bytes|
  {
    if bytes == [] then None
    else if bytes[0] < 0x80 then Some(Decoded(bytes[0], 1))
    else if 0xC0 <= bytes[0] < 0xE0 && |bytes| >= 2 && IsContinuation(bytes[1]) then
      var c := Join(bytes[0] as int - 0xC0, bytes[1]);
      if c >= 0x80 then Some(Decoded(c, 2)) else None
    else if 0xE0 <= bytes[0] < 0xF0 && |bytes| >= 3 && IsContinuation(bytes[1]) && IsContinuation(bytes[2]) then
      var c := Join(Join(bytes[0] as int - 0xE0, bytes[1]), bytes[2]);
      if c >= 0x800 && !IsSurrogate(c) then Some(Decoded(c, 3)) else None
    else if 0xF0 <= bytes[0] < 0xF8 && |bytes| >= 4
            && IsContinuation(bytes[1]) && IsContinuation(bytes[2]) && IsContinuation(bytes[3]) then
      var c := Join(Join(Join(bytes[0] as int - 0xF0, bytes[1]), bytes[2]), bytes[3]);
      if 0x1_0000 <= c < 0x11_0000 then Some(Decoded(c, 4)) else None
    else None
  }

  function Encode(text: seq<Scalar>): seq<byte> {
    if text == [] then [] else EncodeOne(text[0]) + Encode(text[1..])
  }

  /** Strict decoding: every byte must belong to a character. */
  function Decode(bytes: seq<byte>): Option<seq<Scalar>>
    decreases |bytes|
  {
    if bytes == [] then Some([])
    else
      match DecodeOne(bytes)
      case None => None
      case Some(head) =>
        match Decode(bytes[head.length..])
        case None => None
        case Some(rest) => Some([head.c] + rest)
  }

  /** Decoding that skips bytes no character can be made of. */
  function DecodeIgnoring(bytes: seq<byte>): seq<Scalar>
    decreases |bytes|
  {
    if bytes == [] then []
    else
      match DecodeOne(bytes)
      case None => DecodeIgnoring(bytes[1..])
      case Some(head) => [head.c] + DecodeIgnoring(bytes[head.length..])
  }

  // ---- Round trips ----

  lemma {:induction false} DecodeOneEncoded(c: Scalar, rest: seq<byte>)
    ensures DecodeOne(EncodeOne(c) + rest) == Some(Decoded(c, |EncodeOne(c)|))
  {
    var bytes := EncodeOne(c) + rest;
    assert Join(c / 0x40, Low(c)) == c;
    if c < 0x80 {
      assert bytes[0] == c;
    } else if c < 0x800 {
      assert bytes[0] == 0xC0 + c / 0x40 && bytes[1] == Low(c);
    } else if c < 0x1_0000 {
      assert bytes[0] == 0xE0 + c / 0x40 / 0x40 && bytes[1] == Low(c / 0x40) && bytes[2] == Low(c);
    } else {
      assert bytes[0] == 0xF0 + c / 0x40 / 0x40 / 0x40;
      assert bytes[1] == Low(c / 0x40 / 0x40) && bytes[2] == Low(c / 0x40) && bytes[3] == Low(c);
    }
  }

  lemma {:induction false} DecodeHead(bytes: seq<byte>, c: Scalar, rest: seq<byte>, text: seq<Scalar>)
    requires bytes == EncodeOne(c) + rest && Decode(rest) == Some(text)
    ensures Decode(bytes) == Some([c] + text)
  {
    DecodeOneEncoded(c, rest);
    assert bytes[|EncodeOne(c)|..] == rest;
  }

  lemma {:induction false} DecodeFirst(text: seq<Scalar>, rest: seq<byte>, bytes: seq<byte>)
    requires text != [] && bytes == EncodeOne(text[0]) + rest && Decode(rest) == Some(text[1..])
    ensures Decode(bytes) == Some(text)
  {
    DecodeHead(bytes, text[0], rest, text[1..]);
    assert text == [text[0]] + text[1..];
  }

  lemma {:induction false} DecodeEncode(text: seq<Scalar>)
    ensures Decode(Encode(text)) == Some(text)
  {
    if text == [] {
    } else {
      DecodeEncode(text[1..]);
      DecodeFirst(text, Encode(text[1..]), Encode(text));
    }
  }

  lemma {:induction false} ContinuationsIgnored(bytes: seq<byte>)
    requires forall i :: 0 <= i < |bytes| ==> IsContinuation(bytes[i])
    ensures DecodeIgnoring(bytes) == []
  {
    if bytes == [] {
    } else {
      ContinuationsIgnored(bytes[1..]);
    }
  }

  /** A character cut short decodes to nothing. */
  lemma {:induction false} CutCharacterIgnored(c: Scalar, n: nat)
    requires n < |EncodeOne(c)|
    ensures DecodeIgnoring(EncodeOne(c)[..n]) == []
  {
    var cut := EncodeOne(c)[..n];
    ContinuationsIgnored(if n > 0 then cut[1..] else []);
  }

  /** How many whole characters of `text` fit in `room` bytes. */
  function Fitting(text: seq<Scalar>, room: nat): (n: nat)
    ensures n <= |text|
  {
    if text == [] || |EncodeOne(text[0])| > room then 0
    else 1 + Fitting(text[1..], room - |EncodeOne(text[0])|)
  }

  /** That many fit, and one more would not: the longest prefix that fits. */
  lemma {:induction false} FittingIsLongest(text: seq<Scalar>, room: nat, n: nat)
    requires n <= |text|
    ensures |Encode(text[..n])| <= room <==> n <= Fitting(text, room)
  {
    if n == 0 {
    } else {
      assert text[..n][1..] == text[1..][..n - 1];
      if |EncodeOne(text[0])| <= room {
        FittingIsLongest(text[1..], room - |EncodeOne(text[0])|, n - 1);
      }
    }
  }

  /** Some bytes, cut at `room` when there are more. */
  function Cut(bytes: seq<byte>, room: nat): seq<byte> {
    if room <= |bytes| then bytes[..room] else bytes
  }

  lemma {:induction false} CutAfterHead(head: seq<byte>, tail: seq<byte>, room: nat)
    requires |head| <= room
    ensures Cut(head + tail, room) == head + Cut(tail, room - |head|)
  {
  }

  lemma {:induction false} CutInHead(head: seq<byte>, tail: seq<byte>, room: nat)
    requires room < |head|
    ensures Cut(head + tail, room) == head[..room]
  {
  }

  /** A whole character at the head is kept. */
  lemma {:induction false} HeadKept(c: Scalar, rest: seq<byte>, bytes: seq<byte>)
    requires bytes == EncodeOne(c) + rest
    ensures DecodeIgnoring(bytes) == [c] + DecodeIgnoring(rest)
  {
    DecodeOneEncoded(c, rest);
    assert bytes[|EncodeOne(c)|..] == rest;
  }

  lemma {:induction false} FittingHead(text: seq<Scalar>, room: nat)
    requires text != [] && |EncodeOne(text[0])| <= room
    ensures
      var n := Fitting(text[1..], room - |EncodeOne(text[0])|);
      text[..Fitting(text, room)] == [text[0]] + text[1..][..n]
  {
  }

  /** Encoding, cutting at `room` bytes and decoding the rest keeps exactly the longest prefix
      of whole characters that fits. */
  lemma {:induction false} CutKeepsWholeCharacters(text: seq<Scalar>, room: nat)
    ensures DecodeIgnoring(Cut(Encode(text), room)) == text[..Fitting(text, room)]
  {
    if text == [] {
    } else {
      var head, tail := EncodeOne(text[0]), Encode(text[1..]);
      if |head| <= room {
        CutAfterHead(head, tail, room);
        HeadKept(text[0], Cut(tail, room - |head|), Cut(Encode(text), room));
        CutKeepsWholeCharacters(text[1..], room - |head|);
        FittingHead(text, room);
      } else {
        CutInHead(head, tail, room);
        CutCharacterIgnored(text[0], room);
      }
    }
  }

  // ---- What is not UTF-8 ----

  lemma {:induction false} JoinSplits(high: nat, b: byte)
    requires IsContinuation(b)
    ensures Join(high, b) >= 0 && Join(high, b) / 0x40 == high && Low(Join(high, b)) == b
  {
  }

  lemma {:induction false} TwoBytes(a: byte, b: byte, c: Scalar)
    requires 0xC0 <= a && IsContinuation(b)
    requires c == Join(a as int - 0xC0, b) && 0x80 <= c < 0x800
    ensures EncodeOne(c) == [a, b]
  {
    JoinSplits(a as int - 0xC0, b);
  }

  lemma {:induction false} ThreeBytes(a: byte, b: byte, d: byte, high: nat, c: Scalar)
    requires 0xE0 <= a && IsContinuation(b) && IsContinuation(d)
    requires high == Join(a as int - 0xE0, b) && c == Join(high, d) && 0x800 <= c < 0x1_0000
    ensures EncodeOne(c) == [a, b, d]
  {
    JoinSplits(a as int - 0xE0, b);
    JoinSplits(high, d);
  }

  lemma {:induction false} FourBytes(a: byte, b: byte, d: byte, e: byte, top: nat, high: nat, c: Scalar)
    requires 0xF0 <= a && IsContinuation(b) && IsContinuation(d) && IsContinuation(e)
    requires top == Join(a as int - 0xF0, b) && high == Join(top, d) && c == Join(high, e) && 0x1_0000 <= c
    ensures EncodeOne(c) == [a, b, d, e]
  {
    JoinSplits(a as int - 0xF0, b);
    JoinSplits(top, d);
    JoinSplits(high, e);
  }

  lemma {:induction false} DecodedIsEncoded(bytes: seq<byte>, c: Scalar, length: nat)
    requires DecodeOne(bytes) == Some(Decoded(c, length))
    ensures bytes[..length] == EncodeOne(c)
  {
    if length == 1 {
      assert bytes[..1] == [bytes[0]];
    } else if length == 2 {
      TwoBytes(bytes[0], bytes[1], c);
      assert bytes[..2] == [bytes[0], bytes[1]];
    } else if length == 3 {
      ThreeBytes(bytes[0], bytes[1], bytes[2], Join(bytes[0] as int - 0xE0, bytes[1]), c);
      assert bytes[..3] == [bytes[0], bytes[1], bytes[2]];
    } else {
      var top := Join(bytes[0] as int - 0xF0, bytes[1]);
      FourBytes(bytes[0], bytes[1], bytes[2], bytes[3], top, Join(top, bytes[2]), c);
      assert bytes[..4] == [bytes[0], bytes[1], bytes[2], bytes[3]];
    }
  }

  /** Strict decoding takes the encoding of a text and nothing else: no longer form of a character, no
      surrogate, no part of one. */
  lemma {:induction false} DecodeIsStrict(bytes: seq<byte>, text: seq<Scalar>)
    ensures Decode(bytes) == Some(text) <==> bytes == Encode(text)
    decreases |bytes|
  {
    DecodeEncode(text);
    if Decode(bytes) == Some(text) && bytes != [] {
      var head := DecodeOne(bytes).value;
      DecodedIsEncoded(bytes, head.c, head.length);
      DecodeIsStrict(bytes[head.length..], text[1..]);
      assert bytes == bytes[..head.length] + bytes[head.length..];
    }
  }

  lemma {:induction false} FirstThenRest(first: seq<byte>, others: seq<byte>, rest: seq<byte>)
    ensures (first + others) + rest == first + (others + rest)
  {
  }

  lemma {:induction false} ReadFirst(text: seq<Scalar>, tail: seq<byte>, bytes: seq<byte>, read: seq<Scalar>)
    requires text != [] && bytes == EncodeOne(text[0]) + tail && DecodeIgnoring(tail) == text[1..] + read
    ensures DecodeIgnoring(bytes) == text + read
  {
    HeadKept(text[0], tail, bytes);
    assert text == [text[0]] + text[1..];
  }

  lemma {:induction false} TextRead(text: seq<Scalar>, rest: seq<byte>)
    ensures DecodeIgnoring(Encode(text) + rest) == text + DecodeIgnoring(rest)
  {
    if text == [] {
      assert Encode(text) + rest == rest;
    } else {
      TextRead(text[1..], rest);
      FirstThenRest(EncodeOne(text[0]), Encode(text[1..]), rest);
      ReadFirst(text, Encode(text[1..]) + rest, Encode(text) + rest, DecodeIgnoring(rest));
    }
  }

  /** A byte no character starts with is left out, and what stands around it is read. */
  lemma {:induction false} StrayByteIgnored(text: seq<Scalar>, stray: byte, more: seq<Scalar>)
    requires IsContinuation(stray) || stray >= 0xF8
    ensures DecodeIgnoring(Encode(text) + ([stray] + Encode(more))) == text + more
  {
    var rest := [stray] + Encode(more);
    TextRead(text, rest);
    assert rest[1..] == Encode(more);
    TextRead(more, []);
    assert Encode(more) + [] == Encode(more);
  }

  /** One character of each length, as section 7 of RFC 3629 and the code charts have them. */
  lemma {:induction false} EncodedExamples()
    ensures EncodeOne(0x41) == [0x41] && EncodeOne(0xE9) == [0xC3, 0xA9]
    ensures EncodeOne(0x2262) == [0xE2, 0x89, 0xA2] && EncodeOne(0x233B4) == [0xF0, 0xA3, 0x8E, 0xB4]
  {
  }
}
