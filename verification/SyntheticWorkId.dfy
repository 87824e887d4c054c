/** Synthetic work ids (backend/domain/synthetic_work_id.py): an artist id and a track title in
    unpadded base64url (RFC 4648, sections 3.2 and 5) of their UTF-8.

    Decoding follows Python's lenient base64 reader: it skips characters outside the alphabet,
    takes both alphabets' last two symbols, and stops at a complete pad sequence. */
module SyntheticWorkId {
  import opened Wrappers
  import opened Utf8

  /** A string as Python has it: code points, lone surrogates included. */
  type Text = seq<CodePoint>

  const COLON := 58
  const PAD: byte := 61
  /** "syn_". */
  const PREFIX: Text := [115, 121, 110, 95]

  // ---- Base64 ----

  type Sextet = x: int | 0 <= x < 64

  function Symbol(v: Sextet): byte {
    if v < 26 then 65 + v
    else if v < 52 then 97 + v - 26
    else if v < 62 then 48 + v - 52
    else if v == 62 then 45
    else 95
  }

  function ValueOf(symbol: byte): Option<Sextet> {
    if 65 <= symbol < 91 then Some(symbol as int - 65)
    else if 97 <= symbol < 123 then Some(symbol as int - 97 + 26)
    else if 48 <= symbol < 58 then Some(symbol as int - 48 + 52)
    else if symbol == 45 || symbol == 43 then Some(62)
    else if symbol == 95 || symbol == 47 then Some(63)
    else None
  }

  /** Padded encoding: three bytes to four symbols. */
  function Encode64(bytes: seq<byte>): seq<byte> {
    if bytes == [] then []
    else if |bytes| == 1 then [Symbol(bytes[0] / 4), Symbol(bytes[0] % 4 * 16), PAD, PAD]
    else if |bytes| == 2 then
      [Symbol(bytes[0] / 4), Symbol(bytes[0] % 4 * 16 + bytes[1] / 16), Symbol(bytes[1] % 16 * 4), PAD]
    else
      [Symbol(bytes[0] / 4), Symbol(bytes[0] % 4 * 16 + bytes[1] / 16),
       Symbol(bytes[1] % 16 * 4 + bytes[2] / 64), Symbol(bytes[2] % 64)] + Encode64(bytes[3..])
  }

  function StripPads(symbols: seq<byte>): seq<byte> {
    if symbols != [] && symbols[|symbols| - 1] == PAD then StripPads(symbols[..|symbols| - 1]) else symbols
  }

  /** The byte that symbol `quad` of a group completes. */
  function Completed(quad: nat, left: nat, v: Sextet): byte
    requires 1 <= quad < 4 && left < 64
  {
    if quad == 1 then (left * 4 + v / 16) % 256
    else if quad == 2 then (left * 16 + v / 4) % 256
    else (left * 64 + v) % 256
  }

  /** The bits it leaves for the next. */
  function Left(quad: nat, v: Sextet): (left: nat)
    requires 1 <= quad < 4
    ensures left < 64
  {
    if quad == 1 then v % 16 else if quad == 2 then v % 4 else 0
  }

  /** The reader in the middle of a group: `quad` symbols of it read, the last one's unused bits
      in `left`, and `pads` pad characters since. */
  function Decode64(symbols: seq<byte>, quad: nat, left: nat, pads: nat): Option<seq<byte>>
    requires quad < 4 && left < 64
  {
    if symbols == [] then (if quad == 0 then Some([]) else None)
    else if symbols[0] == PAD then
      if quad >= 2 && quad + pads + 1 >= 4 then Some([])
      else Decode64(symbols[1..], quad, left, if quad >= 2 then pads + 1 else pads)
    else
      match ValueOf(symbols[0])
      case None => Decode64(symbols[1..], quad, left, pads)
      case Some(v) =>
        if quad == 0 then Decode64(symbols[1..], 1, v, 0)
        else
          match Decode64(symbols[1..], (quad + 1) % 4, Left(quad, v), 0)
          case None => None
          case Some(rest) => Some([Completed(quad, left, v)] + rest)
  }

  function Pads(n: nat): (pads: seq<byte>)
    ensures |pads| == n && forall i :: 0 <= i < n ==> pads[i] == PAD
  {
    if n == 0 then [] else [PAD] + Pads(n - 1)
  }

  // ---- The codec ----

  /** The text as characters; None when it holds a lone surrogate, which UTF-8 refuses. */
  function Characters(text: Text): (characters: Option<seq<Scalar>>)
    ensures characters.Some? ==> characters.value == text
  {
    if forall i :: 0 <= i < |text| ==> !IsSurrogate(text[i]) then
      Some(seq(|text|, i requires 0 <= i < |text| && !IsSurrogate(text[i]) => text[i]))
    else None
  }

  /** `encode`; None where the source raises for a lone surrogate. */
  function EncodeId(artistId: Text, title: Text): Option<Text> {
    match Characters(artistId + [COLON] + title)
    case None => None
    case Some(raw) => Some(PREFIX + StripPads(Encode64(Encode(raw))))
  }

  /** The symbols as bytes; None when one is not ASCII. */
  function Ascii(text: Text): (symbols: Option<seq<byte>>)
    ensures symbols.Some? ==> symbols.value == text
  {
    if forall i :: 0 <= i < |text| ==> text[i] < 128 then
      Some(seq(|text|, i requires 0 <= i < |text| && text[i] < 128 => text[i]))
    else None
  }

  function FirstColon(text: Text): (index: nat)
    ensures index <= |text| && (index < |text| ==> text[index] == COLON)
    ensures forall i :: 0 <= i < index ==> text[i] != COLON
  {
    if text == [] || text[0] == COLON then 0 else 1 + FirstColon(text[1..])
  }

  function SplitRaw(raw: Text): Option<(Text, Text)> {
    var colon := FirstColon(raw);
    if colon == |raw| then None else Some((raw[..colon], raw[colon + 1..]))
  }

  /** The symbols padded again, read back to text and split at its first colon. */
  function DecodeSymbols(symbols: seq<byte>): Option<(Text, Text)> {
    match Decode64(symbols + Pads((4 - |symbols| % 4) % 4), 0, 0, 0)
    case None => None
    case Some(bytes) =>
      match Decode(bytes)
      case None => None
      case Some(raw) => SplitRaw(raw)
  }

  function DecodeId(workId: Text): Option<(Text, Text)> {
    if !(PREFIX <= workId) then None
    else
      match Ascii(workId[|PREFIX|..])
      case None => None
      case Some(symbols) => DecodeSymbols(symbols)
  }

  // ---- Round trips ----

  /** The encoding without its pads. */
  function Core(bytes: seq<byte>): seq<byte> {
    if bytes == [] then []
    else if |bytes| == 1 then [Symbol(bytes[0] / 4), Symbol(bytes[0] % 4 * 16)]
    else if |bytes| == 2 then
      [Symbol(bytes[0] / 4), Symbol(bytes[0] % 4 * 16 + bytes[1] / 16), Symbol(bytes[1] % 16 * 4)]
    else
      [Symbol(bytes[0] / 4), Symbol(bytes[0] % 4 * 16 + bytes[1] / 16),
       Symbol(bytes[1] % 16 * 4 + bytes[2] / 64), Symbol(bytes[2] % 64)] + Core(bytes[3..])
  }

  /** One, two or three bytes in the last group need two, one or no pads. */
  function PadsFor(bytes: nat): nat {
    (3 - bytes % 3) % 3
  }

  /** A whole group changes neither what is missing of the last one nor its pads. */
  lemma {:induction false} WholeGroup(symbols: nat, bytes: nat)
    ensures (4 - (4 + symbols) % 4) % 4 == (4 - symbols % 4) % 4 && PadsFor(bytes + 3) == PadsFor(bytes)
  {
    assert (4 + symbols) % 4 == symbols % 4 && (bytes + 3) % 3 == bytes % 3;
  }

  lemma {:induction false} CoreLength(bytes: seq<byte>)
    ensures (4 - |Core(bytes)| % 4) % 4 == PadsFor(|bytes|)
  {
    if |bytes| >= 3 {
      CoreLength(bytes[3..]);
      WholeGroup(|Core(bytes[3..])|, |bytes[3..]|);
    }
  }

  lemma {:induction false} CoreSymbols(bytes: seq<byte>)
    ensures forall i :: 0 <= i < |Core(bytes)| ==> Core(bytes)[i] != PAD && Core(bytes)[i] < 128
  {
    if |bytes| >= 3 {
      CoreSymbols(bytes[3..]);
    }
  }

  /** Three bytes or more: four symbols, the same with and without pads, then the rest. */
  lemma {:induction false} GroupFirst(bytes: seq<byte>, rest: seq<byte>)
    requires |bytes| >= 3 && rest == bytes[3..]
    ensures |Core(bytes)| >= 4 && Core(bytes) == Core(bytes)[..4] + Core(rest)
    ensures Encode64(bytes) == Core(bytes)[..4] + Encode64(rest)
  {
  }

  lemma {:induction false} EncodeIsCore(bytes: seq<byte>)
    ensures Encode64(bytes) == Core(bytes) + Pads(PadsFor(|bytes|))
  {
    assert Pads(1) == [PAD] && Pads(2) == [PAD, PAD];
    if |bytes| >= 3 {
      var rest := bytes[3..];
      EncodeIsCore(rest);
      WholeGroup(|Core(rest)|, |rest|);
      GroupFirst(bytes, rest);
      assert Core(bytes)[..4] + (Core(rest) + Pads(PadsFor(|rest|))) == Core(bytes) + Pads(PadsFor(|rest|));
    }
  }

  lemma {:induction false} StripPadsOf(core: seq<byte>, n: nat)
    requires forall i :: 0 <= i < |core| ==> core[i] != PAD
    ensures StripPads(core + Pads(n)) == core
  {
    var padded := core + Pads(n);
    if n == 0 {
      assert padded == core;
    } else {
      assert padded[..|padded| - 1] == core + Pads(n - 1);
      StripPadsOf(core, n - 1);
    }
  }

  /** Reading one more symbol. */
  lemma {:induction false} ReadSymbol(symbols: seq<byte>, v: Sextet, quad: nat, left: nat, more: seq<byte>)
    requires quad < 4 && left < 64 && symbols != [] && symbols[0] == Symbol(v)
    requires Decode64(symbols[1..], (quad + 1) % 4, if quad == 0 then v else Left(quad, v), 0) == Some(more)
    ensures Decode64(symbols, quad, left, 0) == Some(if quad == 0 then more else [Completed(quad, left, v)] + more)
  {
  }

  /** The bits of a group's second and third symbols. */
  lemma {:induction false} SecondBits(a: byte, b: byte)
    ensures Completed(1, a / 4, a % 4 * 16 + b / 16) == a && Left(1, a % 4 * 16 + b / 16) == b / 16
  {
  }

  lemma {:induction false} ThirdBits(b: byte, c: byte)
    ensures Completed(2, b / 16, b % 16 * 4 + c / 64) == b && Left(2, b % 16 * 4 + c / 64) == c / 64
  {
  }

  lemma {:induction false} FourthBits(c: byte)
    ensures Completed(3, c / 64, c % 64) == c && Left(3, c % 64) == 0
  {
  }

  /** The first two symbols of a group give its first byte. */
  lemma {:induction false} ReadFirst(symbols: seq<byte>, a: byte, b: byte, more: seq<byte>)
    requires |symbols| >= 2 && symbols[0] == Symbol(a / 4) && symbols[1] == Symbol(a % 4 * 16 + b / 16)
    requires Decode64(symbols[2..], 2, b / 16, 0) == Some(more)
    ensures Decode64(symbols, 0, 0, 0) == Some([a] + more)
  {
    assert symbols[1..][1..] == symbols[2..];
    SecondBits(a, b);
    ReadSymbol(symbols[1..], a % 4 * 16 + b / 16, 1, a / 4, more);
    ReadSymbol(symbols, a / 4, 0, 0, [a] + more);
  }

  /** The third gives its second. */
  lemma {:induction false} ReadSecond(symbols: seq<byte>, b: byte, c: byte, more: seq<byte>)
    requires symbols != [] && symbols[0] == Symbol(b % 16 * 4 + c / 64)
    requires Decode64(symbols[1..], 3, c / 64, 0) == Some(more)
    ensures Decode64(symbols, 2, b / 16, 0) == Some([b] + more)
  {
    ThirdBits(b, c);
    ReadSymbol(symbols, b % 16 * 4 + c / 64, 2, b / 16, more);
  }

  /** The fourth gives its third. */
  lemma {:induction false} ReadThird(symbols: seq<byte>, c: byte, more: seq<byte>)
    requires symbols != [] && symbols[0] == Symbol(c % 64)
    requires Decode64(symbols[1..], 0, 0, 0) == Some(more)
    ensures Decode64(symbols, 3, c / 64, 0) == Some([c] + more)
  {
    FourthBits(c);
    ReadSymbol(symbols, c % 64, 3, c / 64, more);
  }

  lemma {:induction false} ReadGroup(symbols: seq<byte>, a: byte, b: byte, c: byte, more: seq<byte>)
    requires |symbols| >= 4 && symbols[0] == Symbol(a / 4) && symbols[1] == Symbol(a % 4 * 16 + b / 16)
    requires symbols[2] == Symbol(b % 16 * 4 + c / 64) && symbols[3] == Symbol(c % 64)
    requires Decode64(symbols[4..], 0, 0, 0) == Some(more)
    ensures Decode64(symbols, 0, 0, 0) == Some([a] + ([b] + ([c] + more)))
  {
    assert symbols[2..][1..] == symbols[3..] && symbols[3..][1..] == symbols[4..];
    ReadThird(symbols[3..], c, more);
    ReadSecond(symbols[2..], b, c, [c] + more);
    ReadFirst(symbols, a, b, [b] + ([c] + more));
  }

  /** A last group of one byte ends at its second pad, one of two bytes at its first. */
  lemma {:induction false} ReadPads()
    ensures Decode64([PAD, PAD], 2, 0, 0) == Some([]) && Decode64([PAD], 3, 0, 0) == Some([])
  {
    assert [PAD, PAD][1..] == [PAD];
  }

  lemma {:induction false} DecodeEncode64(bytes: seq<byte>)
    ensures Decode64(Encode64(bytes), 0, 0, 0) == Some(bytes)
  {
    var symbols := Encode64(bytes);
    ReadPads();
    if |bytes| == 1 {
      assert symbols[2..] == [PAD, PAD];
      ReadFirst(symbols, bytes[0], 0, []);
      assert bytes == [bytes[0]] + [];
    } else if |bytes| == 2 {
      assert symbols[2..][1..] == [PAD];
      ReadSecond(symbols[2..], bytes[1], 0, []);
      ReadFirst(symbols, bytes[0], bytes[1], [bytes[1]] + []);
      assert bytes == [bytes[0]] + ([bytes[1]] + []);
    } else if |bytes| >= 3 {
      DecodeEncode64(bytes[3..]);
      assert symbols[4..] == Encode64(bytes[3..]);
      ReadGroup(symbols, bytes[0], bytes[1], bytes[2], bytes[3..]);
      assert bytes == [bytes[0]] + ([bytes[1]] + ([bytes[2]] + bytes[3..]));
    }
  }

  /** An id is the prefix and the encoding's symbols, all of them ASCII. */
  lemma {:induction false} IdIsCore(artistId: Text, title: Text)
    requires EncodeId(artistId, title).Some?
    ensures
      var bytes := Encode(Characters(artistId + [COLON] + title).value);
      EncodeId(artistId, title).value == PREFIX + Core(bytes)
  {
    var bytes := Encode(Characters(artistId + [COLON] + title).value);
    EncodeIsCore(bytes);
    CoreSymbols(bytes);
    StripPadsOf(Core(bytes), PadsFor(|bytes|));
  }

  /** Reading symbols whose pads were stripped. */
  lemma {:induction false} DecodeCore(bytes: seq<byte>)
    ensures Ascii(Core(bytes)) == Some(Core(bytes))
    ensures Decode64(Core(bytes) + Pads((4 - |Core(bytes)| % 4) % 4), 0, 0, 0) == Some(bytes)
  {
    EncodeIsCore(bytes);
    CoreSymbols(bytes);
    CoreLength(bytes);
    DecodeEncode64(bytes);
  }

  lemma {:induction false} SymbolsSplit(symbols: seq<byte>, bytes: seq<byte>, text: seq<Scalar>)
    requires Decode64(symbols + Pads((4 - |symbols| % 4) % 4), 0, 0, 0) == Some(bytes)
    requires Decode(bytes) == Some(text)
    ensures DecodeSymbols(symbols) == SplitRaw(text)
  {
  }

  lemma {:induction false} CoreSplits(raw: Text, text: seq<Scalar>, bytes: seq<byte>, core: seq<byte>)
    requires Characters(raw) == Some(text) && bytes == Encode(text) && core == Core(bytes)
    ensures Ascii(core) == Some(core) && DecodeSymbols(core) == SplitRaw(raw)
  {
    DecodeCore(bytes);
    DecodeEncode(text);
    SymbolsSplit(core, bytes, text);
  }

  lemma {:induction false} DecodeIdOf(symbols: seq<byte>)
    requires Ascii(symbols) == Some(symbols)
    ensures DecodeId(PREFIX + symbols) == DecodeSymbols(symbols)
  {
    assert (PREFIX + symbols)[|PREFIX|..] == symbols;
  }

  /** Decoding gets back the text the id was made from, for all three padding classes. */
  lemma {:induction false} DecodeIdSplits(artistId: Text, title: Text)
    requires EncodeId(artistId, title).Some?
    ensures DecodeId(EncodeId(artistId, title).value) == SplitRaw(artistId + [COLON] + title)
    ensures FirstColon(artistId + [COLON] + title) <= |artistId|
  {
    var raw := artistId + [COLON] + title;
    var bytes := Encode(Characters(raw).value);
    IdIsCore(artistId, title);
    CoreSplits(raw, Characters(raw).value, bytes, Core(bytes));
    DecodeIdOf(Core(bytes));
    assert raw[|artistId|] == COLON;
  }

  /** `decode` undoes `encode` exactly for the artist ids without a colon, whatever the title. */
  lemma {:induction false} DecodeUndoesEncode(artistId: Text, title: Text)
    requires EncodeId(artistId, title).Some?
    ensures DecodeId(EncodeId(artistId, title).value) == Some((artistId, title)) <==> COLON !in artistId
  {
    var raw := artistId + [COLON] + title;
    var colon := FirstColon(raw);
    DecodeIdSplits(artistId, title);
    assert raw[|artistId|] == COLON;
    if COLON in artistId {
      var i :| 0 <= i < |artistId| && artistId[i] == COLON;
      assert raw[i] == COLON;
      assert |raw[..colon]| < |artistId|;
    } else {
      assert forall i :: 0 <= i < |artistId| ==> raw[i] == artistId[i];
      assert raw[..colon] == artistId && raw[colon + 1..] == title;
    }
  }

  /** An artist id with a colon decodes to other parts than it was made from. */
  lemma {:induction false} ColonIsLost()
    ensures EncodeId([COLON], []).Some? && DecodeId(EncodeId([COLON], []).value) == Some(([], [COLON]))
  {
    var raw: Text := [COLON] + [COLON] + [];
    assert raw[1..] == [COLON] && raw[1..][1..] == [];
    assert Characters([COLON]).Some? && Characters(raw).Some?;
    DecodeIdSplits([COLON], []);
    assert FirstColon(raw) == 0 && raw[..0] == [];
  }

  lemma {:induction false} SplitAtColon(raw: Text)
    requires FirstColon(raw) < |raw|
    ensures raw == raw[..FirstColon(raw)] + [COLON] + raw[FirstColon(raw) + 1..]
  {
  }

  lemma {:induction false} FirstColonIs(raw: Text, before: Text, after: Text)
    requires raw == before + [COLON] + after && COLON !in before
    ensures FirstColon(raw) == |before| && raw[..|before|] == before && raw[|before| + 1..] == after
  {
    assert raw[|before|] == COLON;
    forall i | 0 <= i < |before| ensures raw[i] != COLON {
      assert raw[i] == before[i];
    }
  }

  /** A text splits exactly at its first colon. */
  lemma {:induction false} SplitIs(raw: Text, parts: (Text, Text))
    ensures SplitRaw(raw) == Some(parts) <==> raw == parts.0 + [COLON] + parts.1 && COLON !in parts.0
  {
    if FirstColon(raw) < |raw| {
      SplitAtColon(raw);
    }
    if raw == parts.0 + [COLON] + parts.1 && COLON !in parts.0 {
      FirstColonIs(raw, parts.0, parts.1);
    }
  }

  /** Two songs get the same id exactly when their joined texts are the same, so for artist ids
      without a colon never. */
  lemma {:induction false} EncodeInjective(a: Text, s: Text, b: Text, t: Text)
    requires EncodeId(a, s).Some? && EncodeId(b, t).Some?
    ensures EncodeId(a, s) == EncodeId(b, t) <==> a + [COLON] + s == b + [COLON] + t
    ensures COLON !in a && COLON !in b && EncodeId(a, s) == EncodeId(b, t) ==> a == b && s == t
  {
    DecodeIdSplits(a, s);
    DecodeIdSplits(b, t);
    SplitAtColon(a + [COLON] + s);
    SplitAtColon(b + [COLON] + t);
    if COLON !in a && COLON !in b {
      DecodeUndoesEncode(a, s);
      DecodeUndoesEncode(b, t);
    }
  }

  // ---- The alphabet and an example ----

  /** The symbols are those of the URL-safe alphabet, in its order: letters, small letters, digits, "-"
      and "_". */
  lemma {:induction false} SymbolsAreUrlSafe(v: Sextet)
    ensures Symbol(0) as int == 'A' as int && Symbol(26) as int == 'a' as int && Symbol(52) as int == '0' as int
    ensures Symbol(62) as int == '-' as int && Symbol(63) as int == '_' as int
    ensures v + 1 < 62 && v + 1 !in {26, 52} ==> Symbol(v + 1) as int == Symbol(v) as int + 1
  {
  }

  /** The id of artist "a" and title "b": the prefix, and "a:b" in base64. */
  lemma {:induction false} IdOfAB()
    ensures EncodeId([97], [98]) == Some([115, 121, 110, 95] + [89, 84, 112, 105])
  {
    var raw: Text := [97] + [COLON] + [98];
    var characters: seq<Scalar> := [97, 58, 98];
    assert raw == characters;
    assert Characters(raw) == Some(characters);
    assert characters[1..] == [58, 98] && characters[1..][1..] == [98] && [98][1..] == [];
    assert EncodeOne(97) == [97] && EncodeOne(58) == [58] && EncodeOne(98) == [98];
    assert Encode([98]) == [98] && Encode([58, 98]) == [58, 98] && Encode(characters) == [97, 58, 98];
    var bytes: seq<byte> := [97, 58, 98];
    assert bytes[3..] == [];
    assert Encode64(bytes) == [89, 84, 112, 105];
    assert StripPads([89, 84, 112, 105]) == [89, 84, 112, 105];
  }

  // ---- Reading any id ----

  /** Both alphabets are read, and a character outside them has no value. */
  lemma {:induction false} BothAlphabetsRead(v: Sextet, symbol: byte)
    ensures ValueOf(Symbol(v)) == Some(v)
    ensures ValueOf('+' as int) == ValueOf('-' as int) && ValueOf('/' as int) == ValueOf('_' as int)
    ensures ValueOf(symbol).Some? ==>
      symbol == Symbol(ValueOf(symbol).value) || symbol as int in {'+' as int, '/' as int}
  {
  }

  /** A character outside the alphabets is passed over wherever it stands. */
  lemma {:induction false} JunkIsIgnored(
      before: seq<byte>, junk: byte, more: seq<byte>, quad: nat, left: nat, pads: nat)
    requires quad < 4 && left < 64 && junk != PAD && ValueOf(junk).None?
    ensures Decode64(before + [junk] + more, quad, left, pads) == Decode64(before + more, quad, left, pads)
  {
    if before == [] {
      assert before + [junk] + more == [junk] + more && before + more == more;
    } else {
      var head, rest := before[0], before[1..];
      assert (before + [junk] + more)[1..] == rest + [junk] + more && (before + more)[1..] == rest + more;
      if head == PAD {
        JunkIsIgnored(rest, junk, more, quad, left, if quad >= 2 then pads + 1 else pads);
      } else if ValueOf(head).None? {
        JunkIsIgnored(rest, junk, more, quad, left, pads);
      } else if quad == 0 {
        JunkIsIgnored(rest, junk, more, 1, ValueOf(head).value, 0);
      } else {
        JunkIsIgnored(rest, junk, more, (quad + 1) % 4, Left(quad, ValueOf(head).value), 0);
      }
    }
  }

  /** Symbols without padding are read exactly when they are whole groups of four. */
  lemma {:induction false} WholeGroupsOnly(symbols: seq<byte>, quad: nat, left: nat, pads: nat)
    requires quad < 4 && left < 64
    requires forall k :: 0 <= k < |symbols| ==> symbols[k] != PAD && ValueOf(symbols[k]).Some?
    ensures Decode64(symbols, quad, left, pads).Some? <==> (quad + |symbols|) % 4 == 0
  {
    if symbols == [] {
    } else if quad == 0 {
      WholeGroupsOnly(symbols[1..], 1, ValueOf(symbols[0]).value, 0);
    } else {
      WholeGroupsOnly(symbols[1..], (quad + 1) % 4, Left(quad, ValueOf(symbols[0]).value), 0);
    }
  }

  /** Padding that completes a group ends the id, whatever follows; at its start or after its first
      symbol it is passed over, and so is too little of it. */
  lemma {:induction false} PaddingEnds(more: seq<byte>, quad: nat, left: nat, pads: nat)
    requires quad < 4 && left < 64
    ensures quad == 3 ==> Decode64([PAD] + more, quad, left, pads) == Some([])
    ensures quad == 2 ==> Decode64([PAD, PAD] + more, quad, left, 0) == Some([])
    ensures quad < 2 ==> Decode64([PAD] + more, quad, left, pads) == Decode64(more, quad, left, pads)
    ensures quad == 2 && more != [] && more[0] != PAD && ValueOf(more[0]).Some? ==>
      Decode64([PAD] + more, quad, left, 0) == Decode64(more, quad, left, 0)
  {
    assert ([PAD] + more)[1..] == more;
    assert ([PAD, PAD] + more)[1..] == [PAD] + more;
  }

  lemma {:induction false} PadsPassedOver(n: nat, left: nat)
    requires left < 64
    ensures Decode64(Pads(n), 1, left, 0) == None
  {
    if n > 0 {
      PadsPassedOver(n - 1, left);
      PaddingEnds(Pads(n - 1), 1, left, 0);
    }
  }

  /** A lone symbol over whole groups makes an id unreadable, padded or not. */
  lemma {:induction false} LoneSymbol(symbols: seq<byte>, n: nat, quad: nat, left: nat)
    requires quad < 4 && left < 64 && (quad + |symbols|) % 4 == 1
    requires forall k :: 0 <= k < |symbols| ==> symbols[k] != PAD && ValueOf(symbols[k]).Some?
    ensures Decode64(symbols + Pads(n), quad, left, 0) == None
  {
    if symbols == [] {
      assert symbols + Pads(n) == Pads(n);
      PadsPassedOver(n, left);
    } else {
      var v := ValueOf(symbols[0]).value;
      assert (symbols + Pads(n))[1..] == symbols[1..] + Pads(n);
      LoneSymbol(symbols[1..], n, (quad + 1) % 4, if quad == 0 then v else Left(quad, v));
    }
  }

  /** An id that is not one reads as nothing: another prefix, a character that is not ASCII, or a lone
      symbol over whole groups. */
  lemma {:induction false} NotAnId(symbols: seq<byte>, workId: Text)
    ensures !(PREFIX <= workId) ==> DecodeId(workId) == None
    ensures (exists k :: |PREFIX| <= k < |workId| && workId[k] >= 128) ==> DecodeId(workId) == None
    ensures |symbols| % 4 == 1 && (forall k :: 0 <= k < |symbols| ==> symbols[k] < 128 && ValueOf(symbols[k]).Some?)
            ==> DecodeId(PREFIX + symbols) == None
  {
    if k :| |PREFIX| <= k < |workId| && workId[k] >= 128 {
      assert workId[|PREFIX|..][k - |PREFIX|] == workId[k];
    }
    if |symbols| % 4 == 1 && forall k :: 0 <= k < |symbols| ==> symbols[k] < 128 && ValueOf(symbols[k]).Some? {
      LoneSymbol(symbols, (4 - |symbols| % 4) % 4, 0, 0);
      assert (PREFIX + symbols)[|PREFIX|..] == symbols;
    }
  }

  lemma {:induction false} IdIsSplit(bytes: seq<byte>)
    ensures DecodeId(PREFIX + StripPads(Encode64(bytes)))
         == match Decode(bytes) case None => None case Some(text) => SplitRaw(text)
  {
    EncodeIsCore(bytes);
    CoreSymbols(bytes);
    StripPadsOf(Core(bytes), PadsFor(|bytes|));
    DecodeCore(bytes);
    DecodeIdOf(Core(bytes));
  }

  /** An id over the encoding of some bytes is read exactly when they are the UTF-8 of a text that holds
      a colon; it is read as the parts before and after the first. */
  lemma {:induction false} BytesOfAnId(bytes: seq<byte>, parts: (Text, Text))
    ensures DecodeId(PREFIX + StripPads(Encode64(bytes))) == Some(parts)
      <==> COLON !in parts.0
           && exists text: seq<Scalar> :: bytes == Encode(text) && text == parts.0 + [COLON] + parts.1
  {
    IdIsSplit(bytes);
    if text: seq<Scalar> :| bytes == Encode(text) && text == parts.0 + [COLON] + parts.1 {
      DecodeIsStrict(bytes, text);
      SplitIs(text, parts);
    } else if Decode(bytes).Some? {
      DecodeIsStrict(bytes, Decode(bytes).value);
      SplitIs(Decode(bytes).value, parts);
    }
  }
}
