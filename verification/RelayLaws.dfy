/** A player undoes the framing: it recovers the audio exactly, and at every block shows the
    session's title, cut only where the block has no room for another character. */
module RelayLaws {
  import opened Wrappers
  import opened Utf8
  import opened Relay

  // ---- The player ----

  /** What a player makes of a framed stream: the audio, and each block's payload. */
  datatype Heard = Heard(audio: seq<byte>, payloads: seq<seq<byte>>)

  /** Reads `until` audio bytes, then a length byte and sixteen times that many payload bytes, and
      again every `metaint` bytes. None when the stream ends inside a block. */
  function Play(metaint: nat, until: nat, bytes: seq<byte>): Option<Heard>
    requires 0 < metaint && 0 < until
    decreases |bytes|
  {
    if |bytes| < until then Some(Heard(bytes, []))
    else
      var block := bytes[until..];
      if block == [] || |block| < 1 + ICY_BLOCK * block[0] as int then None
      else
        var end := 1 + ICY_BLOCK * block[0] as int;
        match Play(metaint, metaint, block[end..])
        case None => None
        case Some(rest) => Some(Heard(bytes[..until] + rest.audio, [block[1..end]] + rest.payloads))
  }

  function StripNuls(bytes: seq<byte>): seq<byte> {
    if bytes != [] && bytes[|bytes| - 1] == 0 then StripNuls(bytes[..|bytes| - 1]) else bytes
  }

  /** The title in a payload: what is between the quotes, once the padding is off. */
  function ReadTitle(payload: seq<byte>): Option<seq<Scalar>> {
    var text := StripNuls(payload);
    if |text| < |TITLE_OPEN| + |TITLE_CLOSE| then None
    else Decode(text[|TITLE_OPEN|..|text| - |TITLE_CLOSE|])
  }

  /** What the screen shows after one payload; an empty one changes nothing. */
  function After(payload: seq<byte>, current: Option<seq<Scalar>>): Option<seq<Scalar>> {
    if payload == [] then current else ReadTitle(payload)
  }

  /** The title on the player's screen after each block. */
  function Screen(payloads: seq<seq<byte>>, current: Option<seq<Scalar>>): seq<Option<seq<Scalar>>> {
    if payloads == [] then []
    else
      var next := After(payloads[0], current);
      [next] + Screen(payloads[1..], next)
  }

  // ---- Reading a block back ----

  lemma {:induction false} StripPadding(bytes: seq<byte>, n: nat)
    requires bytes != [] && bytes[|bytes| - 1] != 0
    ensures StripNuls(bytes + Padding(n)) == bytes
  {
    var padded := bytes + Padding(n);
    if n == 0 {
      assert padded == bytes;
    } else {
      assert padded[..|padded| - 1] == bytes + Padding(n - 1);
      StripPadding(bytes, n - 1);
    }
  }

  lemma {:induction false} Between(open: seq<byte>, middle: seq<byte>, close: seq<byte>)
    ensures (open + middle + close)[|open|..|open + middle + close| - |close|] == middle
  {
  }

  lemma {:induction false} ReadPadded(fitted: seq<byte>, shown: seq<Scalar>, n: nat)
    requires fitted == Encode(shown)
    ensures ReadTitle(TITLE_OPEN + fitted + TITLE_CLOSE + Padding(n)) == Some(shown)
  {
    StripPadding(TITLE_OPEN + fitted + TITLE_CLOSE, n);
    Between(TITLE_OPEN, fitted, TITLE_CLOSE);
    DecodeEncode(shown);
  }

  /** A title comes back as its longest prefix of whole characters that fits. */
  lemma {:induction false} BlockReadBack(title: Title)
    ensures
      var payload := IcyBlock(title)[1..];
      payload != [] && ReadTitle(payload) == Some(Shown(title))
  {
    var fitted := FittedTitle(title);
    var text := TITLE_OPEN + fitted + TITLE_CLOSE;
    var blocks := (|text| + ICY_BLOCK - 1) / ICY_BLOCK;
    FittedIsShown(title);
    assert IcyBlock(title)[1..] == text + Padding(blocks * ICY_BLOCK - |text|);
    ReadPadded(fitted, Shown(title), blocks * ICY_BLOCK - |text|);
  }

  /** And that prefix is the longest: it fits, and one more character would not. */
  lemma {:induction false} ShownIsLongest(title: Title, n: nat)
    requires n <= |title|
    ensures |Shown(title)| <= |title| && Shown(title) == Encodable(title)[..|Shown(title)|]
    ensures |Encode(Encodable(title)[..n])| <= TITLE_ROOM <==> n <= |Shown(title)|
  {
    FittingIsLongest(Encodable(title), TITLE_ROOM, n);
  }

  // ---- The whole stream ----

  /** Blocks a player can read: a length byte that says how long the rest is. */
  ghost predicate WellFormed(blocks: nat -> seq<byte>) {
    forall k: nat :: IsBlock(blocks(k))
  }

  /** How many blocks fall due over some audio. */
  function Due(metaint: nat, state: FramerState, length: nat): nat
    requires 0 < metaint && 0 < state.untilBlock
    decreases length
  {
    if length < state.untilBlock then 0
    else 1 + Due(metaint, FramerState(metaint, state.next + 1), length - state.untilBlock)
  }

  /** A block without its length byte. */
  function Payload(block: seq<byte>): seq<byte> {
    if block == [] then [] else block[1..]
  }

  /** The payloads of blocks `first`, `first + 1`, ... */
  function PayloadsOf(blocks: nat -> seq<byte>, first: nat, n: nat): (payloads: seq<seq<byte>>)
    ensures |payloads| == n
    decreases n
  {
    if n == 0 then [] else [Payload(blocks(first))] + PayloadsOf(blocks, first + 1, n - 1)
  }

  lemma {:induction false} PlayBlock(metaint: nat, piece: seq<byte>, block: seq<byte>, rest: seq<byte>)
    requires 0 < metaint && piece != [] && IsBlock(block)
    ensures
      Play(metaint, |piece|, piece + block + rest)
      == match Play(metaint, metaint, rest)
         case None => None
         case Some(heard) => Some(Heard(piece + heard.audio, [block[1..]] + heard.payloads))
  {
    var bytes := piece + block + rest;
    assert bytes[..|piece|] == piece && bytes[|piece|..] == block + rest;
    assert (block + rest)[|block|..] == rest && (block + rest)[1..|block|] == block[1..];
  }

  /** Playing what was framed gives back exactly the audio and the payloads written. */
  ghost predicate Played(metaint: nat, blocks: nat -> seq<byte>, state: FramerState, audio: seq<byte>)
    requires 0 < metaint && 0 < state.untilBlock
  {
    Play(metaint, state.untilBlock, Frames(metaint, blocks, state, audio).bytes)
    == Some(Heard(audio, PayloadsOf(blocks, state.next, Due(metaint, state, |audio|))))
  }

  lemma {:induction false} PlayStep(
      metaint: nat, until: nat, audio: seq<byte>, block: seq<byte>, rest: seq<byte>, payloads: seq<seq<byte>>,
      bytes: seq<byte>, all: seq<seq<byte>>)
    requires 0 < metaint && 0 < until <= |audio| && IsBlock(block)
    requires bytes == audio[..until] + block + rest && all == [Payload(block)] + payloads
    requires Play(metaint, metaint, rest) == Some(Heard(audio[until..], payloads))
    ensures Play(metaint, until, bytes) == Some(Heard(audio, all))
  {
    PlayBlock(metaint, audio[..until], block, rest);
    assert audio[..until] + audio[until..] == audio;
  }

  lemma {:induction false} PlayedStep(metaint: nat, blocks: nat -> seq<byte>, state: FramerState, audio: seq<byte>)
    requires 0 < metaint && 0 < state.untilBlock <= |audio| && IsBlock(blocks(state.next))
    requires Played(metaint, blocks, FramerState(metaint, state.next + 1), audio[state.untilBlock..])
    ensures Played(metaint, blocks, state, audio)
  {
    var next, later := FramerState(metaint, state.next + 1), audio[state.untilBlock..];
    PlayStep(metaint, state.untilBlock, audio, blocks(state.next),
             Frames(metaint, blocks, next, later).bytes, PayloadsOf(blocks, next.next, Due(metaint, next, |later|)),
             Frames(metaint, blocks, state, audio).bytes, PayloadsOf(blocks, state.next, Due(metaint, state, |audio|)));
  }

  lemma {:induction false} PlayUndoesFrames(
      metaint: nat, blocks: nat -> seq<byte>, state: FramerState, audio: seq<byte>)
    requires 0 < metaint && 0 < state.untilBlock && WellFormed(blocks)
    ensures Played(metaint, blocks, state, audio)
    decreases |audio|
  {
    if |audio| >= state.untilBlock {
      PlayUndoesFrames(metaint, blocks, FramerState(metaint, state.next + 1), audio[state.untilBlock..]);
      PlayedStep(metaint, blocks, state, audio);
    }
  }

  /** One block falls due for every `metaint` audio bytes. */
  lemma {:induction false} DueEveryMetaint(metaint: nat, state: FramerState, length: nat)
    requires 0 < state.untilBlock <= metaint
    ensures
      var due := Due(metaint, state, length);
      metaint * due <= length + metaint - state.untilBlock < metaint * due + metaint
    decreases length
  {
    if length >= state.untilBlock {
      var next := FramerState(metaint, state.next + 1);
      DueEveryMetaint(metaint, next, length - state.untilBlock);
      var due := Due(metaint, next, length - state.untilBlock);
      assert metaint * (due + 1) == metaint * due + metaint;
    }
  }

  lemma {:induction false} BlockShows(titles: nat -> Title, k: nat, current: Option<seq<Scalar>>)
    requires k > 0 ==> current == Some(Shown(titles(k - 1)))
    ensures After(Payload(BlockAt(titles, k)), current) == Some(Shown(titles(k)))
  {
    BlockReadBack(titles(k));
  }

  /** What the screen should show from block `first` on. */
  function Titles(titles: nat -> Title, first: nat, n: nat): (shown: seq<Option<seq<Scalar>>>)
    ensures |shown| == n && forall k :: 0 <= k < n ==> shown[k] == Some(Shown(titles(first + k)))
  {
    seq(n, k requires 0 <= k => Some(Shown(titles(first + k))))
  }

  lemma {:induction false} TitlesStep(titles: nat -> Title, first: nat, n: nat)
    requires n > 0
    ensures Titles(titles, first, n) == [Some(Shown(titles(first)))] + Titles(titles, first + 1, n - 1)
  {
  }

  /** Reading the payloads from block `first` on, with the title of the block before it on the
      screen: the screen follows the session's titles, block by block. */
  lemma {:induction false} ScreenFollowsTitles(titles: nat -> Title, first: nat, n: nat, current: Option<seq<Scalar>>)
    requires first > 0 ==> current == Some(Shown(titles(first - 1)))
    ensures Screen(PayloadsOf(BlocksOf(titles), first, n), current) == Titles(titles, first, n)
    decreases n
  {
    if n == 0 {
    } else {
      var now := Some(Shown(titles(first)));
      BlockShows(titles, first, current);
      ScreenFollowsTitles(titles, first + 1, n - 1, now);
      TitlesStep(titles, first, n);
    }
  }

  /** All together, for a new client: the player hears every audio byte in order, and at each of
      the blocks, one every `metaint` bytes, shows the title the session had there. */
  lemma {:induction false} PlayerRecovers(
      metaint: nat, titles: nat -> Title, audio: seq<byte>)
    returns (payloads: seq<seq<byte>>)
    requires 0 < metaint
    ensures Play(metaint, metaint, Frames(metaint, BlocksOf(titles), FramerState(metaint, 0), audio).bytes)
         == Some(Heard(audio, payloads))
    ensures metaint * |payloads| <= |audio| < metaint * |payloads| + metaint
    ensures Screen(payloads, None) == Titles(titles, 0, |payloads|)
  {
    var state := FramerState(metaint, 0);
    var n := Due(metaint, state, |audio|);
    payloads := PayloadsOf(BlocksOf(titles), 0, n);
    PlayUndoesFrames(metaint, BlocksOf(titles), state, audio);
    DueEveryMetaint(metaint, state, |audio|);
    ScreenFollowsTitles(titles, 0, n, None);
  }
}
