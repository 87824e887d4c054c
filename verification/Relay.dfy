/** Relaying one session's MP3 with ICY titles (backend/playout/relay.py): the framer that puts a
    metadata block after every `metaint` audio bytes, and the loop that copies the upstream to
    the client. */
module Relay {
  import opened Wrappers
  import opened Utf8

  /** A title as it comes: any code points, lone surrogates included. */
  type Title = seq<CodePoint>

  const ICY_MAX_BLOCKS := 255
  const ICY_BLOCK := 16
  /** "StreamTitle='" and "';". */
  const TITLE_OPEN: seq<byte> := [83, 116, 114, 101, 97, 109, 84, 105, 116, 108, 101, 61, 39]
  const TITLE_CLOSE: seq<byte> := [39, 59]
  const TITLE_ROOM := ICY_MAX_BLOCKS * ICY_BLOCK - |TITLE_OPEN| - |TITLE_CLOSE|

  /** A code point UTF-8 cannot encode becomes a question mark. */
  function Encodable(title: Title): (text: seq<Scalar>)
    ensures |text| == |title|
    ensures forall i :: 0 <= i < |title| ==> text[i] == if IsSurrogate(title[i]) then 63 else title[i]
  {
    if title == [] then []
    else [if IsSurrogate(title[0]) then 63 else title[0]] + Encodable(title[1..])
  }

  /** The title's bytes, cut at a character boundary to fit a block. */
  function FittedTitle(title: Title): seq<byte> {
    var bytes := Encode(Encodable(title));
    Encode(DecodeIgnoring(if TITLE_ROOM <= |bytes| then bytes[..TITLE_ROOM] else bytes))
  }

  function Padding(n: nat): (nuls: seq<byte>)
    ensures |nuls| == n && forall i :: 0 <= i < n ==> nuls[i] == 0
  {
    if n == 0 then [] else [0] + Padding(n - 1)
  }

  /** What a player shows: as many whole characters of the title as fit. */
  function Shown(title: Title): seq<Scalar> {
    Encodable(title)[..Fitting(Encodable(title), TITLE_ROOM)]
  }

  lemma {:induction false} FittedIsShown(title: Title)
    ensures FittedTitle(title) == Encode(Shown(title)) && |FittedTitle(title)| <= TITLE_ROOM
  {
    var text := Encodable(title);
    CutKeepsWholeCharacters(text, TITLE_ROOM);
    FittingIsLongest(text, TITLE_ROOM, Fitting(text, TITLE_ROOM));
  }

  /** A length byte, then sixteen times that many bytes. */
  predicate IsBlock(block: seq<byte>) {
    |block| >= 1 && |block| == 1 + ICY_BLOCK * block[0] as int
  }

  /** One metadata block: a length byte, then the title padded with NULs to sixteens. */
  function IcyBlock(title: Title): (block: seq<byte>)
    ensures IsBlock(block)
  {
    var payload := TITLE_OPEN + FittedTitle(title) + TITLE_CLOSE;
    var blocks := (|payload| + ICY_BLOCK - 1) / ICY_BLOCK;
    FittedIsShown(title);
    [blocks] + payload + Padding(blocks * ICY_BLOCK - |payload|)
  }

  // ---- The framer ----

  /** Block `k` of a session whose title is `titles(k)` when that block falls due: the title, or
      an empty block when the client already has it. */
  function BlockAt(titles: nat -> Title, k: nat): (block: seq<byte>)
    ensures IsBlock(block)
  {
    if k > 0 && titles(k - 1) == titles(k) then [0] else IcyBlock(titles(k))
  }

  function BlocksOf(titles: nat -> Title): nat -> seq<byte> {
    (k: nat) => BlockAt(titles, k)
  }

  /** How far the framer is: audio bytes until the next block, and that block's number. */
  datatype FramerState = FramerState(untilBlock: nat, next: nat)

  datatype Framed = Framed(bytes: seq<byte>, state: FramerState)

  /** Some audio with block `k` put in where it falls due. */
  function Frames(metaint: nat, blocks: nat -> seq<byte>, state: FramerState, audio: seq<byte>): Framed
    requires 0 < metaint && 0 < state.untilBlock
    decreases |audio|
  {
    if |audio| < state.untilBlock then
      Framed(audio, state.(untilBlock := state.untilBlock - |audio|))
    else
      var rest := Frames(metaint, blocks, FramerState(metaint, state.next + 1), audio[state.untilBlock..]);
      Framed(audio[..state.untilBlock] + blocks(state.next) + rest.bytes, rest.state)
  }

  lemma {:induction false} Regroup(a: seq<byte>, b: seq<byte>, c: seq<byte>, d: seq<byte>)
    ensures a + (b + c + d) == a + b + c + d
    ensures a + b + c + d == a + b + (c + d)
  {
  }

  lemma {:induction false} CutAppend(a: seq<byte>, b: seq<byte>, until: nat)
    requires |a| <= until <= |a + b|
    ensures (a + b)[..until] == a + b[..until - |a|] && (a + b)[until..] == b[until - |a|..]
  {
  }

  /** Framing in two chunks is framing in one: where the audio is split never matters. */
  lemma {:induction false} FramesAppend(
      metaint: nat, blocks: nat -> seq<byte>, state: FramerState, a: seq<byte>, b: seq<byte>)
    requires 0 < metaint && 0 < state.untilBlock
    ensures
      var first := Frames(metaint, blocks, state, a);
      && 0 < first.state.untilBlock
      && var second := Frames(metaint, blocks, first.state, b);
         Frames(metaint, blocks, state, a + b) == Framed(first.bytes + second.bytes, second.state)
    decreases |a|
  {
    var until, next := state.untilBlock, FramerState(metaint, state.next + 1);
    if |a| >= until {
      FramesAppend(metaint, blocks, next, a[until..], b);
      assert (a + b)[..until] == a[..until] && (a + b)[until..] == a[until..] + b;
      var first := Frames(metaint, blocks, next, a[until..]);
      Regroup(a[..until], blocks(state.next), first.bytes, Frames(metaint, blocks, first.state, b).bytes);
    } else if |a + b| >= until {
      CutAppend(a, b, until);
      Regroup(a, b[..until - |a|], blocks(state.next), Frames(metaint, blocks, next, b[until - |a|..]).bytes);
    }
  }

  /** The audio up to a block that falls due, that block, and the rest framed after it. */
  lemma {:induction false} FramesTurn(metaint: nat, blocks: nat -> seq<byte>, state: FramerState, audio: seq<byte>,
                                      out: seq<byte>, rest: Framed)
    requires 0 < metaint && 0 < state.untilBlock <= |audio|
    requires rest == Frames(metaint, blocks, FramerState(metaint, state.next + 1), audio[state.untilBlock..])
    ensures
      var whole := Frames(metaint, blocks, state, audio);
      && whole.state == rest.state
      && out + whole.bytes == out + audio[..state.untilBlock] + blocks(state.next) + rest.bytes
  {
    Regroup(out, audio[..state.untilBlock], blocks(state.next), rest.bytes);
  }

  class IcyFramer {
    const metaint: nat
    const titles: nat -> Title
    var untilBlock: nat
    var sent: Option<Title>
    /** How many times the title has been asked for. */
    var asked: nat

    ghost predicate Valid()
      reads this
    {
      && 0 < metaint && 0 < untilBlock
      && sent == if asked == 0 then None else Some(titles(asked - 1))
    }

    function State(): FramerState
      reads this
    {
      FramerState(untilBlock, asked)
    }

    constructor (metaint: nat, titles: nat -> Title)
      requires metaint > 0
      ensures Valid() && this.metaint == metaint && this.titles == titles
      ensures State() == FramerState(metaint, 0)
    {
      this.metaint, this.titles := metaint, titles;
      untilBlock, sent, asked := metaint, None, 0;
    }

    method Frame(chunk: seq<byte>) returns (out: seq<byte>)
      requires Valid()
      modifies this
      ensures Valid()
      ensures Framed(out, State()) == Frames(metaint, BlocksOf(titles), old(State()), chunk)
    {
      out := [];
      var rest := chunk;
      while |rest| >= untilBlock
        invariant Valid()
        invariant
          var left := Frames(metaint, BlocksOf(titles), State(), rest);
          Frames(metaint, BlocksOf(titles), old(State()), chunk) == Framed(out + left.bytes, left.state)
        decreases |rest|
      {
        out, rest := FrameBlock(out, rest);
      }
      out := out + rest;
      untilBlock := untilBlock - |rest|;
    }

    /** The audio up to the block that falls due, and that block. */
    method FrameBlock(out: seq<byte>, audio: seq<byte>) returns (more: seq<byte>, rest: seq<byte>)
      requires Valid() && |audio| >= untilBlock
      modifies this
      ensures Valid() && |rest| < |audio|
      ensures
        var whole := Frames(metaint, BlocksOf(titles), old(State()), audio);
        var left := Frames(metaint, BlocksOf(titles), State(), rest);
        whole.state == left.state && out + whole.bytes == more + left.bytes
    {
      rest := audio[untilBlock..];
      FramesTurn(metaint, BlocksOf(titles), State(), audio, out,
                 Frames(metaint, BlocksOf(titles), FramerState(metaint, asked + 1), rest));
      more := out + audio[..untilBlock];
      var block := Block();
      more := more + block;
      untilBlock := metaint;
    }

    method Block() returns (block: seq<byte>)
      requires Valid()
      modifies this
      ensures Valid() && asked == old(asked) + 1 && untilBlock == old(untilBlock)
      ensures block == BlocksOf(titles)(old(asked))
    {
      var title := titles(asked);
      asked := asked + 1;
      if Some(title) == sent {
        return [0];
      }
      sent := Some(title);
      block := IcyBlock(title);
    }
  }

  // ---- The copy loop ----

  datatype RelayEnd = UpstreamEnded | ClientGone | ClientStalled

  /** How one read of the upstream ends; an empty chunk is its end. A client that leaves wins over
      a read that completes with it. */
  datatype ReadEvent = LeftBeforeRead | ConnectionLost | Chunk(bytes: seq<byte>)

  /** How one write to the client ends. */
  datatype WriteEvent = Delivered | LeftDuringWrite | Stalled | Reset

  datatype Turn = Turn(read: ReadEvent, write: WriteEvent)

  function EndOf(turn: Turn): Option<RelayEnd> {
    match turn.read
    case LeftBeforeRead => Some(ClientGone)
    case ConnectionLost => Some(UpstreamEnded)
    case Chunk(bytes) =>
      if bytes == [] then Some(UpstreamEnded)
      else
        match turn.write
        case Delivered => None
        case LeftDuringWrite => Some(ClientGone)
        case Stalled => Some(ClientStalled)
        case Reset => Some(ClientGone)
  }

  /** How many turns complete before one ends the relay. */
  function Completed(turns: seq<Turn>): (n: nat)
    ensures n <= |turns|
    ensures forall i :: 0 <= i < n ==> EndOf(turns[i]).None?
    ensures n < |turns| ==> EndOf(turns[n]).Some?
  {
    if turns == [] || EndOf(turns[0]).Some? then 0 else 1 + Completed(turns[1..])
  }

  /** The audio read in some turns. */
  function Audio(turns: seq<Turn>): seq<byte> {
    if turns == [] then []
    else
      var last := turns[|turns| - 1];
      Audio(turns[..|turns| - 1]) + if last.read.Chunk? then last.read.bytes else []
  }

  /** One read and one write. */
  method CopyTurn(
      framer: IcyFramer, turn: Turn, ghost start: FramerState, ghost audio: seq<byte>, ghost delivered: seq<byte>)
    returns (sent: seq<byte>, ended: Option<RelayEnd>)
    requires framer.Valid() && 0 < start.untilBlock
    requires Frames(framer.metaint, BlocksOf(framer.titles), start, audio) == Framed(delivered, framer.State())
    modifies framer
    ensures framer.Valid() && ended == EndOf(turn)
    ensures ended.None? ==>
      && turn.read.Chunk?
      && Frames(framer.metaint, BlocksOf(framer.titles), start, audio + turn.read.bytes)
         == Framed(delivered + sent, framer.State())
  {
    sent, ended := [], EndOf(turn);
    if turn.read.Chunk? && turn.read.bytes != [] {
      sent := framer.Frame(turn.read.bytes);
      FramesAppend(framer.metaint, BlocksOf(framer.titles), start, audio, turn.read.bytes);
    }
  }

  /** The turn after the completed ones is the one that ends the relay. */
  lemma {:induction false} CompletedStops(turns: seq<Turn>, i: nat)
    requires i <= Completed(turns) && i < |turns|
    ensures EndOf(turns[i]).Some? <==> Completed(turns) == i
  {
  }

  lemma {:induction false} AudioNext(turns: seq<Turn>, i: nat)
    requires i < |turns| && turns[i].read.Chunk?
    ensures Audio(turns[..i + 1]) == Audio(turns[..i]) + turns[i].read.bytes
  {
    assert turns[..i + 1][..i] == turns[..i];
  }

  /** What was delivered, and where the framer is, after framing some audio. */
  ghost predicate Relayed(
      metaint: nat, blocks: nat -> seq<byte>, start: FramerState, audio: seq<byte>, delivered: seq<byte>,
      state: FramerState)
    requires 0 < metaint && 0 < start.untilBlock
  {
    Frames(metaint, blocks, start, audio) == Framed(delivered, state)
  }

  /** Copies turns until one ends the relay; None while it still runs. What was delivered is
      exactly the framing of all the audio read before that turn, however it was chunked. */
  method RelayLoop(framer: IcyFramer, turns: seq<Turn>) returns (end: Option<RelayEnd>, delivered: seq<byte>)
    requires framer.Valid()
    modifies framer
    ensures framer.Valid()
    ensures end == if Completed(turns) < |turns| then EndOf(turns[Completed(turns)]) else None
    ensures delivered
         == Frames(framer.metaint, BlocksOf(framer.titles), old(framer.State()), Audio(turns[..Completed(turns)])).bytes
  {
    end, delivered := None, [];
    ghost var start, blocks := framer.State(), BlocksOf(framer.titles);
    var i := 0;
    while i < |turns|
      invariant framer.Valid()
      invariant 0 <= i <= Completed(turns)
      invariant end.None?
      invariant Relayed(framer.metaint, blocks, start, Audio(turns[..i]), delivered, framer.State())
    {
      var sent, ended := CopyTurn(framer, turns[i], start, Audio(turns[..i]), delivered);
      CompletedStops(turns, i);
      if ended.Some? {
        return ended, delivered;
      }
      AudioNext(turns, i);
      delivered := delivered + sent;
      i := i + 1;
    }
  }

  // ---- What the ends and the blocks are ----

  /** A relay ends when the upstream has no more, by an empty chunk or a dropped connection; as stalled when
      one write outlasts its limit; and else only because the client left, before the read or during the
      write, or its connection was reset. */
  lemma {:induction false} EndMeans(turn: Turn)
    ensures EndOf(turn) == Some(UpstreamEnded) <==> turn.read in {ConnectionLost, Chunk([])}
    ensures EndOf(turn) == Some(ClientStalled)
      <==> turn.read.Chunk? && turn.read.bytes != [] && turn.write == Stalled
    ensures EndOf(turn) == None <==> turn.read.Chunk? && turn.read.bytes != [] && turn.write == Delivered
  {
  }

  /** A block carries a title exactly when it is the first or the title changed since the one before. */
  lemma {:induction false} TitleSentOnChange(titles: nat -> Title, k: nat)
    ensures |BlockAt(titles, k)| > 1 <==> k == 0 || titles(k - 1) != titles(k)
    ensures |BlockAt(titles, k)| > 1 ==> BlockAt(titles, k) == IcyBlock(titles(k))
  {
    assert |TITLE_OPEN| == 13;
  }

  lemma {:induction false} HiIsShown()
    ensures TITLE_ROOM == 4065 && Shown([72, 105]) == [72, 105]
  {
    var text: seq<Scalar> := [72, 105];
    assert text == Encodable([72, 105]);
    assert text[1..] == [105] && [105][1..] == [];
    assert Fitting(text[1..], 4064) == 1;
    assert Fitting(text, 4065) == 2;
  }

  lemma {:induction false} HiIsFitted()
    ensures FittedTitle([72, 105]) == [72, 105]
  {
    var text: seq<Scalar> := [72, 105];
    HiIsShown();
    FittedIsShown([72, 105]);
    assert text[1..] == [105] && [105][1..] == [];
    assert Encode(text[1..]) == [105];
    assert Encode(text) == [72] + [105];
  }

  lemma {:induction false} HiPayload(payload: seq<byte>)
    requires payload == TITLE_OPEN + FittedTitle([72, 105]) + TITLE_CLOSE
    ensures payload == [83, 116, 114, 101, 97, 109, 84, 105, 116, 108, 101, 61, 39, 72, 105, 39, 59]
  {
    HiIsFitted();
  }

  /** The block of a two-letter title, byte for byte: StreamTitle='Hi'; in two sixteens. */
  lemma {:induction false} BlockOfHi()
    ensures IcyBlock([72, 105])
         == [2, 83, 116, 114, 101, 97, 109, 84, 105, 116, 108, 101, 61, 39, 72, 105, 39, 59] + Padding(15)
  {
    HiPayload(TITLE_OPEN + FittedTitle([72, 105]) + TITLE_CLOSE);
  }
}
