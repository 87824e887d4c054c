/** The shared progress feed (backend/websocket.py): one poller hands every client the newest item,
    over every interleaving of the poller and its clients.

    A step is what runs between two awaits. A client carries what it was offered and what it took,
    so that its whole history can be spoken of. */
module ProgressFeeds {
  import opened Wrappers

  datatype Content = Frame(tasks: seq<string>) | FeedClosed(code: int)

  /** What one poll found, by the poll's number. */
  datatype Item = Item(poll: nat, content: Content)

  datatype Client = Client(firstPoll: nat, queue: Option<Item>, offered: seq<Item>, taken: seq<Item>)

  /** Where the poller is: at its wait for a first client, in a poll, or in its sleep between polls. */
  datatype Phase = NotStarted | Idle | Polling | Sleeping

  datatype Feed = Feed(clients: seq<Client>, pollsStarted: nat, wake: bool, phase: Phase)

  datatype Step =
    | Start
    | Subscribe
    | Unsubscribe(client: nat)
    | PollEnds(content: Content)
    | SleepEnds(timedOut: bool)
    | IdleEnds
    | Take(client: nat)

  const FRESH := Feed([], 0, false, NotStarted)

  /** A client holds one item at most: what it has not taken gives way to the new one. */
  function Offer(client: Client, item: Item): Client {
    client.(queue := Some(item), offered := client.offered + [item])
  }

  function OfferIfDue(client: Client, item: Item): Client {
    if item.poll >= client.firstPoll then Offer(client, item) else client
  }

  function OfferAll(clients: seq<Client>, item: Item): seq<Client> {
    seq(|clients|, k requires 0 <= k < |clients| => OfferIfDue(clients[k], item))
  }

  function PollStarts(feed: Feed): Feed {
    feed.(wake := false, pollsStarted := feed.pollsStarted + 1, phase := Polling)
  }

  /** The top of the poller's loop: without a client it waits to be woken, and being woken already
      does not wait. */
  function LoopTop(feed: Feed): Feed {
    if feed.clients == [] && !feed.wake then feed.(phase := Idle) else PollStarts(feed)
  }

  function Taken(client: Client): Client
    requires client.queue.Some?
  {
    client.(queue := None, taken := client.taken + [client.queue.value])
  }

  /** The next state; none when the step cannot be taken. */
  function Next(feed: Feed, step: Step): Option<Feed> {
    match step
    case Start => if feed.phase == NotStarted then Some(LoopTop(feed)) else None
    case Subscribe =>
      Some(feed.(clients := feed.clients + [Client(feed.pollsStarted + 1, None, [], [])], wake := true))
    case Unsubscribe(k) =>
      if k < |feed.clients| then Some(feed.(clients := feed.clients[..k] + feed.clients[k + 1..])) else None
    case PollEnds(content) =>
      if feed.phase == Polling
      then Some(feed.(clients := OfferAll(feed.clients, Item(feed.pollsStarted, content)), phase := Sleeping))
      else None
    case SleepEnds(timedOut) =>
      if feed.phase == Sleeping && (timedOut || feed.wake) then Some(LoopTop(feed)) else None
    case IdleEnds => if feed.phase == Idle && feed.wake then Some(PollStarts(feed)) else None
    case Take(k) =>
      if k < |feed.clients| && feed.clients[k].queue.Some?
      then Some(feed.(clients := feed.clients[k := Taken(feed.clients[k])])) else None
  }

  function Follow(feed: Feed, steps: seq<Step>): Option<Feed>
    decreases |steps|
  {
    if steps == [] then Some(feed)
    else
      match Next(feed, steps[0])
      case None => None
      case Some(next) => Follow(next, steps[1..])
  }

  /** The feed's own fields, and what runs on them between awaits. */
  class ProgressFeed {
    var clients: seq<Client>
    var pollsStarted: nat
    var wake: bool
    var phase: Phase

    constructor ()
      ensures State() == FRESH
    {
      clients, pollsStarted, wake, phase := [], 0, false, NotStarted;
    }

    function State(): Feed
      reads this
    {
      Feed(clients, pollsStarted, wake, phase)
    }

    method AddSubscriber()
      modifies this
      ensures Some(State()) == Next(old(State()), Subscribe)
    {
      clients := clients + [Client(pollsStarted + 1, None, [], [])];
      wake := true;
    }

    method RemoveSubscriber(k: nat)
      requires k < |clients|
      modifies this
      ensures Some(State()) == Next(old(State()), Unsubscribe(k))
    {
      clients := clients[..k] + clients[k + 1..];
    }

    method BeginPoll()
      modifies this
      ensures State() == PollStarts(old(State()))
    {
      wake := false;
      pollsStarted := pollsStarted + 1;
      phase := Polling;
    }

    /** From the top of the loop to its next await. */
    method Loop()
      modifies this
      ensures State() == LoopTop(old(State()))
    {
      if clients == [] && !wake {
        phase := Idle;
        return;
      }
      BeginPoll();
    }

    /** The poll ended: every client it is due to is offered the item. */
    method EndPoll(content: Content)
      requires phase == Polling
      modifies this
      ensures Some(State()) == Next(old(State()), PollEnds(content))
    {
      var item := Item(pollsStarted, content);
      for k := 0 to |clients|
        invariant |clients| == |old(clients)| && pollsStarted == old(pollsStarted) && wake == old(wake)
        invariant forall j :: 0 <= j < k ==> clients[j] == OfferIfDue(old(clients)[j], item)
        invariant forall j :: k <= j < |clients| ==> clients[j] == old(clients)[j]
      {
        if pollsStarted >= clients[k].firstPoll {
          clients := clients[k := Offer(clients[k], item)];
        }
      }
      assert clients == OfferAll(old(clients), item);
      phase := Sleeping;
    }

    method TakeItem(k: nat) returns (item: Item)
      requires k < |clients| && clients[k].queue.Some?
      modifies this
      ensures Some(State()) == Next(old(State()), Take(k)) && Some(item) == old(clients)[k].queue
    {
      item := clients[k].queue.value;
      clients := clients[k := Taken(clients[k])];
    }
  }

  // ---- What every step keeps ----

  /** The number of the last poll that ended. */
  function Completed(feed: Feed): int {
    if feed.phase == Polling then feed.pollsStarted - 1 else feed.pollsStarted
  }

  /** A client was offered every poll that ended since it subscribed, from its first on, each once. */
  ghost predicate OfferedEach(client: Client, completed: int) {
    && |client.offered| == (if completed < client.firstPoll then 0 else completed - client.firstPoll + 1)
    && (forall i :: 0 <= i < |client.offered| ==> client.offered[i].poll == client.firstPoll + i)
  }

  /** What it took comes from strictly later and later polls among those offered, and its queue holds
      the newest offered unless it took that already. */
  ghost predicate TookInOrder(client: Client) {
    && (forall i :: 0 <= i < |client.taken| ==> client.taken[i] in client.offered)
    && (forall i, j :: 0 <= i < j < |client.taken| ==> client.taken[i].poll < client.taken[j].poll)
    && (match client.queue
        case Some(item) =>
          && client.offered != [] && item == client.offered[|client.offered| - 1]
          && (client.taken != [] ==> client.taken[|client.taken| - 1].poll < item.poll)
        case None =>
          if client.offered == [] then client.taken == []
          else client.taken != [] && client.taken[|client.taken| - 1] == client.offered[|client.offered| - 1])
  }

  /** A client still waiting for its first poll to start keeps the wake flag set; no other client
      waits while the poller waits for one. */
  ghost predicate NoLostWakeUp(client: Client, feed: Feed) {
    && client.firstPoll <= feed.pollsStarted + 1
    && (client.firstPoll > feed.pollsStarted ==> feed.wake)
    && (feed.phase == Idle ==> client.firstPoll > feed.pollsStarted)
  }

  ghost predicate Good(feed: Feed) {
    && (feed.phase == Polling ==> feed.pollsStarted > 0)
    && forall k :: 0 <= k < |feed.clients| ==>
         && NoLostWakeUp(feed.clients[k], feed)
         && OfferedEach(feed.clients[k], Completed(feed))
         && TookInOrder(feed.clients[k])
  }

  lemma {:induction false} OfferKeepsOrder(client: Client, item: Item)
    requires OfferedEach(client, item.poll - 1) && TookInOrder(client)
    ensures OfferedEach(OfferIfDue(client, item), item.poll)
    ensures TookInOrder(OfferIfDue(client, item))
  {
    var next := OfferIfDue(client, item);
    forall i | 0 <= i < |client.taken| ensures client.taken[i] in next.offered {
      assert client.taken[i] in client.offered;
    }
  }

  lemma {:induction false} TakeKeepsOrder(client: Client)
    requires TookInOrder(client) && client.queue.Some?
    ensures TookInOrder(Taken(client))
  {
    var item := client.queue.value;
    forall i | 0 <= i < |client.taken| ensures client.taken[i].poll < item.poll {
      assert client.taken[i].poll <= client.taken[|client.taken| - 1].poll;
    }
    assert item in client.offered;
  }

  lemma {:induction false} PollEndKeepsGood(feed: Feed, content: Content)
    requires Good(feed) && feed.phase == Polling
    ensures Good(Next(feed, PollEnds(content)).value)
  {
    var item := Item(feed.pollsStarted, content);
    var next := Next(feed, PollEnds(content)).value;
    forall k | 0 <= k < |feed.clients|
      ensures NoLostWakeUp(next.clients[k], next)
      ensures OfferedEach(next.clients[k], item.poll) && TookInOrder(next.clients[k])
    {
      OfferKeepsOrder(feed.clients[k], item);
      assert NoLostWakeUp(feed.clients[k], feed);
    }
  }

  lemma {:induction false} PollStartKeepsGood(feed: Feed)
    requires Good(feed) && feed.phase != Polling
    ensures Good(PollStarts(feed))
  {
    forall k | 0 <= k < |feed.clients| ensures NoLostWakeUp(feed.clients[k], PollStarts(feed)) {
      assert NoLostWakeUp(feed.clients[k], feed);
    }
  }

  lemma {:induction false} TakeKeepsGood(feed: Feed, k: nat)
    requires Good(feed) && Next(feed, Take(k)).Some?
    ensures Good(Next(feed, Take(k)).value)
  {
    TakeKeepsOrder(feed.clients[k]);
    var next := Next(feed, Take(k)).value;
    forall j | 0 <= j < |feed.clients|
      ensures NoLostWakeUp(next.clients[j], next) && OfferedEach(next.clients[j], Completed(next))
      ensures TookInOrder(next.clients[j])
    {
      assert NoLostWakeUp(feed.clients[j], feed);
    }
  }

  lemma {:induction false} StepKeepsGood(feed: Feed, step: Step)
    requires Good(feed) && Next(feed, step).Some?
    ensures Good(Next(feed, step).value)
  {
    match step
    case PollEnds(content) => PollEndKeepsGood(feed, content);
    case Take(k) => TakeKeepsGood(feed, k);
    case Subscribe =>
    case Unsubscribe(k) =>
    case _ => PollStartKeepsGood(feed);
  }

  /** In every interleaving no client's wake-up is lost and no client sees a stale or repeated item. */
  lemma {:induction false} AlwaysGood(feed: Feed, steps: seq<Step>)
    requires Good(feed) && Follow(feed, steps).Some?
    ensures Good(Follow(feed, steps).value)
    decreases |steps|
  {
    if steps == [] {
    } else {
      StepKeepsGood(feed, steps[0]);
      AlwaysGood(Next(feed, steps[0]).value, steps[1..]);
    }
  }

  // ---- What it means for a client ----

  /** Everything a client takes was polled after it subscribed, in strictly increasing order, and what
      it has not taken is at most the newest item. */
  lemma {:induction false} ClientSeesNewest(steps: seq<Step>, feed: Feed, k: nat)
    requires Follow(FRESH, steps) == Some(feed) && k < |feed.clients|
    ensures var client := feed.clients[k];
      && (forall i :: 0 <= i < |client.taken| ==> client.firstPoll <= client.taken[i].poll <= Completed(feed))
      && (forall i, j :: 0 <= i < j < |client.taken| ==> client.taken[i].poll < client.taken[j].poll)
      && (client.queue.Some? ==> client.queue.value.poll == Completed(feed) >= client.firstPoll)
      && (client.queue.None? && Completed(feed) >= client.firstPoll ==>
            client.taken != [] && client.taken[|client.taken| - 1].poll == Completed(feed))
  {
    AlwaysGood(FRESH, steps);
    var client := feed.clients[k];
    forall i | 0 <= i < |client.taken|
      ensures client.firstPoll <= client.taken[i].poll <= Completed(feed)
    {
      var j :| 0 <= j < |client.offered| && client.offered[j] == client.taken[i];
    }
  }

  /** The poller's own next steps from a state: the end of its poll, of its sleep or of its wait. */
  function OwnSteps(feed: Feed, first: Content, second: Content): seq<Step> {
    match feed.phase
    case NotStarted => [Start, PollEnds(first)]
    case Idle => [IdleEnds, PollEnds(first)]
    case Polling => [PollEnds(first), SleepEnds(false), PollEnds(second)]
    case Sleeping => [SleepEnds(false), PollEnds(first)]
  }

  lemma {:induction false} FollowTwo(s0: Feed, s1: Feed, s2: Feed, a: Step, b: Step)
    requires Next(s0, a) == Some(s1) && Next(s1, b) == Some(s2)
    ensures Follow(s0, [a, b]) == Some(s2)
  {
    assert Follow(s2, []) == Some(s2);
    assert Follow(s1, [b]) == Follow(s2, [b][1..]);
    assert [a, b][1..] == [b];
  }

  lemma {:induction false} FollowThree(s0: Feed, s1: Feed, s2: Feed, s3: Feed, a: Step, b: Step, c: Step)
    requires Next(s0, a) == Some(s1) && Next(s1, b) == Some(s2) && Next(s2, c) == Some(s3)
    ensures Follow(s0, [a, b, c]) == Some(s3)
  {
    FollowTwo(s1, s2, s3, b, c);
    assert [a, b, c][1..] == [b, c];
  }

  function PollFinished(feed: Feed, content: Content): Feed {
    feed.(clients := OfferAll(feed.clients, Item(feed.pollsStarted, content)), phase := Sleeping)
  }

  /** A client that was not served is served by the poller's own next poll, without any sleep having
      to run out: nothing the other clients did can have lost its wake-up. */
  lemma {:induction false} ServedWithoutTimeout(steps: seq<Step>, feed: Feed, k: nat, first: Content, second: Content)
    requires Follow(FRESH, steps) == Some(feed)
    requires k < |feed.clients| && feed.clients[k].firstPoll > feed.pollsStarted
    ensures var after := Follow(feed, OwnSteps(feed, first, second));
      && after.Some? && |after.value.clients| == |feed.clients|
      && after.value.pollsStarted == feed.clients[k].firstPoll
      && after.value.clients[k].queue
         == Some(Item(feed.clients[k].firstPoll, if feed.phase == Polling then second else first))
  {
    AlwaysGood(FRESH, steps);
    assert NoLostWakeUp(feed.clients[k], feed);
    if feed.phase == Polling {
      var ended := PollFinished(feed, first);
      var started := PollStarts(ended);
      FollowThree(feed, ended, started, PollFinished(started, second),
                  PollEnds(first), SleepEnds(false), PollEnds(second));
    } else {
      var started := PollStarts(feed);
      FollowTwo(feed, started, PollFinished(started, first), OwnSteps(feed, first, second)[0], PollEnds(first));
    }
  }

  /** The poller never waits for a first client while one is there: its wait can end. */
  lemma {:induction false} NeverIdleWithClient(steps: seq<Step>, feed: Feed)
    requires Follow(FRESH, steps) == Some(feed) && feed.phase == Idle && feed.clients != []
    ensures Next(feed, IdleEnds).Some? && forall k :: 0 <= k < |feed.clients| ==> feed.clients[k].offered == []
  {
    AlwaysGood(FRESH, steps);
    forall k | 0 <= k < |feed.clients| ensures feed.clients[k].offered == [] {
      assert NoLostWakeUp(feed.clients[k], feed) && OfferedEach(feed.clients[k], Completed(feed));
    }
    assert NoLostWakeUp(feed.clients[0], feed);
  }

  // ---- Who comes, who goes, and when the poller polls ----

  /** A new client may see the next poll to start and nothing before it, and wakes the poller. */
  lemma {:induction false} SubscribeAdds(feed: Feed)
    ensures
      var next := Next(feed, Subscribe).value;
      && next.clients[..|feed.clients|] == feed.clients && |next.clients| == |feed.clients| + 1
      && next.clients[|feed.clients|] == Client(feed.pollsStarted + 1, None, [], [])
      && next.wake && next.phase == feed.phase && next.pollsStarted == feed.pollsStarted
  {
  }

  /** A client that leaves takes nothing with it: the others stay as they were, in their order. */
  lemma {:induction false} UnsubscribeKeepsOthers(feed: Feed, k: nat, j: nat)
    requires k < |feed.clients| && j < |feed.clients| && j != k
    ensures
      var next := Next(feed, Unsubscribe(k));
      && next.Some? && |next.value.clients| == |feed.clients| - 1
      && next.value.clients[if j < k then j else j - 1] == feed.clients[j]
      && next.value == feed.(clients := next.value.clients)
  {
  }

  /** A poll starts at once when there is a client or the poller was woken, and else not before; a sleep
      ends when its time is over or the poller is woken, and a wait for a client only then. */
  lemma {:induction false} PollsWhenWanted(feed: Feed, timedOut: bool)
    ensures
      var next := LoopTop(feed);
      if feed.clients != [] || feed.wake
      then next == feed.(wake := false, pollsStarted := feed.pollsStarted + 1, phase := Polling)
      else next == feed.(phase := Idle)
    ensures Next(feed, SleepEnds(timedOut)).Some? <==> feed.phase == Sleeping && (timedOut || feed.wake)
    ensures Next(feed, SleepEnds(timedOut)).Some? ==> Next(feed, SleepEnds(timedOut)) == Some(LoopTop(feed))
    ensures Next(feed, IdleEnds).Some? <==> feed.phase == Idle && feed.wake
    ensures Next(feed, IdleEnds).Some? ==> Next(feed, IdleEnds) == Some(LoopTop(feed))
    ensures Next(feed, Start).Some? <==> feed.phase == NotStarted
  {
  }

  /** A client is handed what its queue holds, and only that client changes. */
  lemma {:induction false} TakeEmptiesQueue(feed: Feed, k: nat, j: nat)
    requires Next(feed, Take(k)).Some? && j < |feed.clients|
    ensures
      var next := Next(feed, Take(k)).value;
      && |next.clients| == |feed.clients| && next == feed.(clients := next.clients)
      && (j != k ==> next.clients[j] == feed.clients[j])
      && next.clients[k].queue == None && next.clients[k].offered == feed.clients[k].offered
      && next.clients[k].taken == feed.clients[k].taken + [feed.clients[k].queue.value]
  {
  }
}
