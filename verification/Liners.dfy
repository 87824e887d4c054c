/** The liner shuffle (backend/domain/liners.py): which station liner plays next, over any run of
    changing availability and arbitrary shuffles. */
module Liners {
  import opened Wrappers

  /** Where a session is in its order of liners, and which one it heard last. */
  datatype LinerRotation = LinerRotation(order: seq<int>, last: Option<int>)

  /** A shuffle rearranges a list in any way. */
  ghost predicate Shuffles(shuffle: seq<int> -> seq<int>) {
    forall s :: multiset(shuffle(s)) == multiset(s)
  }

  ghost predicate Distinct(s: seq<int>) {
    forall i, j :: 0 <= i < j < |s| ==> s[i] != s[j]
  }

  function Available(order: seq<int>, available: seq<int>): seq<int> {
    if order == [] then []
    else
      var last := |order| - 1;
      Available(order[..last], available) + if order[last] in available then [order[last]] else []
  }

  /** The first and last entries swapped. */
  function SwapEnds(order: seq<int>): (swapped: seq<int>)
    requires |order| > 1
    ensures |swapped| == |order| && multiset(swapped) == multiset(order)
    ensures swapped[0] == order[|order| - 1] && swapped[|order| - 1] == order[0]
  {
    var last := |order| - 1;
    assert order == [order[0]] + order[1..last] + [order[last]];
    [order[last]] + order[1..last] + [order[0]]
  }

  /** The order the next pick is taken from: what is left of the rotation, or the available ids
      shuffled anew, never starting with the liner played last when there is another. */
  function NextOrder(rotation: LinerRotation, available: seq<int>, shuffle: seq<int> -> seq<int>): seq<int> {
    var kept := Available(rotation.order, available);
    if kept != [] || available == [] then kept
    else
      var order := shuffle(available);
      if |order| > 1 && Some(order[0]) == rotation.last then SwapEnds(order) else order
  }

  datatype Pick = Pick(picked: Option<int>, rotation: LinerRotation)

  function Picked(rotation: LinerRotation, available: seq<int>, shuffle: seq<int> -> seq<int>): Pick {
    var order := NextOrder(rotation, available, shuffle);
    if order == [] then Pick(None, LinerRotation([], rotation.last))
    else Pick(Some(order[0]), LinerRotation(order[1..], Some(order[0])))
  }

  method KeepAvailable(order: seq<int>, available: seq<int>) returns (kept: seq<int>)
    ensures kept == Available(order, available)
  {
    kept := [];
    for i := 0 to |order|
      invariant kept == Available(order[..i], available)
    {
      assert order[..i + 1][..i] == order[..i];
      if order[i] in available {
        kept := kept + [order[i]];
      }
    }
    assert order[..|order|] == order;
  }

  /** `next_liner`, on a local list that is filtered, shuffled and swapped in place. */
  method NextLiner(rotation: LinerRotation, available: seq<int>, shuffle: seq<int> -> seq<int>)
    returns (picked: Option<int>, next: LinerRotation)
    ensures Pick(picked, next) == Picked(rotation, available, shuffle)
  {
    var order := KeepAvailable(rotation.order, available);
    if order == [] && available != [] {
      order := shuffle(available);
      if |order| > 1 && Some(order[0]) == rotation.last {
        order := SwapEnds(order);
      }
    }
    if order == [] {
      return None, LinerRotation([], rotation.last);
    }
    return Some(order[0]), LinerRotation(order[1..], Some(order[0]));
  }

  // ---- Every reachable rotation ----

  /** A rotation some run from the start has reached: no id is left twice, nor the last played. */
  ghost predicate Reachable(rotation: LinerRotation) {
    Distinct(rotation.order) && (rotation.last.Some? ==> rotation.last.value !in rotation.order)
  }

  lemma {:induction false} AvailableKeeps(order: seq<int>, available: seq<int>, id: int)
    ensures id in Available(order, available) <==> id in order && id in available
  {
    if order == [] {
    } else {
      assert order == order[..|order| - 1] + [order[|order| - 1]];
      AvailableKeeps(order[..|order| - 1], available, id);
    }
  }

  lemma {:induction false} AvailableDistinct(order: seq<int>, available: seq<int>)
    requires Distinct(order)
    ensures Distinct(Available(order, available))
  {
    if order == [] {
    } else {
      AvailableKeeps(order[..|order| - 1], available, order[|order| - 1]);
      AvailableDistinct(order[..|order| - 1], available);
      assert order[|order| - 1] !in order[..|order| - 1];
    }
  }

  lemma {:induction false} DistinctOnce(s: seq<int>)
    requires Distinct(s)
    ensures forall id :: multiset(s)[id] <= 1
  {
    if s == [] {
    } else {
      assert s == [s[0]] + s[1..];
      DistinctOnce(s[1..]);
      assert s[0] !in s[1..];
    }
  }

  lemma {:induction false} OnceDistinct(s: seq<int>)
    requires forall id :: multiset(s)[id] <= 1
    ensures Distinct(s)
  {
    if s == [] {
    } else {
      assert s == [s[0]] + s[1..];
      forall id ensures multiset(s[1..])[id] <= 1 {
        assert multiset(s)[id] <= 1;
      }
      OnceDistinct(s[1..]);
      assert multiset(s)[s[0]] <= 1;
      assert s[0] !in multiset(s[1..]);
    }
  }

  lemma {:induction false} SameContents(a: seq<int>, b: seq<int>)
    requires multiset(a) == multiset(b)
    ensures |a| == |b| && forall id :: id in a <==> id in b
    ensures Distinct(a) ==> Distinct(b)
  {
    assert |multiset(a)| == |a| && |multiset(b)| == |b|;
    forall id ensures id in a <==> id in b {
      assert id in a <==> id in multiset(a);
    }
    if Distinct(a) {
      DistinctOnce(a);
      OnceDistinct(b);
    }
  }

  /** The liner played last is the only one available. */
  predicate OnlyOne(available: seq<int>, last: Option<int>) {
    last.Some? && available == [last.value]
  }

  lemma {:induction false} LoneShuffled(available: seq<int>, shuffled: seq<int>)
    requires multiset(available) == multiset(shuffled) && (|available| == 1 || |shuffled| == 1)
    ensures available == shuffled
  {
    SameContents(available, shuffled);
    assert shuffled[0] in shuffled;
  }

  lemma {:induction false} ShuffledLaws(available: seq<int>, shuffled: seq<int>, last: Option<int>)
    requires Distinct(available) && available != [] && multiset(shuffled) == multiset(available)
    ensures |shuffled| == |available|
    ensures
      var order := if |shuffled| > 1 && Some(shuffled[0]) == last then SwapEnds(shuffled) else shuffled;
      && Distinct(order) && multiset(order) == multiset(available) && order != []
      && (forall id :: id in order ==> id in available)
      && (Some(order[0]) == last <==> OnlyOne(available, last))
  {
    SameContents(available, shuffled);
    if |shuffled| > 1 {
      SameContents(shuffled, SwapEnds(shuffled));
    } else {
      LoneShuffled(available, shuffled);
    }
  }

  /** The order a pick is taken from holds distinct available ids, all of them when it was
      shuffled anew, and starts with the last played only when that is the one id available. */
  lemma {:induction false} NextOrderLaws(rotation: LinerRotation, available: seq<int>, shuffle: seq<int> -> seq<int>)
    requires Reachable(rotation) && Distinct(available) && Shuffles(shuffle)
    ensures
      var order := NextOrder(rotation, available, shuffle);
      && Distinct(order) && (forall id :: id in order ==> id in available)
      && (order == [] <==> available == [])
      && (Available(rotation.order, available) == [] ==> multiset(order) == multiset(available))
      && (order != [] ==> (Some(order[0]) == rotation.last <==> OnlyOne(available, rotation.last)))
  {
    var kept := Available(rotation.order, available);
    AvailableDistinct(rotation.order, available);
    forall id ensures id in kept <==> id in rotation.order && id in available {
      AvailableKeeps(rotation.order, available, id);
    }
    if kept == [] && available != [] {
      ShuffledLaws(available, shuffle(available), rotation.last);
    } else if kept != [] {
      assert kept[0] in rotation.order && kept[0] in available;
    }
  }

  /** What every pick of every run keeps. It picks an available liner whenever there is one, and
      repeats the last one exactly when that is the only one there is. */
  lemma {:induction false} PickLaws(rotation: LinerRotation, available: seq<int>, shuffle: seq<int> -> seq<int>)
    requires Reachable(rotation) && Distinct(available) && Shuffles(shuffle)
    ensures
      var pick := Picked(rotation, available, shuffle);
      && Reachable(pick.rotation)
      && (pick.picked.None? <==> available == [])
      && (pick.picked.Some? ==> pick.picked.value in available && pick.rotation.last == pick.picked)
      && (pick.picked.None? ==> pick.rotation.last == rotation.last)
      && (pick.picked.Some? ==> (pick.picked == rotation.last <==> OnlyOne(available, rotation.last)))
  {
    var order := NextOrder(rotation, available, shuffle);
    NextOrderLaws(rotation, available, shuffle);
    if order != [] {
      var first := order[0];
      assert first in order && first in available;
      assert first !in order[1..];
    }
  }

  // ---- Whole runs ----

  /** What each pick of a run finds: the ids available then, and how they would be shuffled. */
  datatype Turn = Turn(available: seq<int>, shuffle: seq<int> -> seq<int>)

  ghost predicate Turns(turns: seq<Turn>) {
    forall i :: 0 <= i < |turns| ==> Distinct(turns[i].available) && Shuffles(turns[i].shuffle)
  }

  function RotationAfter(start: LinerRotation, turns: seq<Turn>): LinerRotation {
    if turns == [] then start
    else
      var last := turns[|turns| - 1];
      Picked(RotationAfter(start, turns[..|turns| - 1]), last.available, last.shuffle).rotation
  }

  /** The last liner a run played before turn `k`. */
  function PickAt(start: LinerRotation, turns: seq<Turn>, k: nat): Option<int>
    requires k < |turns|
  {
    Picked(RotationAfter(start, turns[..k]), turns[k].available, turns[k].shuffle).picked
  }

  lemma {:induction false} RunReachable(start: LinerRotation, turns: seq<Turn>)
    requires Reachable(start) && Turns(turns)
    ensures Reachable(RotationAfter(start, turns))
  {
    if turns == [] {
    } else {
      var before, last := turns[..|turns| - 1], turns[|turns| - 1];
      RunReachable(start, before);
      PickLaws(RotationAfter(start, before), last.available, last.shuffle);
    }
  }

  /** Over any run from the start, whatever becomes available or goes: a turn with liners plays one
      of them, and two turns in a row play the same one exactly when it is the only one left. */
  lemma {:induction false} NeverTwiceInARow(turns: seq<Turn>, k: nat)
    requires Turns(turns) && k < |turns|
    ensures PickAt(LinerRotation([], None), turns, k).Some? <==> turns[k].available != []
    ensures
      var picked := PickAt(LinerRotation([], None), turns, k);
      picked.Some? ==> picked.value in turns[k].available
    ensures k > 0 && turns[k - 1].available != [] && turns[k].available != [] ==>
      (PickAt(LinerRotation([], None), turns, k) == PickAt(LinerRotation([], None), turns, k - 1)
       <==> turns[k].available == [PickAt(LinerRotation([], None), turns, k - 1).value])
  {
    var start := LinerRotation([], None);
    var rotation := RotationAfter(start, turns[..k]);
    RunReachable(start, turns[..k]);
    PickLaws(rotation, turns[k].available, turns[k].shuffle);
    if k > 0 {
      assert turns[..k][..k - 1] == turns[..k - 1];
      RunReachable(start, turns[..k - 1]);
      PickLaws(RotationAfter(start, turns[..k - 1]), turns[k - 1].available, turns[k - 1].shuffle);
    }
  }

  // ---- Fairness, while the available ids stay the same ----

  /** What a run picks, turn by turn. */
  function Picks(start: LinerRotation, turns: seq<Turn>): (picks: seq<Option<int>>)
    ensures |picks| == |turns|
  {
    if turns == [] then []
    else
      var before, last := turns[..|turns| - 1], turns[|turns| - 1];
      Picks(start, before) + [Picked(RotationAfter(start, before), last.available, last.shuffle).picked]
  }

  function Somes(ids: seq<int>): (somes: seq<Option<int>>)
    ensures |somes| == |ids| && forall i :: 0 <= i < |ids| ==> somes[i] == Some(ids[i])
  {
    seq(|ids|, i requires 0 <= i < |ids| => Some(ids[i]))
  }

  /** Every turn finds the same distinct ids. */
  ghost predicate Fixed(turns: seq<Turn>, ids: seq<int>) {
    && ids != [] && Distinct(ids)
    && forall i :: 0 <= i < |turns| ==> turns[i].available == ids && Shuffles(turns[i].shuffle)
  }

  ghost predicate Within(order: seq<int>, ids: seq<int>) {
    forall i :: 0 <= i < |order| ==> order[i] in ids
  }

  lemma {:induction false} AvailableAll(order: seq<int>, ids: seq<int>)
    requires Within(order, ids)
    ensures Available(order, ids) == order
  {
    if order == [] {
    } else {
      AvailableAll(order[..|order| - 1], ids);
    }
  }

  lemma {:induction false} AvailableWithin(order: seq<int>, ids: seq<int>)
    ensures Within(Available(order, ids), ids)
  {
    var kept := Available(order, ids);
    forall i | 0 <= i < |kept| ensures kept[i] in ids {
      AvailableKeeps(order, ids, kept[i]);
    }
  }

  lemma {:induction false} LastTurn(start: LinerRotation, turns: seq<Turn>, before: seq<Turn>, last: Turn)
    requires turns == before + [last]
    ensures
      var pick := Picked(RotationAfter(start, before), last.available, last.shuffle);
      RotationAfter(start, turns) == pick.rotation && Picks(start, turns) == Picks(start, before) + [pick.picked]
  {
    assert turns[..|turns| - 1] == before;
  }

  /** A turn with some of the order left plays its head and keeps the rest. */
  lemma {:induction false} DrainTurn(rotation: LinerRotation, turn: Turn, ids: seq<int>, left: seq<int>)
    requires turn.available == ids && left == Available(rotation.order, ids) && left != []
    ensures
      var pick := Picked(rotation, ids, turn.shuffle);
      pick.picked == Some(left[0]) && Available(pick.rotation.order, ids) == left[1..]
  {
    AvailableWithin(rotation.order, ids);
    AvailableAll(left[1..], ids);
  }

  lemma {:induction false} SomesNext(ids: seq<int>, n: nat)
    requires n < |ids|
    ensures Somes(ids[..n]) + [Some(ids[n])] == Somes(ids[..n + 1])
    ensures ids[n..][0] == ids[n] && ids[n..][1..] == ids[n + 1..]
  {
  }

  lemma {:induction false} FixedSplits(turns: seq<Turn>, ids: seq<int>, n: nat)
    requires Fixed(turns, ids) && n + 1 == |turns|
    ensures turns == turns[..n] + [turns[n]] && Fixed(turns[..n], ids) && turns[n].available == ids
  {
  }

  /** Turns use up what is left of the order, one id a turn. */
  lemma {:induction false} UsesOrderUp(start: LinerRotation, turns: seq<Turn>, ids: seq<int>, kept: seq<int>)
    requires Fixed(turns, ids) && kept == Available(start.order, ids) && |turns| <= |kept|
    ensures Available(RotationAfter(start, turns).order, ids) == kept[|turns|..]
    decreases |turns|
  {
    if turns == [] {
      assert kept[0..] == kept;
    } else {
      var n := |turns| - 1;
      FixedSplits(turns, ids, n);
      UsesOrderUp(start, turns[..n], ids, kept);
      LastTurn(start, turns, turns[..n], turns[n]);
      DrainTurn(RotationAfter(start, turns[..n]), turns[n], ids, kept[n..]);
      SomesNext(kept, n);
    }
  }

  lemma {:induction false} PlaysInOrder(start: LinerRotation, turns: seq<Turn>, ids: seq<int>, kept: seq<int>)
    requires Fixed(turns, ids) && kept == Available(start.order, ids) && |turns| <= |kept|
    ensures Picks(start, turns) == Somes(kept[..|turns|])
    decreases |turns|
  {
    if turns == [] {
    } else {
      var n := |turns| - 1;
      FixedSplits(turns, ids, n);
      PlaysInOrder(start, turns[..n], ids, kept);
      UsesOrderUp(start, turns[..n], ids, kept);
      LastTurn(start, turns, turns[..n], turns[n]);
      DrainTurn(RotationAfter(start, turns[..n]), turns[n], ids, kept[n..]);
      SomesNext(kept, n);
    }
  }

  /** What is left of the order plays through first, one id a turn. */
  lemma {:induction false} DrainsOrder(start: LinerRotation, turns: seq<Turn>, ids: seq<int>)
    requires Fixed(turns, ids) && |turns| <= |Available(start.order, ids)|
    ensures Picks(start, turns) == Somes(Available(start.order, ids)[..|turns|])
    ensures Available(RotationAfter(start, turns).order, ids) == Available(start.order, ids)[|turns|..]
  {
    UsesOrderUp(start, turns, ids, Available(start.order, ids));
    PlaysInOrder(start, turns, ids, Available(start.order, ids));
  }

  lemma {:induction false} FixedParts(turns: seq<Turn>, ids: seq<int>, n: nat)
    requires Fixed(turns, ids) && n <= |turns|
    ensures Fixed(turns[..n], ids) && Turns(turns[..n]) && Fixed(turns[n..], ids) && Turns(turns[n..])
  {
  }

  lemma {:induction false} SplitBeforeLast(turns: seq<Turn>, n: nat)
    requires n < |turns|
    ensures
      var before, last := turns[..|turns| - 1], turns[|turns| - 1];
      turns == before + [last] && before[..n] == turns[..n] && turns[n..] == before[n..] + [last]
  {
  }

  /** A run goes on from where its first part left the rotation. */
  lemma {:induction false} RunSplit(start: LinerRotation, turns: seq<Turn>, n: nat)
    requires n <= |turns|
    ensures RotationAfter(start, turns) == RotationAfter(RotationAfter(start, turns[..n]), turns[n..])
    ensures Picks(start, turns) == Picks(start, turns[..n]) + Picks(RotationAfter(start, turns[..n]), turns[n..])
    decreases |turns|
  {
    if n == |turns| {
      assert turns[..n] == turns;
    } else {
      var before, last := turns[..|turns| - 1], turns[|turns| - 1];
      var middle := RotationAfter(start, turns[..n]);
      SplitBeforeLast(turns, n);
      RunSplit(start, before, n);
      LastTurn(start, turns, before, last);
      LastTurn(middle, turns[n..], before[n..], last);
    }
  }

  /** A turn with the order used up: the first of a new order, which is all the ids. */
  lemma {:induction false} FreshTurn(start: LinerRotation, turn: Turn, ids: seq<int>)
    requires Reachable(start) && Fixed([turn], ids) && Available(start.order, ids) == []
    ensures
      var order := NextOrder(start, ids, turn.shuffle);
      && multiset(order) == multiset(ids) && |order| == |ids| && Distinct(order)
      && RotationAfter(start, [turn]) == LinerRotation(order[1..], Some(order[0]))
      && Picks(start, [turn]) == [Some(order[0])]
      && Available(order[1..], ids) == order[1..]
  {
    assert [turn][0] == turn;
    assert [turn][..0] == [];
    var order := NextOrder(start, ids, turn.shuffle);
    NextOrderLaws(start, ids, turn.shuffle);
    SameContents(order, ids);
    forall i | 0 <= i < |order[1..]| ensures order[1..][i] in ids {
      assert order[i + 1] in order;
    }
    AvailableAll(order[1..], ids);
  }

  lemma {:induction false} FreshOrder(order: seq<int>, n: nat)
    requires 1 <= n <= |order|
    ensures [Some(order[0])] + Somes(order[1..][..n - 1]) == Somes(order[..n])
    ensures order[1..][n - 1..] == order[n..]
  {
  }

  /** From an order used up, the run plays the new one through. */
  lemma {:induction false} FreshRun(start: LinerRotation, turns: seq<Turn>, ids: seq<int>) returns (order: seq<int>)
    requires Reachable(start) && Fixed(turns, ids) && Available(start.order, ids) == []
    requires 1 <= |turns| <= |ids|
    ensures multiset(order) == multiset(ids) && |order| == |ids| && Distinct(order)
    ensures Picks(start, turns) == Somes(order[..|turns|])
    ensures Available(RotationAfter(start, turns).order, ids) == order[|turns|..]
  {
    order := NextOrder(start, ids, turns[0].shuffle);
    assert turns[..1] == [turns[0]];
    FreshTurn(start, turns[0], ids);
    RunSplit(start, turns, 1);
    var first := RotationAfter(start, [turns[0]]);
    DrainsOrder(first, turns[1..], ids);
    FreshOrder(order, |turns|);
  }

  /** A cycle that starts with the order used up plays every id once, and uses the order up. */
  lemma {:induction false} CycleIsPermutation(
      start: LinerRotation, turns: seq<Turn>, ids: seq<int>)
    returns (order: seq<int>)
    requires Reachable(start) && Fixed(turns, ids) && Available(start.order, ids) == []
    requires |turns| == |ids|
    ensures multiset(order) == multiset(ids) && Picks(start, turns) == Somes(order)
    ensures Available(RotationAfter(start, turns).order, ids) == []
  {
    order := FreshRun(start, turns, ids);
    assert order[..|turns|] == order;
  }

  /** How often an id is among some picks. */
  function Plays(picks: seq<Option<int>>, id: int): nat {
    if picks == [] then 0 else Plays(picks[..|picks| - 1], id) + if picks[|picks| - 1] == Some(id) then 1 else 0
  }

  lemma {:induction false} PlaysSplit(a: seq<Option<int>>, b: seq<Option<int>>, id: int)
    ensures Plays(a + b, id) == Plays(a, id) + Plays(b, id)
  {
    if b == [] {
      assert a + b == a;
    } else {
      assert (a + b)[..|a + b| - 1] == a + b[..|b| - 1];
      PlaysSplit(a, b[..|b| - 1], id);
    }
  }

  lemma {:induction false} PlaysOnce(order: seq<int>, id: int)
    requires Distinct(order)
    ensures Plays(Somes(order), id) == if id in order then 1 else 0
  {
    if order == [] {
    } else {
      var n := |order| - 1;
      assert Somes(order)[..n] == Somes(order[..n]);
      assert order == order[..n] + [order[n]];
      PlaysOnce(order[..n], id);
    }
  }

  lemma {:induction false} CycleCounts(ids: seq<int>, order: seq<int>, later: seq<Option<int>>, a: int, b: int)
    requires Distinct(ids) && multiset(order) == multiset(ids) && a in ids && b in ids
    ensures Plays(Somes(order) + later, a) == 1 + Plays(later, a)
    ensures Plays(Somes(order) + later, b) == 1 + Plays(later, b)
  {
    SameContents(ids, order);
    PlaysSplit(Somes(order), later, a);
    PlaysSplit(Somes(order), later, b);
    PlaysOnce(order, a);
    PlaysOnce(order, b);
  }

  /** In any prefix of a run that starts a fresh cycle, no id is played more than once more often
      than another. */
  lemma {:induction false} PlayCountsEven(start: LinerRotation, turns: seq<Turn>, ids: seq<int>, a: int, b: int)
    requires Reachable(start) && Fixed(turns, ids) && Available(start.order, ids) == []
    requires a in ids && b in ids
    ensures Plays(Picks(start, turns), a) <= Plays(Picks(start, turns), b) + 1
    decreases |turns|
  {
    var n := |ids|;
    if |turns| == 0 {
    } else if |turns| < n {
      var order := FreshRun(start, turns, ids);
      PlaysOnce(order[..|turns|], a);
    } else {
      var cycle, later := turns[..n], turns[n..];
      var next := RotationAfter(start, cycle);
      FixedParts(turns, ids, n);
      var order := CycleIsPermutation(start, cycle, ids);
      RunReachable(start, cycle);
      RunSplit(start, turns, n);
      PlayCountsEven(next, later, ids, a, b);
      CycleCounts(ids, order, Picks(next, later), a, b);
    }
  }

  lemma {:induction false} DistinctSize(s: seq<int>)
    requires Distinct(s)
    ensures |set id | id in s| == |s|
  {
    if s == [] {
    } else {
      DistinctSize(s[1..]);
      assert (set id | id in s) == (set id | id in s[1..]) + {s[0]};
    }
  }

  lemma {:induction false} SubsetSize(a: set<int>, b: set<int>)
    requires a <= b
    ensures |a| <= |b|
  {
    assert b == a + (b - a);
    assert |b| == |a| + |b - a|;
  }

  /** Distinct ids of `ids` are no more than `ids`, and fewer when one is missing. */
  lemma {:induction false} KeptFits(kept: seq<int>, ids: seq<int>, id: int)
    requires Distinct(kept) && Distinct(ids) && forall k :: k in kept ==> k in ids
    ensures |kept| <= |ids|
    ensures id in ids && id !in kept ==> |kept| < |ids|
  {
    DistinctSize(kept);
    DistinctSize(ids);
    var all, some := set k | k in ids, set k | k in kept;
    SubsetSize(some, all);
    if id in ids && id !in kept {
      SubsetSize(some + {id}, all);
    }
  }

  /** What is left of a reachable order fits the ids, and leaves room for one it misses. */
  lemma {:induction false} LeftFits(start: LinerRotation, ids: seq<int>, id: int)
    requires Reachable(start) && Distinct(ids) && id in ids
    ensures |Available(start.order, ids)| <= |ids|
    ensures id !in Available(start.order, ids) ==> |Available(start.order, ids)| < |ids|
  {
    var kept := Available(start.order, ids);
    AvailableDistinct(start.order, ids);
    forall k | k in kept ensures k in ids {
      AvailableKeeps(start.order, ids, k);
    }
    KeptFits(kept, ids, id);
  }

  lemma {:induction false} InSomes(ids: seq<int>, id: int)
    requires id in ids
    ensures Some(id) in Somes(ids)
  {
    var i :| 0 <= i < |ids| && ids[i] == id;
    assert Somes(ids)[i] == Some(id);
  }

  lemma {:induction false} PlaysInCycle(start: LinerRotation, turns: seq<Turn>, ids: seq<int>, id: int)
    requires Reachable(start) && Fixed(turns, ids) && Available(start.order, ids) == []
    requires |turns| >= |ids| && id in ids
    ensures Some(id) in Picks(start, turns)
  {
    FixedParts(turns, ids, |ids|);
    var order := CycleIsPermutation(start, turns[..|ids|], ids);
    SameContents(ids, order);
    InSomes(order, id);
    RunSplit(start, turns, |ids|);
  }

  /** From any state a run can be in, with n ids every one of them plays within 2n - 1 picks. */
  lemma {:induction false} RecursWithin(start: LinerRotation, turns: seq<Turn>, ids: seq<int>, id: int)
    requires Reachable(start) && Fixed(turns, ids) && id in ids
    requires |turns| == 2 * |ids| - 1
    ensures Some(id) in Picks(start, turns)
  {
    var kept := Available(start.order, ids);
    var r := |kept|;
    LeftFits(start, ids, id);
    FixedParts(turns, ids, r);
    RunSplit(start, turns, r);
    DrainsOrder(start, turns[..r], ids);
    if id in kept {
      assert kept[..r] == kept;
      InSomes(kept, id);
    } else {
      RunReachable(start, turns[..r]);
      assert Available(RotationAfter(start, turns[..r]).order, ids) == [];
      PlaysInCycle(RotationAfter(start, turns[..r]), turns[r..], ids, id);
    }
  }

  // ---- One pick ----

  lemma {:induction false} NoneKept(order: seq<int>)
    ensures Available(order, []) == []
  {
    if order == [] {
    } else {
      NoneKept(order[..|order| - 1]);
    }
  }

  /** Without an available liner nothing is picked, what was left of the order is gone, and the last liner
      played is remembered. */
  lemma {:induction false} NothingAvailable(rotation: LinerRotation, shuffle: seq<int> -> seq<int>)
    ensures Picked(rotation, [], shuffle) == Pick(None, LinerRotation([], rotation.last))
  {
    NoneKept(rotation.order);
  }

  /** While some of the order is available its first such liner is picked and the others wait, as they
      stood; after that the shuffle decides, its ends swapped when it would repeat the last one. */
  lemma {:induction false} PickIsNext(rotation: LinerRotation, available: seq<int>, shuffle: seq<int> -> seq<int>)
    requires available != [] && Shuffles(shuffle)
    ensures
      var kept, shuffled := Available(rotation.order, available), shuffle(available);
      var pick := Picked(rotation, available, shuffle);
      && |shuffled| == |available|
      && pick.picked.Some? && pick.rotation.last == pick.picked
      && (if kept != [] then [pick.picked.value] + pick.rotation.order == kept
          else if |shuffled| > 1 && Some(shuffled[0]) == rotation.last then
            && pick.picked.value == shuffled[|shuffled| - 1]
            && pick.rotation.order == shuffled[1..|shuffled| - 1] + [shuffled[0]]
          else [pick.picked.value] + pick.rotation.order == shuffled)
  {
    assert multiset(shuffle(available)) == multiset(available);
    assert |multiset(shuffle(available))| == |shuffle(available)| && |multiset(available)| == |available|;
  }
}
