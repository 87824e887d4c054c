/** What clock tune-in and resume promise: the backward run rule agrees with the forward walk,
    the run's offset is the time since its first play, and every landing can be played. */
module TuneInLaws {
  import opened Wrappers
  import opened Streaming
  import opened Schedule
  import opened TuneInRules
  import opened WalkLaws
  import opened StepLaws

  // ---- The first play of the run ----

  lemma {:induction false} LastPlayableIsLast(items: seq<ScheduleItem>, end: nat, i: nat, timing: StreamTiming)
    requires i < end <= |items| && items[i].IsPlayable(timing)
    ensures LastPlayable(items, end, timing).Some? && i <= LastPlayable(items, end, timing).value
  {
    if i < end - 1 {
      LastPlayableIsLast(items, end - 1, i, timing);
    }
  }

  /** No playable play lies between the previous one found and `ref`. */
  lemma {:induction false} PreviousIsNearest(log: Log, ref: ItemRef, other: ItemRef, timing: StreamTiming)
    requires ItemAt(log, ref).Ok? && ItemAt(log, other).Ok? && ItemAt(log, other).value.IsPlayable(timing)
    requires other.Before(ref) && other.day >= ref.day - 1
    ensures
      var found := PreviousPlayable(log, ref, timing);
      found.Some? && !found.value.Before(other)
  {
    LastPlayableIsLast(Day(log, other.day), if other.day == ref.day then ref.index else |Day(log, other.day)|,
                       other.index, timing);
  }

  /** The run starts at a play nothing of its run comes before; it is of the anchor's file, and
      an anchor that is not playable is its own start. */
  lemma {:induction false} RunStartIsFirst(log: Log, from: Place, timing: StreamTiming)
    requires ItemAt(log, from.ref).Ok?
    ensures
      var start := RunStart(log, from, timing);
      && RunBefore(log, start.ref, timing).None?
      && !from.ref.Before(start.ref)
      && (if ItemAt(log, from.ref).value.IsPlayable(timing)
          then ItemAt(log, start.ref).value.IsPlayable(timing)
               && SameFile(ItemAt(log, start.ref).value.file, ItemAt(log, from.ref).value.file)
          else start == from)
    decreases from.ref.day - EarliestDay(log.Keys), from.ref.index
  {
    var before := RunBefore(log, from.ref, timing);
    if before.Some? {
      var elapsed := ItemAt(log, from.ref).value.loggedAt - ItemAt(log, before.value).value.loggedAt;
      RunStartIsFirst(log, Place(before.value, from.offsetMs + ToMs(elapsed)), timing);
    }
  }

  /** Only the file id of what just aired decides what airs next. */
  lemma {:induction false} AiredBySameFile(
      s: seq<Entry>, a: Option<PlayableFile>, b: Option<PlayableFile>, timing: StreamTiming)
    requires SameFile(a, b)
    ensures Aired(s, a, timing) == Aired(s, b, timing)
  {
    if s == [] {
    } else {
      AiredBySameFile(s[1..], a, b, timing);
    }
  }

  /** No play with an index in `lo..hi` is playable. */
  predicate Silent(items: seq<ScheduleItem>, lo: nat, hi: nat, timing: StreamTiming)
    requires hi <= |items|
  {
    forall i :: lo <= i < hi ==> !items[i].IsPlayable(timing)
  }

  lemma {:induction false} SkipInDay(
      log: Log, start: ItemRef, end: nat, days: nat, prior: Option<PlayableFile>, timing: StreamTiming)
    requires start.index <= end <= |Day(log, start.day)|
    requires Silent(Day(log, start.day), start.index, end, timing)
    ensures AiredFrom(log, start, days, prior, timing)
         == AiredFrom(log, ItemRef(start.day, end), days, prior, timing)
    decreases end - start.index
  {
    if start.index < end {
      assert ItemsFrom(log, start, days)[1..] == ItemsFrom(log, start.Next(), days);
      SkipInDay(log, start.Next(), end, days, prior, timing);
    }
  }

  predicate SilentBetween(log: Log, from: ItemRef, to: ItemRef, timing: StreamTiming)
    requires ItemAt(log, from).Ok? && ItemAt(log, to).Ok? && from.Before(to)
  {
    if from.day == to.day then Silent(Day(log, to.day), from.index + 1, to.index, timing)
    else
      && to.day == from.day + 1
      && Silent(Day(log, from.day), from.index + 1, |Day(log, from.day)|, timing)
      && Silent(Day(log, to.day), 0, to.index, timing)
  }

  /** From one play to another on the same or the next day, with nothing playable between. */
  lemma {:induction false} SkipSilent(
      log: Log, from: ItemRef, to: ItemRef, days: nat, prior: Option<PlayableFile>, timing: StreamTiming)
    requires ItemAt(log, from).Ok? && ItemAt(log, to).Ok?
    requires from.Before(to) && SilentBetween(log, from, to, timing)
    ensures AiredFrom(log, from.Next(), days + (to.day - from.day), prior, timing)
         == AiredFrom(log, to, days, prior, timing)
  {
    if from.day < to.day {
      var end := |Day(log, from.day)|;
      assert to.day == from.day + 1;
      SkipInDay(log, from.Next(), end, days + 1, prior, timing);
      assert ItemsFrom(log, ItemRef(from.day, end), days + 1) == ItemsFrom(log, ItemRef(to.day, 0), days);
      SkipInDay(log, ItemRef(to.day, 0), to.index, days, prior, timing);
    } else {
      SkipInDay(log, from.Next(), to.index, days, prior, timing);
    }
  }

  lemma {:induction false} PreviousSilent(log: Log, ref: ItemRef, timing: StreamTiming)
    requires ItemAt(log, ref).Ok? && PreviousPlayable(log, ref, timing).Some?
    ensures SilentBetween(log, PreviousPlayable(log, ref, timing).value, ref, timing)
  {
    var before := PreviousPlayable(log, ref, timing).value;
    forall d, i: nat |
      && (d == before.day || d == ref.day) && i < |Day(log, d)| && Day(log, d)[i].IsPlayable(timing)
      && ItemRef(d, i).Before(ref)
      ensures !before.Before(ItemRef(d, i))
    {
      PreviousIsNearest(log, ref, ItemRef(d, i), timing);
    }
  }

  /** One hop back leaves what airs next unchanged, up to the same last day. */
  lemma {:induction false} RunHopKeepsNext(log: Log, ref: ItemRef, days: nat, timing: StreamTiming)
    requires ItemAt(log, ref).Ok? && RunBefore(log, ref, timing).Some?
    ensures
      var before := RunBefore(log, ref, timing).value;
      AiredFrom(log, before.Next(), days + (ref.day - before.day), ItemAt(log, before).value.file, timing)
      == AiredFrom(log, ref.Next(), days, ItemAt(log, ref).value.file, timing)
  {
    var before := RunBefore(log, ref, timing).value;
    var prior, file := ItemAt(log, before).value.file, ItemAt(log, ref).value.file;
    PreviousSilent(log, ref, timing);
    SkipSilent(log, before, ref, days, prior, timing);
    assert ItemsFrom(log, ref, days)[1..] == ItemsFrom(log, ref.Next(), days);
    AiredBySameFile(ItemsFrom(log, ref.Next(), days), prior, file, timing);
  }

  /** Moving back to the first play of the run leaves what airs next unchanged, up to the same
      last day. */
  lemma {:induction false} RunStartKeepsNext(log: Log, from: Place, days: nat, timing: StreamTiming)
    requires ItemAt(log, from.ref).Ok?
    ensures
      var start := RunStart(log, from, timing);
      && start.ref.day <= from.ref.day
      && AiredFrom(log, start.ref.Next(), days + (from.ref.day - start.ref.day),
                   FileOf(ItemAt(log, start.ref).value, timing), timing)
         == AiredFrom(log, from.ref.Next(), days, FileOf(ItemAt(log, from.ref).value, timing), timing)
    decreases from.ref.day - EarliestDay(log.Keys), from.ref.index
  {
    var before := RunBefore(log, from.ref, timing);
    if before.Some? {
      var elapsed := ItemAt(log, from.ref).value.loggedAt - ItemAt(log, before.value).value.loggedAt;
      var earlier := Place(before.value, from.offsetMs + ToMs(elapsed));
      assert RunStart(log, from, timing) == RunStart(log, earlier, timing);
      RunHopKeepsNext(log, from.ref, days, timing);
      RunStartKeepsNext(log, earlier, days + (from.ref.day - before.value.day), timing);
    }
  }

  /** The next song is the anchor's own next song exactly when that is still within the look
      ahead counted from the run's first play, which may be on an earlier day. */
  lemma {:induction false} RunStartNext(log: Log, from: Place, days: nat, timing: StreamTiming)
    requires ItemAt(log, from.ref).Ok?
    ensures
      var start := RunStart(log, from, timing);
      var aired := AiredFrom(log, from.ref.Next(), days, FileOf(ItemAt(log, from.ref).value, timing), timing);
      NextPlayable(log, start.ref, days, timing) == NextPlayable(log, from.ref, days, timing)
      <==> aired == [] || aired[0].ref.day <= start.ref.day + days
  {
    var start := RunStart(log, from, timing);
    var prior := FileOf(ItemAt(log, start.ref).value, timing);
    var shift := from.ref.day - start.ref.day;
    RunStartKeepsNext(log, from, days, timing);
    SameHead(log, start.ref.Next(), days, days + shift, prior, timing);
    FirstAiringIsHead(ItemsFrom(log, start.ref.Next(), days), prior, timing);
    FirstAiringIsHead(ItemsFrom(log, from.ref.Next(), days), FileOf(ItemAt(log, from.ref).value, timing), timing);
    if AiredFrom(log, start.ref.Next(), days, prior, timing) != [] {
      AiredFromUnfold(log, start.ref.Next(), days, prior, timing);
    }
  }

  /** The number of plays the run's start is back from `ref`. */
  function RunHops(log: Log, ref: ItemRef, timing: StreamTiming): nat
    requires ItemAt(log, ref).Ok?
    decreases ref.day - EarliestDay(log.Keys), ref.index
  {
    var before := RunBefore(log, ref, timing);
    if before.None? then 0 else 1 + RunHops(log, before.value, timing)
  }

  /** The offset grows by the time between the two plays, rounded down once a hop. */
  lemma {:induction false} RunStartOffset(log: Log, from: Place, timing: StreamTiming)
    requires ItemAt(log, from.ref).Ok?
    ensures
      var start, hops := RunStart(log, from, timing), RunHops(log, from.ref, timing);
      var elapsed := ItemAt(log, from.ref).value.loggedAt - ItemAt(log, start.ref).value.loggedAt;
      && 1000 * (start.offsetMs - from.offsetMs) <= elapsed
      && elapsed <= 1000 * (start.offsetMs - from.offsetMs) + 999 * hops
    decreases from.ref.day - EarliestDay(log.Keys), from.ref.index
  {
    var before := RunBefore(log, from.ref, timing);
    if before.Some? {
      var elapsed := ItemAt(log, from.ref).value.loggedAt - ItemAt(log, before.value).value.loggedAt;
      RunStartOffset(log, Place(before.value, from.offsetMs + ToMs(elapsed)), timing);
    }
  }

  /** Counted from the run's first play, the offset is the time since it was logged, short by
      less than one millisecond for the anchor and for each hop. */
  lemma {:induction false} AnchorOffset(log: Log, anchor: ItemRef, wall: int, timing: StreamTiming)
    requires ItemAt(log, anchor).Ok?
    ensures
      var start := RunStart(log, Place(anchor, ToMs(wall - ItemAt(log, anchor).value.loggedAt)), timing);
      var since := wall - ItemAt(log, start.ref).value.loggedAt;
      1000 * start.offsetMs <= since < 1000 * (start.offsetMs + RunHops(log, anchor, timing) + 1)
  {
    RunStartOffset(log, Place(anchor, ToMs(wall - ItemAt(log, anchor).value.loggedAt)), timing);
  }

  // ---- The backward rule and the walk ----

  /** The file the walk has aired last when it comes to play `k`, or one of the same id. */
  function PriorAt(s: seq<Entry>, k: nat, prior: Option<PlayableFile>, timing: StreamTiming): Option<PlayableFile>
    requires k <= |s|
  {
    if k == 0 then prior
    else if s[k - 1].item.IsPlayable(timing) then s[k - 1].item.file
    else PriorAt(s, k - 1, prior, timing)
  }

  lemma {:induction false} PriorAtTail(s: seq<Entry>, k: nat, prior: Option<PlayableFile>, timing: StreamTiming)
    requires 0 < k <= |s|
    ensures PriorAt(s, k, prior, timing)
         == PriorAt(s[1..], k - 1, if s[0].item.IsPlayable(timing) then s[0].item.file else prior, timing)
  {
    if k > 1 {
      PriorAtTail(s, k - 1, prior, timing);
    }
  }

  lemma {:induction false} PriorAtSameFile(
      s: seq<Entry>, k: nat, a: Option<PlayableFile>, b: Option<PlayableFile>, timing: StreamTiming)
    requires k <= |s| && SameFile(a, b)
    ensures SameFile(PriorAt(s, k, a, timing), PriorAt(s, k, b, timing))
  {
    if k > 0 && !s[k - 1].item.IsPlayable(timing) {
      PriorAtSameFile(s, k - 1, a, b, timing);
    }
  }

  /** A play airs in the walk exactly when the nearest playable play before it is of another
      file: plays that were skipped as repeats count as well as those that aired. */
  lemma {:induction false} AirsByNearest(s: seq<Entry>, k: nat, prior: Option<PlayableFile>, timing: StreamTiming)
    requires k < |s| && Sorted(s)
    ensures s[k] in Aired(s, prior, timing) <==> Airs(PriorAt(s, k, prior, timing), s[k].item, timing)
  {
    var airs := Airs(prior, s[0].item, timing);
    var next := if airs then s[0].item.file else prior;
    AiredWithin(s[1..], next, timing);
    if k > 0 {
      assert s[1..][k - 1] == s[k];
      AirsByNearest(s[1..], k - 1, next, timing);
      PriorAtTail(s, k, prior, timing);
      if !airs && s[0].item.IsPlayable(timing) {
        PriorAtSameFile(s[1..], k - 1, prior, s[0].item.file, timing);
      }
    } else {
      forall i | 0 < i < |s| ensures s[i] != s[0] {
        assert s[0].ref.Before(s[i].ref);
      }
    }
  }

  /** Every logged play between the start and a play the walk meets is met before it. */
  lemma {:induction false} ItemsFromComplete(log: Log, start: ItemRef, days: nat, k: nat, ref: ItemRef) returns (i: nat)
    requires k < |ItemsFrom(log, start, days)|
    requires ItemAt(log, ref).Ok? && !ref.Before(start) && ref.Before(ItemsFrom(log, start, days)[k].ref)
    ensures i < k && ItemsFrom(log, start, days)[i].ref == ref
    decreases days, |Day(log, start.day)| - start.index
  {
    var s := ItemsFrom(log, start, days);
    if start.index >= |Day(log, start.day)| {
      i := ItemsFromComplete(log, ItemRef(start.day + 1, 0), days - 1, k, ref);
    } else if ref == start {
      i := 0;
    } else {
      assert s[k] == ItemsFrom(log, start.Next(), days)[k - 1];
      var j := ItemsFromComplete(log, start.Next(), days, k - 1, ref);
      i := j + 1;
    }
  }

  /** The nearest playable play before `k`, where the walk has met one. */
  lemma {:induction false} NearestPlayable(s: seq<Entry>, k: nat, timing: StreamTiming) returns (found: Option<nat>)
    requires k <= |s|
    ensures found.Some? ==> found.value < k && s[found.value].item.IsPlayable(timing)
    ensures found.Some? ==> PriorAt(s, k, None, timing) == s[found.value].item.file
    ensures found.None? ==> PriorAt(s, k, None, timing) == None
    ensures forall i :: (if found.Some? then found.value + 1 else 0) <= i < k ==> !s[i].item.IsPlayable(timing)
  {
    if k == 0 {
      found := None;
    } else if s[k - 1].item.IsPlayable(timing) {
      found := Some(k - 1);
    } else {
      found := NearestPlayable(s, k - 1, timing);
    }
  }

  /** The previous playable play the backward rule finds is the one the walk met, when it is
      within the two days the rule looks at, and otherwise none. */
  lemma {:induction false} WalkedPrevious(log: Log, start: ItemRef, days: nat, k: nat, j: nat, timing: StreamTiming)
    requires j < k < |ItemsFrom(log, start, days)| && Sorted(ItemsFrom(log, start, days))
    requires
      var s := ItemsFrom(log, start, days);
      && Reaches(log, start, days, s[k]) && Reaches(log, start, days, s[j])
      && s[j].item.IsPlayable(timing)
      && forall i :: j < i < k ==> !s[i].item.IsPlayable(timing)
    ensures
      var s := ItemsFrom(log, start, days);
      PreviousPlayable(log, s[k].ref, timing)
      == if s[j].ref.day < s[k].ref.day - 1 then None else Some(s[j].ref)
  {
    var s := ItemsFrom(log, start, days);
    var found := PreviousPlayable(log, s[k].ref, timing);
    if s[j].ref.day >= s[k].ref.day - 1 {
      PreviousIsNearest(log, s[k].ref, s[j].ref, timing);
    }
    if found.Some? && s[j].ref.Before(found.value) {
      var i := ItemsFromComplete(log, start, days, k, found.value);
      ItemsFromReached(log, start, days, i);
    }
  }

  lemma {:induction false} ItemsSorted(log: Log, start: ItemRef, days: nat)
    ensures Sorted(ItemsFrom(log, start, days))
  {
    var s := ItemsFrom(log, start, days);
    forall a, b | 0 <= a < b < |s| ensures s[a].ref.Before(s[b].ref) {
      ItemsFromSorted(log, start, days, a, b);
    }
  }

  /** With only plays that cannot air between two that can, the later airs unless it repeats. */
  lemma {:induction false} AirsAfterNearest(s: seq<Entry>, k: nat, j: nat, timing: StreamTiming)
    requires j < k < |s| && Sorted(s)
    requires s[k].item.IsPlayable(timing) && s[j].item.IsPlayable(timing)
    requires forall i :: j < i < k ==> !s[i].item.IsPlayable(timing)
    ensures s[k] in Aired(s, None, timing) <==> !SameFile(s[j].item.file, s[k].item.file)
  {
    AirsByNearest(s, k, None, timing);
    var nearest := NearestPlayable(s, k, timing);
    assert nearest == Some(j);
  }

  /** The backward rule starts a run where the previous playable play is none or of another file. */
  lemma {:induction false} RunBreaksAt(log: Log, here: Entry, earlier: Entry, near: bool, timing: StreamTiming)
    requires ItemAt(log, here.ref) == Ok(here.item) && here.item.IsPlayable(timing)
    requires ItemAt(log, earlier.ref) == Ok(earlier.item)
    requires PreviousPlayable(log, here.ref, timing) == if near then Some(earlier.ref) else None
    ensures RunBefore(log, here.ref, timing).None? <==> !near || !SameFile(earlier.item.file, here.item.file)
  {
  }

  /** The three rules agree. For a playable play the walk comes to after another one, `j`, with
      only plays that cannot air between: if `j` is at most a day back, the play airs in the
      walk exactly when the backward rule starts a run there; if it is further back, the
      backward rule starts a run there whatever the file, and the walk still skips a repeat. */
  lemma {:induction false} BackwardRuleAgrees(log: Log, start: ItemRef, days: nat, k: nat, j: nat, timing: StreamTiming)
    requires j < k < |ItemsFrom(log, start, days)|
    requires
      var s := ItemsFrom(log, start, days);
      && s[k].item.IsPlayable(timing) && s[j].item.IsPlayable(timing)
      && forall i :: j < i < k ==> !s[i].item.IsPlayable(timing)
    ensures
      var s := ItemsFrom(log, start, days);
      && ItemAt(log, s[k].ref).Ok?
      && (s[k] in AiredFrom(log, start, days, None, timing) <==> !SameFile(s[j].item.file, s[k].item.file))
      && (RunBefore(log, s[k].ref, timing).None?
          <==> !SameFile(s[j].item.file, s[k].item.file) || s[j].ref.day < s[k].ref.day - 1)
  {
    var s := ItemsFrom(log, start, days);
    ItemsFromReached(log, start, days, k);
    ItemsFromReached(log, start, days, j);
    ItemsSorted(log, start, days);
    AirsAfterNearest(s, k, j, timing);
    WalkedPrevious(log, start, days, k, j, timing);
    RunBreaksAt(log, s[k], s[j], s[j].ref.day >= s[k].ref.day - 1, timing);
  }

  // ---- Tune-in and resume land where playback can start ----

  lemma {:induction false} NextPlayableSound(log: Log, after: ItemRef, days: nat, timing: StreamTiming)
    requires NextPlayable(log, after, days, timing).Ok? && NextPlayable(log, after, days, timing).value.Some?
    ensures Sound(log, Landing(NextPlayable(log, after, days, timing).value.value, 0), timing)
  {
    var prior := FileOf(ItemAt(log, after).value, timing);
    FirstAiringIsHead(ItemsFrom(log, after.Next(), days), prior, timing);
    AiredFromUnfold(log, after.Next(), days, prior, timing);
  }

  lemma {:induction false} LandFromAnchorSound(log: Log, anchor: Landing, timing: StreamTiming)
    requires LandFromAnchor(log, anchor, timing).Ok? && LandFromAnchor(log, anchor, timing).value.Some?
    ensures Sound(log, LandFromAnchor(log, anchor, timing).value.value, timing)
  {
    var start := Anchored(log, anchor, timing).value;
    var next := NextPlayable(log, start.ref, timing.maxDaysAhead, timing);
    if next.Ok? && next.value.Some? {
      NextPlayableSound(log, start.ref, timing.maxDaysAhead, timing);
    }
  }

  /** A clock tune-in lands where playback can start, on a play logged within the window. */
  lemma {:induction false} TuneInSound(log: Log, wall: int, now: int, timing: StreamTiming)
    requires TuneIn(log, wall, now, timing).Ok?
    ensures
      var tuned := TuneIn(log, wall, now, timing).value;
      && Sound(log, tuned.landing, timing)
      && Walked(log, tuned.landing, timing) == Ok(Some(tuned.landing))
      && ItemAt(log, tuned.landing.ref).value.loggedAt <= wall + timing.window
      && now + tuned.clockOffset == wall
  {
    LandFromAnchorSound(log, FindAnchor(log, wall).value, timing);
    WalkZero(log, TuneIn(log, wall, now, timing).value.landing, timing);
  }

  /** So does a resume; and when the clock has not moved and playback could start where the
      listener left, it resumes right there. */
  lemma {:induction false} ResumeSound(log: Log, left: Landing, leftAt: int, now: int, timing: StreamTiming)
    requires ItemAt(log, left.ref).Ok?
    ensures Resume(log, left, leftAt, now, timing).Ok? ==>
      && Sound(log, Resume(log, left, leftAt, now, timing).value, timing)
      && Walked(log, Resume(log, left, leftAt, now, timing).value, timing)
         == Ok(Some(Resume(log, left, leftAt, now, timing).value))
    ensures now <= leftAt ==>
      (Resume(log, left, leftAt, now, timing) == Ok(left) <==> Sound(log, left, timing))
  {
    var from := if ItemAt(log, left.ref).value.IsPlayable(timing) then left else Landing(left.ref, 0);
    var start := AdvancedBy(from, now - leftAt);
    if Resume(log, left, leftAt, now, timing).Ok? {
      WalkedSound(log, start, timing);
      WalkZero(log, Resume(log, left, leftAt, now, timing).value, timing);
    }
    WalkZero(log, left, timing);
  }

  /** Inside the run's file, tune-in is the walk from the run's first play: the two rules that
      cut a tail agree. */
  lemma {:induction false} InsideRunIsWalk(log: Log, anchor: Landing, timing: StreamTiming)
    requires Anchored(log, anchor, timing).Ok?
    ensures
      var start := Anchored(log, anchor, timing).value;
      && ItemAt(log, start.ref).Ok?
      && (Airs(None, ItemAt(log, start.ref).value, timing)
          && start.offsetMs < ItemAt(log, start.ref).value.file.value.SpanMs()
          ==> LandFromAnchor(log, anchor, timing) == Walked(log, start, timing))
  {
    var start := Anchored(log, anchor, timing).value;
    var days := timing.maxDaysAhead;
    var item := ItemAt(log, start.ref).value;
    if item.IsPlayable(timing) && start.offsetMs < item.file.value.SpanMs() {
      WalkedIsPlayed(log, start, timing);
      assert ItemsFrom(log, start.ref, days)[1..] == ItemsFrom(log, start.ref.Next(), days);
      FirstAiringIsHead(ItemsFrom(log, start.ref.Next(), days), item.file, timing);
    }
  }

  // ---- An ordered log is never refused ----

  /** Every play is logged on its own day, in time order. */
  predicate Ordered(log: Log) {
    && (forall d :: d in log ==> forall i :: 0 <= i < |log[d]| ==> log[d][i].loggedAt / DAY_US == d)
    && (forall d :: d in log ==> forall i, j :: 0 <= i < j < |log[d]| ==> log[d][i].loggedAt <= log[d][j].loggedAt)
  }

  lemma {:induction false} OrderedBefore(log: Log, a: ItemRef, b: ItemRef)
    requires Ordered(log) && ItemAt(log, a).Ok? && ItemAt(log, b).Ok? && a.Before(b)
    ensures ItemAt(log, a).value.loggedAt <= ItemAt(log, b).value.loggedAt
  {
    assert log[a.day][a.index].loggedAt / DAY_US == a.day;
    assert log[b.day][b.index].loggedAt / DAY_US == b.day;
  }

  lemma {:induction false} Hop(log: Log, ref: ItemRef, timing: StreamTiming) returns (elapsed: nat)
    requires ItemAt(log, ref).Ok? && RunBefore(log, ref, timing).Some? && Ordered(log)
    ensures elapsed
         == ItemAt(log, ref).value.loggedAt - ItemAt(log, RunBefore(log, ref, timing).value).value.loggedAt
  {
    var before := RunBefore(log, ref, timing).value;
    OrderedBefore(log, before, ref);
    elapsed := ItemAt(log, ref).value.loggedAt - ItemAt(log, before).value.loggedAt;
  }

  lemma {:induction false} RunStartHop(log: Log, from: Place, earlier: Place, elapsed: nat, timing: StreamTiming)
    requires ItemAt(log, from.ref).Ok? && RunBefore(log, from.ref, timing) == Some(earlier.ref)
    requires elapsed == ItemAt(log, from.ref).value.loggedAt - ItemAt(log, earlier.ref).value.loggedAt
    requires earlier.offsetMs == from.offsetMs + ToMs(elapsed)
    ensures earlier.offsetMs >= from.offsetMs && RunStart(log, from, timing) == RunStart(log, earlier, timing)
  {
  }

  lemma {:induction false} RunStartForward(log: Log, from: Place, timing: StreamTiming)
    requires ItemAt(log, from.ref).Ok?
    requires Ordered(log)
    ensures RunStart(log, from, timing).offsetMs >= from.offsetMs
    decreases from.ref.day - EarliestDay(log.Keys), from.ref.index
  {
    var before := RunBefore(log, from.ref, timing);
    if before.Some? {
      var elapsed := Hop(log, from.ref, timing);
      var earlier := Place(before.value, from.offsetMs + ToMs(elapsed));
      RunStartHop(log, from, earlier, elapsed, timing);
      RunStartForward(log, earlier, timing);
    }
  }

  /** On a log in order, clock tune-in never fails on a negative offset or a stale position: it
      lands, or there is no broadcast. */
  lemma {:induction false} OrderedTuneIn(log: Log, wall: int, now: int, timing: StreamTiming)
    requires Ordered(log)
    ensures TuneIn(log, wall, now, timing).Ok? || TuneIn(log, wall, now, timing) == Err(NoBroadcast)
  {
    var today := wall / DAY_US;
    var previous := Day(log, today - 1);
    if previous != [] {
      assert log[today - 1][|previous| - 1].loggedAt / DAY_US == today - 1;
    }
    if FindAnchor(log, wall).Ok? {
      var anchor := FindAnchor(log, wall).value;
      RunStartForward(log, Place(anchor.ref, anchor.offsetMs), timing);
      if LandFromAnchor(log, anchor, timing).Ok? && LandFromAnchor(log, anchor, timing).value.Some? {
        LandFromAnchorSound(log, anchor, timing);
      }
    }
  }

  /** The anchor is a play logged at or before the clock, offset by the time since; or the first
      play of a day when the day before has no log. */
  lemma {:induction false} FindAnchorCases(log: Log, wall: int)
    requires FindAnchor(log, wall).Ok?
    ensures
      var anchor := FindAnchor(log, wall).value;
      && ItemAt(log, anchor.ref).Ok?
      && (|| (&& ItemAt(log, anchor.ref).value.loggedAt <= wall
              && anchor.offsetMs == ToMs(wall - ItemAt(log, anchor.ref).value.loggedAt))
          || (anchor == Landing(ItemRef(wall / DAY_US, 0), 0) && Day(log, anchor.ref.day - 1) == []))
  {
  }

  lemma {:induction false} LandFromAnchorCases(log: Log, anchor: Landing, timing: StreamTiming)
    requires LandFromAnchor(log, anchor, timing).Ok? && LandFromAnchor(log, anchor, timing).value.Some?
    ensures
      var landing := LandFromAnchor(log, anchor, timing).value.value;
      landing.offsetMs == 0 || Anchored(log, anchor, timing) == Ok(landing)
  {
  }

  /** Inside the file the station is airing, the offset landed at is the time since that file's
      first play was logged, to within a millisecond for the clock and one for each repeat;
      otherwise tune-in lands at the top of a song. */
  lemma {:induction false} TuneInOffset(log: Log, wall: int, now: int, timing: StreamTiming)
    requires TuneIn(log, wall, now, timing).Ok?
    ensures
      var landing := TuneIn(log, wall, now, timing).value.landing;
      var anchor := FindAnchor(log, wall).value;
      && ItemAt(log, anchor.ref).Ok? && ItemAt(log, landing.ref).Ok?
      && (|| landing.offsetMs == 0
          || (&& landing.ref == RunStart(log, Place(anchor.ref, anchor.offsetMs), timing).ref
              && 1000 * landing.offsetMs <= wall - ItemAt(log, landing.ref).value.loggedAt
                    < 1000 * (landing.offsetMs + RunHops(log, anchor.ref, timing) + 1)))
  {
    var anchor := FindAnchor(log, wall).value;
    FindAnchorCases(log, wall);
    LandFromAnchorCases(log, anchor, timing);
    if anchor.offsetMs == ToMs(wall - ItemAt(log, anchor.ref).value.loggedAt) {
      AnchorOffset(log, anchor.ref, wall, timing);
    } else {
      assert RunBefore(log, anchor.ref, timing).None?;
    }
  }

  lemma {:induction false} AnchorOfDay(log: Log, wall: int, day: int)
    requires day in log && wall / DAY_US == day && |log[day]| == 1 && log[day][0].loggedAt <= wall
    ensures FindAnchor(log, wall) == Ok(Landing(ItemRef(day, 0), ToMs(wall - log[day][0].loggedAt)))
  {
    assert LoggedBy(log[day], wall) == 1;
  }

  /** A log of one play a day, the same file for three days and another on the fourth. */
  ghost predicate Repeats(log: Log, timing: StreamTiming) {
    && log.Keys == {0, 1, 2, 3} && |log[0]| == |log[1]| == |log[2]| == |log[3]| == 1
    && log[0][0].IsPlayable(timing) && log[1][0].IsPlayable(timing)
    && log[2][0].IsPlayable(timing) && log[3][0].IsPlayable(timing)
    && log[0][0].file == log[1][0].file == log[2][0].file && !SameFile(log[2][0].file, log[3][0].file)
  }

  lemma {:induction false} RepeatHop(log: Log, day: int, offsetMs: int, timing: StreamTiming)
    requires Repeats(log, timing) && 1 <= day <= 2
    ensures
      var elapsed := log[day][0].loggedAt - log[day - 1][0].loggedAt;
      RunStart(log, Place(ItemRef(day, 0), offsetMs), timing)
      == RunStart(log, Place(ItemRef(day - 1, 0), offsetMs + ToMs(elapsed)), timing)
  {
    assert LastPlayable(log[day - 1], 1, timing) == Some(0);
    assert RunBefore(log, ItemRef(day, 0), timing) == Some(ItemRef(day - 1, 0));
  }

  lemma {:induction false} RunOfRepeat(log: Log, anchor: Landing, timing: StreamTiming)
    requires Repeats(log, timing) && anchor.ref == ItemRef(2, 0)
    requires log[0][0].loggedAt <= log[1][0].loggedAt <= log[2][0].loggedAt
    requires anchor.offsetMs >= log[0][0].file.value.SpanMs()
    ensures Anchored(log, anchor, timing).Ok?
    ensures
      var start := Anchored(log, anchor, timing).value;
      start.ref == ItemRef(0, 0) && start.offsetMs >= log[0][0].file.value.SpanMs()
  {
    var offset := anchor.offsetMs + ToMs(log[2][0].loggedAt - log[1][0].loggedAt);
    RepeatHop(log, 2, anchor.offsetMs, timing);
    RepeatHop(log, 1, offset, timing);
    assert RunBefore(log, ItemRef(0, 0), timing) == None;
    var first := Place(ItemRef(0, 0), offset + ToMs(log[1][0].loggedAt - log[0][0].loggedAt));
    assert RunStart(log, first, timing) == first;
  }

  /** The plays ahead in that log. */
  lemma {:induction false} NextOfRepeat(log: Log, timing: StreamTiming)
    requires Repeats(log, timing)
    ensures NextPlayable(log, ItemRef(0, 0), 2, timing) == Ok(None)
    ensures NextPlayable(log, ItemRef(2, 0), 2, timing) == Ok(Some(ItemRef(3, 0)))
  {
    var second, third := Entry(ItemRef(1, 0), log[1][0]), Entry(ItemRef(2, 0), log[2][0]);
    var fourth := Entry(ItemRef(3, 0), log[3][0]);
    assert ItemsFrom(log, ItemRef(0, 1), 2) == [second, third] by {
      assert ItemsFrom(log, ItemRef(2, 1), 0) == [];
      assert ItemsFrom(log, ItemRef(2, 0), 0) == [third];
      assert ItemsFrom(log, ItemRef(1, 1), 1) == [third];
      assert ItemsFrom(log, ItemRef(1, 0), 1) == [second] + [third];
    }
    assert ItemsFrom(log, ItemRef(2, 1), 2) == [fourth] by {
      assert ItemsFrom(log, ItemRef(4, 0), 0) == [];
      assert ItemsFrom(log, ItemRef(3, 1), 1) == [];
      assert ItemsFrom(log, ItemRef(3, 0), 1) == [fourth];
    }
    assert [second, third][1..] == [third];
    assert FirstAiring([third], log[0][0].file, timing) == None;
    assert FirstAiring([second, third], log[0][0].file, timing) == None;
  }

  /** The look ahead counted from the run's first play can miss the next song: at the station's two
      days, a file played at noon three days running hides a song logged seven minutes after the
      clock, which the anchor itself would have reached. */
  lemma {:induction false} RunHidesNextSong() returns (log: Log, wall: int, timing: StreamTiming)
    ensures Ordered(log) && timing == StreamTiming(4000, 3000, 3 * HOUR_US, 2)
    ensures TuneIn(log, wall, wall, timing) == Err(NoBroadcast)
    ensures FindAnchor(log, wall).Ok?
    ensures NextPlayable(log, FindAnchor(log, wall).value.ref, timing.maxDaysAhead, timing) == Ok(Some(ItemRef(3, 0)))
    ensures ItemAt(log, ItemRef(3, 0)).Ok? && ItemAt(log, ItemRef(3, 0)).value.loggedAt - wall < timing.window
  {
    var a, b := PlayableFile(1, Some(60_000), None), PlayableFile(2, Some(60_000), None);
    var noon, minute := 12 * HOUR_US, 60_000_000;
    timing := StreamTiming(4000, 3000, 3 * HOUR_US, 2);
    log := map[0 := [ScheduleItem(noon, Some(a))],
               1 := [ScheduleItem(DAY_US + noon, Some(a))],
               2 := [ScheduleItem(2 * DAY_US + noon, Some(a))],
               3 := [ScheduleItem(3 * DAY_US + 5 * minute, Some(b))]];
    wall := 3 * DAY_US - 2 * minute;
    var anchor := Landing(ItemRef(2, 0), ToMs(wall - log[2][0].loggedAt));
    AnchorOfDay(log, wall, 2);
    RunOfRepeat(log, anchor, timing);
    NextOfRepeat(log, timing);
  }

  /** Across a day on which nothing airs the two rules part: the backward rule starts a run at a play
      the walk skips as a repeat. */
  lemma {:induction false} SilentDayPartsRules() returns (log: Log, timing: StreamTiming)
    ensures Ordered(log)
    ensures ItemAt(log, ItemRef(2, 0)).Ok? && ItemAt(log, ItemRef(2, 0)).value.IsPlayable(timing)
    ensures RunBefore(log, ItemRef(2, 0), timing) == None
    ensures Walked(log, Landing(ItemRef(0, 0), 60_000), timing) == Ok(None)
  {
    var file := Some(PlayableFile(1, Some(60_000), None));
    var first, silent, repeated := ScheduleItem(0, file), ScheduleItem(DAY_US, None), ScheduleItem(2 * DAY_US, file);
    timing := StreamTiming(4000, 3000, 3 * HOUR_US, 2);
    log := map[0 := [first], 1 := [silent], 2 := [repeated]];
    var later := [Entry(ItemRef(1, 0), silent), Entry(ItemRef(2, 0), repeated)];
    assert LastPlayable(log[1], 1, timing) == None;
    assert ItemsFrom(log, ItemRef(2, 0), 0) == [later[1]] by {
      assert ItemsFrom(log, ItemRef(2, 1), 0) == [];
    }
    assert ItemsFrom(log, ItemRef(1, 0), 1) == later by {
      assert ItemsFrom(log, ItemRef(1, 1), 1) == [later[1]];
    }
    assert ItemsFrom(log, ItemRef(0, 1), 2) == later;
    assert ItemsFrom(log, ItemRef(0, 0), 2) == [Entry(ItemRef(0, 0), first)] + later;
    assert later[1..] == [later[1]];
    assert Walk([later[1]], file, 0, timing) == None;
    assert Walk(later, file, 0, timing) == None;
  }
}
