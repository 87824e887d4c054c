/** One jump is as good as the steps: spending an offset item by item, with the next-item rule
    that the running station uses, lands where `WalkForward` lands. */
module StepLaws {
  import opened Wrappers
  import opened Streaming
  import opened Schedule
  import opened TuneInRules
  import opened WalkLaws

  lemma {:induction false} FirstAiringIsHead(s: seq<Entry>, prior: Option<PlayableFile>, timing: StreamTiming)
    ensures FirstAiring(s, prior, timing)
         == if Aired(s, prior, timing) == [] then None else Some(Aired(s, prior, timing)[0].ref)
  {
    if s != [] && !Airs(prior, s[0].item, timing) {
      FirstAiringIsHead(s[1..], prior, timing);
    }
  }

  /** What `NextItem` finds is a later play, at most a day ahead, that airs. */
  lemma {:induction false} NextItemAirs(log: Log, at: ItemRef, timing: StreamTiming)
    requires NextItem(log, at, timing).Ok?
    ensures
      var next := NextItem(log, at, timing).value;
      && at.Before(next) && next.day <= at.day + 1
      && ItemAt(log, next).Ok?
      && Airs(FileOf(ItemAt(log, at).value, timing), ItemAt(log, next).value, timing)
  {
    var prior := FileOf(ItemAt(log, at).value, timing);
    FirstAiringIsHead(ItemsFrom(log, at.Next(), 1), prior, timing);
    AiredFromUnfold(log, at.Next(), 1, prior, timing);
  }

  /** Play from `at` item by item, each step taken by `NextItem` and no later than day `last`:
      a song that airs takes its span, a tail too short to fade out is cut, and a play that does
      not air takes no time. None when a step fails. */
  function Steps(log: Log, at: ItemRef, remaining: nat, last: int, timing: StreamTiming): Option<Landing>
    requires ItemAt(log, at).Ok? && at.day <= last
    decreases last - at.day, |Day(log, at.day)| - at.index
  {
    var item := ItemAt(log, at).value;
    var span := if item.IsPlayable(timing) then item.file.value.SpanMs() else 0;
    if remaining < span && item.file.value.TailFits(remaining, timing) then Some(Landing(at, remaining))
    else
      match NextItem(log, at, timing)
      case Err(_) => None
      case Ok(next) =>
        NextItemAirs(log, at, timing);
        if next.day > last then None
        else Steps(log, next, if remaining < span then 0 else remaining - span, last, timing)
  }

  /** A longer look ahead finds nothing new on the days a shorter one covers. */
  lemma {:induction false} ItemsFromCovers(log: Log, start: ItemRef, days: nat, more: nat, k: nat)
    requires k < |ItemsFrom(log, start, more)|
    requires ItemsFrom(log, start, more)[k].ref.day <= start.day + days
    ensures k < |ItemsFrom(log, start, days)|
    decreases more, |Day(log, start.day)| - start.index
  {
    var s := ItemsFrom(log, start, more);
    ItemsFromReached(log, start, more, k);
    if start.index < |Day(log, start.day)| {
      if k > 0 {
        assert s[k] == ItemsFrom(log, start.Next(), more)[k - 1];
        ItemsFromCovers(log, start.Next(), days, more, k - 1);
      }
    } else {
      ItemsFromReached(log, ItemRef(start.day + 1, 0), more - 1, k);
      ItemsFromCovers(log, ItemRef(start.day + 1, 0), days - 1, more - 1, k);
    }
  }

  lemma {:induction false} SomethingAirs(s: seq<Entry>, k: nat, prior: Option<PlayableFile>, timing: StreamTiming)
    requires k < |s| && Airs(prior, s[k].item, timing)
    ensures Aired(s, prior, timing) != []
  {
    if !Airs(prior, s[0].item, timing) {
      assert s[1..][k - 1] == s[k];
      SomethingAirs(s[1..], k - 1, prior, timing);
    }
  }

  /** Two looks ahead agree on what airs first, when either finds it on a day both cover. */
  lemma {:induction false} SameHead(
      log: Log, start: ItemRef, days: nat, more: nat, prior: Option<PlayableFile>, timing: StreamTiming)
    requires days <= more
    ensures
      var near, far := AiredFrom(log, start, days, prior, timing), AiredFrom(log, start, more, prior, timing);
      && (near != [] ==> far != [] && far[0] == near[0])
      && (far != [] && far[0].ref.day <= start.day + days ==> near != [])
  {
    AiredFromLonger(log, start, days, more, prior, timing);
    var far := AiredFrom(log, start, more, prior, timing);
    if far != [] && far[0].ref.day <= start.day + days {
      var k := AiredHead(ItemsFrom(log, start, more), prior, timing);
      ItemsFromCovers(log, start, days, more, k);
      ItemsFromLonger(log, start, days, more);
      SomethingAirs(ItemsFrom(log, start, days), k, prior, timing);
    }
  }

  /** `NextItem` is the head of what airs, unless that is more than one day ahead. */
  lemma {:induction false} NextItemIsHead(log: Log, at: ItemRef, left: nat, timing: StreamTiming)
    requires ItemAt(log, at).Ok?
    ensures
      var aired := AiredFrom(log, at.Next(), left, FileOf(ItemAt(log, at).value, timing), timing);
      match NextItem(log, at, timing)
      case Ok(next) => if next.day <= at.day + left then aired != [] && aired[0].ref == next else aired == []
      case Err(_) => aired != [] ==> aired[0].ref.day > at.day + 1
  {
    var prior := FileOf(ItemAt(log, at).value, timing);
    FirstAiringIsHead(ItemsFrom(log, at.Next(), 1), prior, timing);
    SameHead(log, at.Next(), if left < 1 then left else 1, if left < 1 then 1 else left, prior, timing);
    if AiredFrom(log, at.Next(), left, prior, timing) != [] {
      AiredFromUnfold(log, at.Next(), left, prior, timing);
    }
    if NextItem(log, at, timing).Ok? {
      NextItemAirs(log, at, timing);
    }
  }

  /** How many plays have aired, or been cut, when the offset is spent. */
  function Passed(aired: seq<Entry>, offset: nat, timing: StreamTiming): nat
    requires AllPlayable(aired, timing)
  {
    if aired == [] then 0
    else if offset >= SpanOf(aired[0]) then 1 + Passed(aired[1..], offset - SpanOf(aired[0]), timing)
    else if aired[0].item.file.value.TailFits(offset, timing) then 0
    else 1
  }

  /** No whole day passes between two plays that air, up to play `n`. */
  predicate NoSilentDay(aired: seq<Entry>, n: nat) {
    forall i :: 1 <= i <= n && i < |aired| ==> aired[i].ref.day <= aired[i - 1].ref.day + 1
  }

  /** From a play that can air: itself, then what airs after it. */
  lemma {:induction false} AiredHere(log: Log, at: ItemRef, days: nat, timing: StreamTiming)
    requires ItemAt(log, at).Ok? && ItemAt(log, at).value.IsPlayable(timing)
    ensures
      var item := ItemAt(log, at).value;
      AiredFrom(log, at, days, None, timing)
      == [Entry(at, item)] + AiredFrom(log, at.Next(), days, item.file, timing)
  {
    assert ItemsFrom(log, at, days)[1..] == ItemsFrom(log, at.Next(), days);
  }

  /** What airs after a play is what airs from the next item on. */
  lemma {:induction false} LaterIsFromNext(log: Log, at: ItemRef, last: int, next: ItemRef, timing: StreamTiming)
    requires ItemAt(log, at).Ok? && at.day <= last && ItemAt(log, at).value.IsPlayable(timing)
    requires NextItem(log, at, timing) == Ok(next) && next.day <= last
    ensures at.Before(next) && ItemAt(log, next).Ok? && ItemAt(log, next).value.IsPlayable(timing)
    ensures AiredFrom(log, at.Next(), last - at.day, ItemAt(log, at).value.file, timing)
         == AiredFrom(log, next, last - next.day, None, timing) != []
    ensures next.day <= at.day + 1 && AiredFrom(log, next, last - next.day, None, timing)[0].ref == next
  {
    NextItemIsHead(log, at, last - at.day, timing);
    NextItemAirs(log, at, timing);
    AiredFromAt(log, at.Next(), last - at.day, ItemAt(log, at).value.file, 0, timing);
  }

  /** A step is taken: the walk over what airs goes on with what is left of the offset. */
  lemma {:induction false} StepTaken(log: Log, at: ItemRef, remaining: nat, rest: nat, last: int, next: ItemRef,
                                     aired: seq<Entry>, timing: StreamTiming)
    requires ItemAt(log, at).Ok? && at.day <= last && ItemAt(log, at).value.IsPlayable(timing)
    requires NextItem(log, at, timing) == Ok(next) && next.day <= last && ItemAt(log, next).Ok?
    requires AllPlayable(aired, timing) && aired != [] && aired[0] == Entry(at, ItemAt(log, at).value)
    requires remaining >= SpanOf(aired[0]) || !aired[0].item.file.value.TailFits(remaining, timing)
    requires rest == if remaining >= SpanOf(aired[0]) then remaining - SpanOf(aired[0]) else 0
    ensures Steps(log, at, remaining, last, timing) == Steps(log, next, rest, last, timing)
    ensures Played(aired, remaining, timing) == Played(aired[1..], rest, timing)
  {
  }

  /** Where the steps stop: nothing airs later within reach, or only beyond a silent day. */
  lemma {:induction false} StopsHere(aired: seq<Entry>, remaining: nat, day: int, timing: StreamTiming)
    requires AllPlayable(aired, timing) && aired != [] && aired[0].ref.day == day
    requires remaining >= SpanOf(aired[0]) || !aired[0].item.file.value.TailFits(remaining, timing)
    requires |aired| > 1 ==> aired[1].ref.day > day + 1
    ensures NoSilentDay(aired, Passed(aired, remaining, timing)) <==> |aired| == 1
    ensures |aired| == 1 ==> Played(aired, remaining, timing) == None
  {
    assert Passed(aired, remaining, timing) >= 1;
  }

  lemma {:induction false} ChainedTail(aired: seq<Entry>, offset: nat, rest: nat, timing: StreamTiming)
    requires AllPlayable(aired, timing) && |aired| > 1
    requires offset >= SpanOf(aired[0]) || !aired[0].item.file.value.TailFits(offset, timing)
    requires rest == if offset >= SpanOf(aired[0]) then offset - SpanOf(aired[0]) else 0
    ensures NoSilentDay(aired, Passed(aired, offset, timing))
       <==> aired[1].ref.day <= aired[0].ref.day + 1 && NoSilentDay(aired[1..], Passed(aired[1..], rest, timing))
  {
    var n := Passed(aired[1..], rest, timing);
    assert Passed(aired, offset, timing) == 1 + n;
    if NoSilentDay(aired, 1 + n) {
      forall i | 1 <= i <= n && i < |aired[1..]| ensures aired[1..][i].ref.day <= aired[1..][i - 1].ref.day + 1 {
        assert aired[i + 1].ref.day <= aired[i].ref.day + 1;
      }
    }
    if aired[1].ref.day <= aired[0].ref.day + 1 && NoSilentDay(aired[1..], n) {
      forall i | 1 <= i <= 1 + n && i < |aired| ensures aired[i].ref.day <= aired[i - 1].ref.day + 1 {
        if i > 1 {
          assert aired[1..][i - 1].ref.day <= aired[1..][i - 2].ref.day + 1;
        }
      }
    }
  }

  lemma {:induction false} StepsPlayed(log: Log, at: ItemRef, remaining: nat, last: int, timing: StreamTiming)
    requires ItemAt(log, at).Ok? && at.day <= last && ItemAt(log, at).value.IsPlayable(timing)
    ensures
      var aired := AiredFrom(log, at, last - at.day, None, timing);
      var chained := NoSilentDay(aired, Passed(aired, remaining, timing));
      && (chained ==> Steps(log, at, remaining, last, timing) == Played(aired, remaining, timing))
      && (Steps(log, at, remaining, last, timing).Some? ==> chained)
    decreases last - at.day, |Day(log, at.day)| - at.index
  {
    var aired := AiredFrom(log, at, last - at.day, None, timing);
    var item := ItemAt(log, at).value;
    var later := AiredFrom(log, at.Next(), last - at.day, item.file, timing);
    AiredHere(log, at, last - at.day, timing);
    assert aired[0] == Entry(at, item) && aired[1..] == later;
    if remaining < SpanOf(aired[0]) && item.file.value.TailFits(remaining, timing) {
      assert Passed(aired, remaining, timing) == 0;
    } else if NextItem(log, at, timing).Ok? && NextItem(log, at, timing).value.day <= last {
      var next := NextItem(log, at, timing).value;
      var rest := if remaining < SpanOf(aired[0]) then 0 else remaining - SpanOf(aired[0]);
      LaterIsFromNext(log, at, last, next, timing);
      StepsPlayed(log, next, rest, last, timing);
      StepTaken(log, at, remaining, rest, last, next, aired, timing);
      ChainedTail(aired, remaining, rest, timing);
    } else {
      NextItemIsHead(log, at, last - at.day, timing);
      assert later != [] ==> aired[1] == later[0];
      StopsHere(aired, remaining, at.day, timing);
    }
  }

  /** The jump equals the steps. Whenever every step succeeds within the walk's days, the walk
      lands where the steps land; and the steps succeed exactly when the walk lands and no whole
      day passes before anything airs on the way. */
  lemma {:induction false} JumpEqualsSteps(log: Log, start: Landing, timing: StreamTiming)
    requires ItemAt(log, start.ref).Ok?
    ensures
      var steps := Steps(log, start.ref, start.offsetMs, start.ref.day + timing.maxDaysAhead, timing);
      var aired := AiredInWalk(log, start.ref, timing);
      var chained :=
        && NoSilentDay(aired, Passed(aired, start.offsetMs, timing))
        && (aired != [] ==> aired[0].ref.day <= start.ref.day + 1);
      && (steps.Some? ==> Walked(log, start, timing) == Ok(steps))
      && (steps.Some? <==> chained && Walked(log, start, timing) != Ok(None))
  {
    var days := timing.maxDaysAhead;
    var last := start.ref.day + days;
    var item := ItemAt(log, start.ref).value;
    WalkedIsPlayed(log, start, timing);
    if item.IsPlayable(timing) {
      StepsPlayed(log, start.ref, start.offsetMs, last, timing);
    } else {
      var aired := AiredFrom(log, start.ref.Next(), days, None, timing);
      assert ItemsFrom(log, start.ref, days)[1..] == ItemsFrom(log, start.ref.Next(), days);
      NextItemIsHead(log, start.ref, days, timing);
      if aired != [] && NextItem(log, start.ref, timing).Ok? {
        var next := NextItem(log, start.ref, timing).value;
        NextItemAirs(log, start.ref, timing);
        AiredFromAt(log, start.ref.Next(), days, None, 0, timing);
        assert aired == AiredFrom(log, next, last - next.day, None, timing);
        StepsPlayed(log, next, start.offsetMs, last, timing);
      }
    }
  }

  /** The condition is needed: across a logged day on which nothing airs, the walk carries on
      while the next-item rule, which looks one day ahead, ends the schedule. */
  lemma {:induction false} SilentDayEndsSteps() returns (log: Log, timing: StreamTiming)
    ensures Walked(log, Landing(ItemRef(0, 0), 60_000), timing) == Ok(Some(Landing(ItemRef(2, 0), 0)))
    ensures NextItem(log, ItemRef(0, 0), timing) == Err(EndOfSchedule)
    ensures Steps(log, ItemRef(0, 0), 60_000, 2, timing) == None
  {
    var first, second := PlayableFile(1, Some(60_000), None), PlayableFile(2, Some(60_000), None);
    var silent := ScheduleItem(DAY_US, None);
    timing := StreamTiming(4000, 3000, 3 * HOUR_US, 2);
    log := map[0 := [ScheduleItem(0, Some(first))], 1 := [silent], 2 := [ScheduleItem(2 * DAY_US, Some(second))]];
    var later := [Entry(ItemRef(1, 0), silent), Entry(ItemRef(2, 0), log[2][0])];
    assert ItemsFrom(log, ItemRef(2, 0), 0) == [later[1]] by {
      assert ItemsFrom(log, ItemRef(2, 1), 0) == [];
    }
    assert ItemsFrom(log, ItemRef(1, 0), 1) == later by {
      assert ItemsFrom(log, ItemRef(1, 1), 1) == [later[1]];
    }
    assert ItemsFrom(log, ItemRef(1, 0), 0) == [later[0]] by {
      assert ItemsFrom(log, ItemRef(1, 1), 0) == [];
    }
    assert ItemsFrom(log, ItemRef(0, 1), 1) == [later[0]];
    assert ItemsFrom(log, ItemRef(0, 0), 2) == [Entry(ItemRef(0, 0), log[0][0])] + later;
    assert later[1..] == [later[1]];
    assert Walk(later, Some(first), 0, timing) == Some(Landing(ItemRef(2, 0), 0));
    assert FirstAiring([later[0]], Some(first), timing) == None;
  }
}
