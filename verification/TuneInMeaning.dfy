/** Where clock tune-in, resume and the next item land, told from the log alone. */
module TuneInMeaning {
  import opened Wrappers
  import opened Streaming
  import opened Schedule
  import opened TuneInRules
  import opened WalkLaws
  import opened StepLaws
  import opened TuneInLaws

  // ---- The anchor of a clock ----

  /** A play logged on a clock's day or the day before. */
  ghost predicate Near(log: Log, wall: int, ref: ItemRef) {
    ItemAt(log, ref).Ok? && wall / DAY_US - 1 <= ref.day <= wall / DAY_US
  }

  ghost predicate LoggedAtOrBefore(log: Log, wall: int, ref: ItemRef) {
    Near(log, wall, ref) && ItemAt(log, ref).value.loggedAt <= wall
  }

  lemma {:induction false} OrderedWithin(log: Log, day: int, i: nat, j: nat)
    requires Ordered(log) && i <= j < |Day(log, day)|
    ensures Day(log, day)[i].loggedAt <= Day(log, day)[j].loggedAt
  {
  }

  lemma {:induction false} OrderedDay(log: Log, ref: ItemRef)
    requires Ordered(log) && ItemAt(log, ref).Ok?
    ensures ItemAt(log, ref).value.loggedAt / DAY_US == ref.day
  {
    assert log[ref.day][ref.index].loggedAt / DAY_US == ref.day;
  }

  lemma {:induction false} EarlierDay(early: int, late: int)
    requires early / DAY_US < late / DAY_US
    ensures early <= late
  {
  }

  /** The plays of a day in order that are logged by a clock are those at its head. */
  lemma {:induction false} HeadIsLogged(log: Log, day: int, wall: int, i: nat)
    requires Ordered(log) && i < |Day(log, day)|
    ensures Day(log, day)[i].loggedAt <= wall <==> i < LoggedBy(Day(log, day), wall)
  {
    var logged := LoggedBy(Day(log, day), wall);
    if logged <= i {
      OrderedWithin(log, day, logged, i);
    }
  }

  lemma {:induction false} LoggedByTheClock(log: Log, wall: int, ref: ItemRef)
    requires Ordered(log) && Near(log, wall, ref)
    ensures LoggedAtOrBefore(log, wall, ref)
      <==> ref.day < wall / DAY_US || ref.index < LoggedBy(Day(log, wall / DAY_US), wall)
  {
    if ref.day == wall / DAY_US {
      HeadIsLogged(log, ref.day, wall, ref.index);
    } else {
      OrderedDay(log, ref);
      EarlierDay(ItemAt(log, ref).value.loggedAt, wall);
    }
  }

  /** An anchor is the last play logged by the clock, and the whole milliseconds since. */
  ghost predicate IsLastLogged(log: Log, wall: int, anchor: Landing) {
    && LoggedAtOrBefore(log, wall, anchor.ref)
    && anchor.offsetMs == (wall - ItemAt(log, anchor.ref).value.loggedAt) / 1000
    && forall ref :: Near(log, wall, ref) && anchor.ref.Before(ref) ==> ItemAt(log, ref).value.loggedAt > wall
  }

  lemma {:induction false} LastOfToday(log: Log, wall: int)
    requires Ordered(log) && LoggedBy(Day(log, wall / DAY_US), wall) > 0
    ensures FindAnchor(log, wall).Ok? && IsLastLogged(log, wall, FindAnchor(log, wall).value)
  {
    var today := wall / DAY_US;
    var anchor := ItemRef(today, LoggedBy(Day(log, today), wall) - 1);
    LoggedByTheClock(log, wall, anchor);
    forall ref | Near(log, wall, ref) && anchor.Before(ref) ensures ItemAt(log, ref).value.loggedAt > wall {
      LoggedByTheClock(log, wall, ref);
    }
  }

  lemma {:induction false} LastOfYesterday(log: Log, wall: int)
    requires Ordered(log) && Day(log, wall / DAY_US) != [] && LoggedBy(Day(log, wall / DAY_US), wall) == 0
    requires Day(log, wall / DAY_US - 1) != []
    ensures FindAnchor(log, wall).Ok? && IsLastLogged(log, wall, FindAnchor(log, wall).value)
  {
    var yesterday := wall / DAY_US - 1;
    var anchor := ItemRef(yesterday, |Day(log, yesterday)| - 1);
    LoggedByTheClock(log, wall, anchor);
    forall ref | Near(log, wall, ref) && anchor.Before(ref) ensures ItemAt(log, ref).value.loggedAt > wall {
      LoggedByTheClock(log, wall, ref);
    }
  }

  lemma {:induction false} NoneLogged(log: Log, wall: int, ref: ItemRef)
    requires Ordered(log) && LoggedBy(Day(log, wall / DAY_US), wall) == 0 && Day(log, wall / DAY_US - 1) == []
    ensures !LoggedAtOrBefore(log, wall, ref)
  {
    if Near(log, wall, ref) {
      LoggedByTheClock(log, wall, ref);
    }
  }

  /** On a log in order a clock has no anchor exactly when its day has no play; else the anchor is the
      last play logged by the clock on that day and the day before, and the offset the whole
      milliseconds since; when neither day has one, the day's first play, at its top. */
  lemma {:induction false} AnchorIsLastLogged(log: Log, wall: int)
    requires Ordered(log)
    ensures FindAnchor(log, wall).Err? <==> Day(log, wall / DAY_US) == []
    ensures FindAnchor(log, wall).Err? ==> FindAnchor(log, wall) == Err(NoBroadcast)
    ensures FindAnchor(log, wall).Ok? ==>
      if exists ref :: LoggedAtOrBefore(log, wall, ref) then IsLastLogged(log, wall, FindAnchor(log, wall).value)
      else FindAnchor(log, wall) == Ok(Landing(ItemRef(wall / DAY_US, 0), 0))
  {
    var today := wall / DAY_US;
    if Day(log, today) != [] {
      if LoggedBy(Day(log, today), wall) > 0 {
        LastOfToday(log, wall);
      } else if Day(log, today - 1) != [] {
        LastOfYesterday(log, wall);
      } else {
        forall ref ensures !LoggedAtOrBefore(log, wall, ref) {
          NoneLogged(log, wall, ref);
        }
      }
    }
  }

  // ---- Clock tune-in ----

  /** From an anchor, tune-in lands inside the run's file exactly when playback can start there, and
      otherwise at the top of the first play that airs after the run's start within the look ahead. */
  lemma {:induction false} InRunOrNext(log: Log, anchor: Landing, timing: StreamTiming)
    requires Anchored(log, anchor, timing).Ok?
    ensures
      var start := Anchored(log, anchor, timing).value;
      var prior := if Sound(log, Landing(start.ref, 0), timing) then ItemAt(log, start.ref).value.file else None;
      var later := AiredFrom(log, start.ref.Next(), timing.maxDaysAhead, prior, timing);
      LandFromAnchor(log, anchor, timing)
      == if Sound(log, start, timing) then Ok(Some(start))
         else if later == [] then Ok(None) else Ok(Some(Landing(later[0].ref, 0)))
  {
    var start := Anchored(log, anchor, timing).value;
    var item := ItemAt(log, start.ref).value;
    FirstAiringIsHead(ItemsFrom(log, start.ref.Next(), timing.maxDaysAhead), FileOf(item, timing), timing);
  }

  /** Tune-in finds a broadcast exactly when the anchor leads to a landing logged no more than the window
      after the clock; that is where it lands, and it says how far the station's clock is from the
      listener's. */
  lemma {:induction false} TuneInLands(log: Log, wall: int, now: int, timing: StreamTiming, landing: Landing)
    requires FindAnchor(log, wall).Ok?
    ensures (TuneIn(log, wall, now, timing).Ok? && TuneIn(log, wall, now, timing).value.landing == landing)
      <==> && LandFromAnchor(log, FindAnchor(log, wall).value, timing) == Ok(Some(landing))
           && ItemAt(log, landing.ref).Ok? && ItemAt(log, landing.ref).value.loggedAt <= wall + timing.window
    ensures TuneIn(log, wall, now, timing).Ok? ==> now + TuneIn(log, wall, now, timing).value.clockOffset == wall
  {
  }

  /** Off the air: without a play on the clock's day, without one that airs, or with the next too late. */
  lemma {:induction false} NoBroadcastMeans(log: Log, wall: int, now: int, timing: StreamTiming)
    requires Ordered(log)
    ensures TuneIn(log, wall, now, timing).Err? ==> TuneIn(log, wall, now, timing) == Err(NoBroadcast)
    ensures Day(log, wall / DAY_US) == [] ==> TuneIn(log, wall, now, timing).Err?
  {
    AnchorIsLastLogged(log, wall);
    OrderedTuneIn(log, wall, now, timing);
  }

  // ---- Resume ----

  /** What a listener who left at a place has heard of it and missed since, in whole milliseconds: the
      offset counts only while the play can still be played, and time that ran backwards does not. */
  function Missed(log: Log, left: Landing, leftAt: int, now: int, timing: StreamTiming): nat {
    (if Sound(log, Landing(left.ref, 0), timing) then left.offsetMs else 0)
    + (if now > leftAt then (now - leftAt) / 1000 else 0)
  }

  lemma {:induction false} StartOfResume(log: Log, left: Landing, leftAt: int, now: int, timing: StreamTiming)
    requires ItemAt(log, left.ref).Ok?
    ensures PlayedOn(log, left, now - leftAt, timing)
         == Walked(log, Landing(left.ref, Missed(log, left, leftAt, now, timing)), timing)
  {
  }

  /** A resume lands exactly where that time, spent over what airs from the place left, comes to; it
      fails because the schedule changed or because it has ended. */
  lemma {:induction false} ResumeSpendsTime(
      log: Log, left: Landing, leftAt: int, now: int, timing: StreamTiming, landing: Landing)
    ensures
      var aired := AiredInWalk(log, left.ref, timing);
      var spent := Missed(log, left, leftAt, now, timing);
      Resume(log, left, leftAt, now, timing) == Ok(landing)
      <==> ItemAt(log, left.ref).Ok? && exists k: nat :: k < |aired| && LandsIn(aired, spent, k, landing, timing)
    ensures ItemAt(log, left.ref).Err? ==> Resume(log, left, leftAt, now, timing) == Err(StaleSchedule)
    ensures ItemAt(log, left.ref).Ok? && Resume(log, left, leftAt, now, timing).Err? ==>
      Resume(log, left, leftAt, now, timing) == Err(EndOfSchedule)
  {
    if ItemAt(log, left.ref).Ok? {
      var start := Landing(left.ref, Missed(log, left, leftAt, now, timing));
      StartOfResume(log, left, leftAt, now, timing);
      WalkAccounts(log, start, landing, timing);
    }
  }

  // ---- The next item ----

  /** The next item is the first play that airs after a place, on its day or the next; without one the
      schedule has ended. */
  lemma {:induction false} NextItemIs(log: Log, at: ItemRef, timing: StreamTiming)
    ensures ItemAt(log, at).Err? <==> NextItem(log, at, timing) == Err(StaleSchedule)
    ensures ItemAt(log, at).Ok? ==>
      var prior := if Sound(log, Landing(at, 0), timing) then ItemAt(log, at).value.file else None;
      var later := AiredFrom(log, at.Next(), 1, prior, timing);
      NextItem(log, at, timing) == if later == [] then Err(EndOfSchedule) else Ok(later[0].ref)
  {
    if ItemAt(log, at).Ok? {
      FirstAiringIsHead(ItemsFrom(log, at.Next(), 1), FileOf(ItemAt(log, at).value, timing), timing);
    }
  }
}
