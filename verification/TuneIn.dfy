/** Tune-in, resume and the next item over a logged schedule (backend/domain/tune_in.py). */
module TuneInRules {
  import opened Wrappers
  import opened Streaming
  import opened Schedule

  // ---- The walk ----

  /** Spend `remaining` milliseconds of playback over `s`, `prior` being the file that just
      aired; None when the plays run out. */
  function Walk(s: seq<Entry>, prior: Option<PlayableFile>, remaining: nat, timing: StreamTiming): Option<Landing>
  {
    if s == [] then None
    else if !Airs(prior, s[0].item, timing) then Walk(s[1..], prior, remaining, timing)
    else
      var file := s[0].item.file.value;
      if remaining >= file.SpanMs() then Walk(s[1..], Some(file), remaining - file.SpanMs(), timing)
      else if file.TailFits(remaining, timing) then Some(Landing(s[0].ref, remaining))
      else Walk(s[1..], Some(file), 0, timing)
  }

  /** Where the walk from `start` lands; an error when its day has no such play. */
  function Walked(log: Log, start: Landing, timing: StreamTiming): Result<Option<Landing>, StreamError> {
    if ItemAt(log, start.ref).Err? then Err(StaleSchedule)
    else Ok(Walk(ItemsFrom(log, start.ref, timing.maxDaysAhead), None, start.offsetMs, timing))
  }

  /** "The radio kept playing": the walk as it runs, day by day and play by play. */
  method WalkForward(log: Log, start: Landing, timing: StreamTiming)
    returns (landed: Result<Option<Landing>, StreamError>)
    ensures landed == Walked(log, start, timing)
  {
    if ItemAt(log, start.ref).Err? {
      return Err(StaleSchedule);
    }
    var remaining, prior := start.offsetMs, None;
    var on, first := start.ref.day, start.ref.index;
    var days := timing.maxDaysAhead + 1;
    while days > 0
      invariant 0 <= days
      invariant Walked(log, start, timing)
             == Ok(if days == 0 then None
                   else Walk(ItemsFrom(log, ItemRef(on, first), days - 1), prior, remaining, timing))
    {
      var items := Day(log, on);
      if items == [] {
        return Ok(None);
      }
      var index := first;
      while index < |items|
        invariant Walked(log, start, timing)
               == Ok(Walk(ItemsFrom(log, ItemRef(on, index), days - 1), prior, remaining, timing))
      {
        var ref, file := ItemRef(on, index), items[index].file;
        if !items[index].IsPlayable(timing) || SameFile(prior, file) {
          index := index + 1;
          continue;
        }
        prior := file;
        var span := file.value.SpanMs();
        if remaining < span {
          if file.value.TailFits(remaining, timing) {
            return Ok(Some(Landing(ref, remaining)));
          }
          remaining := 0;
          index := index + 1;
          continue;
        }
        remaining := remaining - span;
        index := index + 1;
      }
      on, first := on + 1, 0;
      days := days - 1;
    }
    return Ok(None);
  }

  // ---- What airs next ----

  /** The first play of `s` that airs after `prior`. */
  function FirstAiring(s: seq<Entry>, prior: Option<PlayableFile>, timing: StreamTiming): Option<ItemRef> {
    if s == [] then None
    else if Airs(prior, s[0].item, timing) then Some(s[0].ref)
    else FirstAiring(s[1..], prior, timing)
  }

  /** What airs next after a play, looking so many days past its own. */
  function NextPlayable(log: Log, after: ItemRef, days: nat, timing: StreamTiming): Result<Option<ItemRef>, StreamError>
  {
    if ItemAt(log, after).Err? then Err(StaleSchedule)
    else Ok(FirstAiring(ItemsFrom(log, after.Next(), days), FileOf(ItemAt(log, after).value, timing), timing))
  }

  /** The next item to air, looking at most one day ahead. */
  function NextItem(log: Log, after: ItemRef, timing: StreamTiming): Result<ItemRef, StreamError> {
    match NextPlayable(log, after, 1, timing)
    case Err(error) => Err(error)
    case Ok(None) => Err(EndOfSchedule)
    case Ok(Some(ref)) => Ok(ref)
  }

  // ---- The first play of a run ----

  /** The nearest playable index before `end` in a day. */
  function LastPlayable(items: seq<ScheduleItem>, end: nat, timing: StreamTiming): (found: Option<nat>)
    requires end <= |items|
    ensures found.Some? ==> found.value < end && items[found.value].IsPlayable(timing)
  {
    if end == 0 then None
    else if items[end - 1].IsPlayable(timing) then Some(end - 1)
    else LastPlayable(items, end - 1, timing)
  }

  /** The last play before `ref` that can air, looking back no further than the previous day. */
  function PreviousPlayable(log: Log, ref: ItemRef, timing: StreamTiming): (found: Option<ItemRef>)
    requires ItemAt(log, ref).Ok?
    ensures found.Some? ==> ItemAt(log, found.value).Ok? && ItemAt(log, found.value).value.IsPlayable(timing)
    ensures found.Some? ==> found.value.Before(ref) && found.value.day >= ref.day - 1
  {
    var today := LastPlayable(Day(log, ref.day), ref.index, timing);
    if today.Some? then Some(ItemRef(ref.day, today.value))
    else
      var before := Day(log, ref.day - 1);
      var yesterday := LastPlayable(before, |before|, timing);
      if yesterday.Some? then Some(ItemRef(ref.day - 1, yesterday.value)) else None
  }

  /** The play before `ref` in its run: the nearest playable one, when it is of the same file. */
  function RunBefore(log: Log, ref: ItemRef, timing: StreamTiming): (found: Option<ItemRef>)
    requires ItemAt(log, ref).Ok?
    ensures found.Some? ==> ItemAt(log, found.value).Ok? && ItemAt(log, found.value).value.IsPlayable(timing)
    ensures found.Some? ==> found.value.Before(ref) && found.value.day >= ref.day - 1
  {
    var item := ItemAt(log, ref).value;
    var before := PreviousPlayable(log, ref, timing);
    if item.IsPlayable(timing) && before.Some? && SameFile(ItemAt(log, before.value).value.file, item.file)
    then before
    else None
  }

  /** A day no play is logged before. */
  ghost function EarliestDay(days: set<int>): (earliest: int)
    ensures forall d :: d in days ==> earliest <= d
  {
    if exists d :: d in days then
      var d :| d in days;
      var rest := EarliestDay(days - {d});
      assert forall e :: e in days ==> e == d || e in days - {d};
      if d < rest then d else rest
    else 0
  }

  /** A position whose offset has not been validated yet. */
  datatype Place = Place(ref: ItemRef, offsetMs: int)

  /** The start of the run a place is in, with the time since then added to the offset. */
  function RunStart(log: Log, from: Place, timing: StreamTiming): (start: Place)
    requires ItemAt(log, from.ref).Ok?
    ensures ItemAt(log, start.ref).Ok?
    decreases from.ref.day - EarliestDay(log.Keys), from.ref.index
  {
    var before := RunBefore(log, from.ref, timing);
    if before.None? then from
    else
      var elapsed := ItemAt(log, from.ref).value.loggedAt - ItemAt(log, before.value).value.loggedAt;
      RunStart(log, Place(before.value, from.offsetMs + ToMs(elapsed)), timing)
  }

  /** The run walked back play by play. */
  method FindRunStart(log: Log, from: Place, timing: StreamTiming) returns (start: Place)
    requires ItemAt(log, from.ref).Ok?
    ensures start == RunStart(log, from, timing)
  {
    start := from;
    var before := RunBefore(log, start.ref, timing);
    while before.Some?
      invariant ItemAt(log, start.ref).Ok? && before == RunBefore(log, start.ref, timing)
      invariant RunStart(log, from, timing) == RunStart(log, start, timing)
      decreases start.ref.day - EarliestDay(log.Keys), start.ref.index
    {
      var elapsed := ItemAt(log, start.ref).value.loggedAt - ItemAt(log, before.value).value.loggedAt;
      start := Place(before.value, start.offsetMs + ToMs(elapsed));
      before := RunBefore(log, start.ref, timing);
    }
  }

  /** The anchor counted from the first play of its run; refused when the log's times make the
      offset negative. */
  function Anchored(log: Log, anchor: Landing, timing: StreamTiming): Result<Landing, StreamError> {
    if ItemAt(log, anchor.ref).Err? then Err(StaleSchedule)
    else
      var start := RunStart(log, Place(anchor.ref, anchor.offsetMs), timing);
      LandAt(start.ref, start.offsetMs)
  }

  // ---- Clock tune-in ----

  const DAY_US := 24 * HOUR_US

  /** How many plays at the head of a day are logged at or before `wall`. */
  function LoggedBy(items: seq<ScheduleItem>, wall: int): (n: nat)
    ensures n <= |items|
    ensures forall i :: 0 <= i < n ==> items[i].loggedAt <= wall
    ensures n < |items| ==> items[n].loggedAt > wall
  {
    if items == [] || items[0].loggedAt > wall then 0 else 1 + LoggedBy(items[1..], wall)
  }

  method LastAtOrBefore(items: seq<ScheduleItem>, wall: int) returns (found: Option<nat>)
    ensures found == if LoggedBy(items, wall) == 0 then None else Some(LoggedBy(items, wall) - 1)
  {
    found := None;
    for index := 0 to |items|
      invariant found == if index == 0 then None else Some(index - 1)
      invariant forall i :: 0 <= i < index ==> items[i].loggedAt <= wall
    {
      if items[index].loggedAt > wall {
        return;
      }
      found := Some(index);
    }
  }

  /** The play a clock falls in: the latest already logged on its day or, failing that, on the day
      before, and how far the clock is past it. */
  function FindAnchor(log: Log, wall: int): Result<Landing, StreamError> {
    var today := wall / DAY_US;
    var items, previous := Day(log, today), Day(log, today - 1);
    var logged := LoggedBy(items, wall);
    if items == [] then Err(NoBroadcast)
    else if logged > 0 then LandAt(ItemRef(today, logged - 1), ToMs(wall - items[logged - 1].loggedAt))
    else if previous != [] then
      LandAt(ItemRef(today - 1, |previous| - 1), ToMs(wall - previous[|previous| - 1].loggedAt))
    else Ok(Landing(ItemRef(today, 0), 0))
  }

  /** The run the anchor is in, while it lasts long enough to fade out; after that, the next song. */
  function LandFromAnchor(log: Log, anchor: Landing, timing: StreamTiming): Result<Option<Landing>, StreamError> {
    match Anchored(log, anchor, timing)
    case Err(error) => Err(error)
    case Ok(start) =>
      var file := ItemAt(log, start.ref).value.file;
      if file.Some? && start.offsetMs < file.value.SpanMs() && file.value.TailFits(start.offsetMs, timing) then
        Ok(Some(start))
      else
        match NextPlayable(log, start.ref, timing.maxDaysAhead, timing)
        case Err(error) => Err(error)
        case Ok(None) => Ok(None)
        case Ok(Some(ref)) => Ok(Some(Landing(ref, 0)))
  }

  datatype TunedIn = TunedIn(landing: Landing, clockOffset: int)

  /** Clock tune-in at the station's wall clock `wall`; the song landed on must be logged
      within the window of it. */
  function TuneIn(log: Log, wall: int, now: int, timing: StreamTiming): Result<TunedIn, StreamError> {
    match FindAnchor(log, wall)
    case Err(error) => Err(error)
    case Ok(anchor) =>
      match LandFromAnchor(log, anchor, timing)
      case Err(error) => Err(error)
      case Ok(None) => Err(NoBroadcast)
      case Ok(Some(landing)) =>
        match ItemAt(log, landing.ref)
        case Err(error) => Err(error)
        case Ok(item) =>
          if item.loggedAt - wall > timing.window then Err(NoBroadcast)
          else Ok(TunedIn(landing, wall - now))
  }

  // ---- Resume ----

  /** The walk over the time that passed. An offset into a play that has become unplayable means
      nothing any more and is dropped. */
  function PlayedOn(
      log: Log, start: Landing, elapsed: int, timing: StreamTiming): Result<Option<Landing>, StreamError> {
    match ItemAt(log, start.ref)
    case Err(error) => Err(error)
    case Ok(item) =>
      var from := if item.IsPlayable(timing) then start else Landing(start.ref, 0);
      Walked(log, AdvancedBy(from, elapsed), timing)
  }

  function Resume(log: Log, left: Landing, leftAt: int, now: int, timing: StreamTiming): Result<Landing, StreamError> {
    match PlayedOn(log, left, now - leftAt, timing)
    case Err(error) => Err(error)
    case Ok(None) => Err(EndOfSchedule)
    case Ok(Some(landing)) => Ok(landing)
  }
}
