/** What the walk's building blocks mean: which plays a look ahead holds, which of them air, and where
    playback can start. */
module ScheduleLaws {
  import opened Wrappers
  import opened Streaming
  import opened Schedule
  import opened TuneInRules
  import opened WalkLaws
  import opened TuneInLaws

  // ---- The plays of a look ahead ----

  /** A play is among those from `start` on exactly when it is logged, not before `start`, at most
      `days` days on, and no day on the way to it is without a play. */
  lemma {:induction false} ItemsFromIs(log: Log, start: ItemRef, days: nat, entry: Entry)
    ensures entry in ItemsFrom(log, start, days)
      <==> && Logged(log, entry) && !entry.ref.Before(start) && entry.ref.day <= start.day + days
           && forall d :: start.day <= d <= entry.ref.day ==> Day(log, d) != []
    decreases days, |Day(log, start.day)| - start.index
  {
    var today := Day(log, start.day);
    if today == [] {
    } else if start.index < |today| {
      ItemsFromIs(log, start.Next(), days, entry);
    } else if days > 0 {
      ItemsFromIs(log, ItemRef(start.day + 1, 0), days - 1, entry);
    }
  }

  /** A day without a log ends the walk, whatever is logged after it. */
  lemma {:induction false} MissingDayEndsWalk() returns (log: Log, timing: StreamTiming)
    ensures 1 !in log && Sound(log, Landing(ItemRef(0, 0), 0), timing) && Sound(log, Landing(ItemRef(2, 0), 0), timing)
    ensures Walked(log, Landing(ItemRef(0, 0), 60_000), timing) == Ok(None)
  {
    var first, second := PlayableFile(1, Some(60_000), None), PlayableFile(2, Some(60_000), None);
    timing := StreamTiming(4000, 3000, 3 * HOUR_US, 2);
    log := map[0 := [ScheduleItem(0, Some(first))], 2 := [ScheduleItem(2 * DAY_US, Some(second))]];
    assert ItemsFrom(log, ItemRef(0, 1), 2) == [];
    var played := [Entry(ItemRef(0, 0), log[0][0])];
    assert ItemsFrom(log, ItemRef(0, 0), 2) == played;
    assert Walk(played[1..], Some(first), 0, timing) == None;
  }

  // ---- Which plays air ----

  function FileId(item: ScheduleItem): Option<int> {
    match item.file case None => None case Some(file) => Some(file.fileId)
  }

  /** A play of a walk airs exactly when playback can start at its top and the nearest play before it
      in the walk where it could is of another file, or there is none. */
  lemma {:induction false} AirsInWalk(log: Log, start: ItemRef, timing: StreamTiming, k: nat)
    requires k < |ItemsFrom(log, start, timing.maxDaysAhead)|
    ensures
      var s := ItemsFrom(log, start, timing.maxDaysAhead);
      s[k] in AiredInWalk(log, start, timing)
      <==> && Sound(log, Landing(s[k].ref, 0), timing)
           && forall j :: 0 <= j < k && Sound(log, Landing(s[j].ref, 0), timing)
                && (forall i :: j < i < k ==> !Sound(log, Landing(s[i].ref, 0), timing))
                ==> FileId(s[j].item) != FileId(s[k].item)
  {
    var s := ItemsFrom(log, start, timing.maxDaysAhead);
    ItemsSorted(log, start, timing.maxDaysAhead);
    forall i | 0 <= i <= k ensures Sound(log, Landing(s[i].ref, 0), timing) <==> s[i].item.IsPlayable(timing) {
      ItemsFromReached(log, start, timing.maxDaysAhead, i);
    }
    AirsByNearest(s, k, None, timing);
    var nearest := NearestPlayable(s, k, timing);
    if nearest.Some? {
      forall j | 0 <= j < k && s[j].item.IsPlayable(timing)
          && (forall i :: j < i < k ==> !s[i].item.IsPlayable(timing))
        ensures j == nearest.value
      {
      }
    }
  }

  // ---- Where playback can start ----

  /** Playback can start at a place exactly when its play has a file and, from there on, the file still
      holds something to play, and the fade-out and the margin: up to its cue-out when it was analysed,
      up to its tagged end when not. */
  lemma {:induction false} SoundMeans(log: Log, landing: Landing, timing: StreamTiming)
    ensures Sound(log, landing, timing)
      <==> match ItemAt(log, landing.ref)
           case Err(_) => false
           case Ok(item) =>
             match item.file
             case None => false
             case Some(PlayableFile(_, _, Some(cues))) =>
               && cues.cueInMs + landing.offsetMs + cues.fadeOutMs + timing.marginMs <= cues.cueOutMs
               && cues.cueInMs + landing.offsetMs < cues.cueOutMs
             case Some(PlayableFile(_, Some(duration), None)) =>
               && landing.offsetMs + timing.defaultFadeOutMs + timing.marginMs <= duration
               && landing.offsetMs < duration
             case Some(PlayableFile(_, None, None)) => false
  {
  }
}
