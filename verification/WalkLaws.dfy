/** What the walk promises: it loses no time, it is monotone in the offset and composes, and one
    jump lands where the same playback, taken item by item, lands. */
module WalkLaws {
  import opened Wrappers
  import opened Streaming
  import opened Schedule
  import opened TuneInRules

  // ---- What the walk means: accounting over the plays that air ----

  /** The walk over plays that all air. */
  function Played(aired: seq<Entry>, offset: nat, timing: StreamTiming): Option<Landing>
    requires AllPlayable(aired, timing)
  {
    if aired == [] then None
    else
      var file := aired[0].item.file.value;
      if offset >= file.SpanMs() then Played(aired[1..], offset - file.SpanMs(), timing)
      else if file.TailFits(offset, timing) then Some(Landing(aired[0].ref, offset))
      else if |aired| == 1 then None
      else Some(Landing(aired[1].ref, 0))
  }

  lemma {:induction false} WalkIsPlayed(s: seq<Entry>, prior: Option<PlayableFile>, offset: nat, timing: StreamTiming)
    ensures Walk(s, prior, offset, timing) == Played(Aired(s, prior, timing), offset, timing)
  {
    if s == [] {
    } else {
      if !Airs(prior, s[0].item, timing) {
        WalkIsPlayed(s[1..], prior, offset, timing);
      } else {
        var file := s[0].item.file.value;
        WalkIsPlayed(s[1..], Some(file), if offset >= file.SpanMs() then offset - file.SpanMs() else 0, timing);
      }
    }
  }

  /** `offset` falls inside play `k`, but too little of it is left to fade out cleanly. */
  ghost predicate CutsTail(aired: seq<Entry>, offset: nat, k: nat, timing: StreamTiming)
    requires AllPlayable(aired, timing)
    requires k < |aired|
  {
    var into := offset - Spans(aired[..k]);
    0 <= into < SpanOf(aired[k]) && !aired[k].item.file.value.TailFits(into, timing)
  }

  /** `landing` is in play `k`, and the time spent is exactly what aired before it; or play
      `k - 1` had too little left and its tail was cut. */
  ghost predicate LandsIn(aired: seq<Entry>, offset: nat, k: nat, landing: Landing, timing: StreamTiming)
    requires AllPlayable(aired, timing)
    requires k < |aired|
  {
    && landing.ref == aired[k].ref
    && ( || (&& Spans(aired[..k]) + landing.offsetMs == offset
             && landing.offsetMs < SpanOf(aired[k])
             && aired[k].item.file.value.TailFits(landing.offsetMs, timing))
         || (k > 0 && landing.offsetMs == 0 && CutsTail(aired, offset, k - 1, timing)))
  }

  lemma {:induction false} LandsInTail(aired: seq<Entry>, offset: nat, k: nat, landing: Landing, timing: StreamTiming)
    requires AllPlayable(aired, timing) && k + 1 < |aired| && offset >= SpanOf(aired[0])
    ensures LandsIn(aired[1..], offset - SpanOf(aired[0]), k, landing, timing)
       <==> LandsIn(aired, offset, k + 1, landing, timing)
  {
    assert aired[..k + 1][1..] == aired[1..][..k];
    if k > 0 {
      assert aired[..k][1..] == aired[1..][..k - 1];
    }
  }

  /** No time is lost or made up on the way to a landing, but for one cut tail, after which the landing
      is at the top. */
  lemma {:induction false} PlayedAccounts(aired: seq<Entry>, offset: nat, timing: StreamTiming)
    returns (k: nat)
    requires AllPlayable(aired, timing) && Played(aired, offset, timing).Some?
    ensures k < |aired| && LandsIn(aired, offset, k, Played(aired, offset, timing).value, timing)
  {
    if offset >= SpanOf(aired[0]) {
      var j := PlayedAccounts(aired[1..], offset - SpanOf(aired[0]), timing);
      LandsInTail(aired, offset, j, Played(aired, offset, timing).value, timing);
      k := j + 1;
    } else if aired[0].item.file.value.TailFits(offset, timing) {
      k := 0;
    } else {
      k := 1;
    }
  }

  /** Only the walk's own landing accounts for the offset. */
  lemma {:induction false} AccountedIsPlayed(
      aired: seq<Entry>, offset: nat, k: nat, landing: Landing, timing: StreamTiming)
    requires AllPlayable(aired, timing) && k < |aired| && LandsIn(aired, offset, k, landing, timing)
    ensures Played(aired, offset, timing) == Some(landing)
  {
    if k == 0 {
    } else {
      assert Spans(aired[..1]) == SpanOf(aired[0]);
      SpansPrefix(aired, 1, k);
      if k > 1 {
        SpansPrefix(aired, 1, k - 1);
      }
      if offset >= SpanOf(aired[0]) {
        LandsInTail(aired, offset, k - 1, landing, timing);
        AccountedIsPlayed(aired[1..], offset - SpanOf(aired[0]), k - 1, landing, timing);
      }
    }
  }

  // ---- The cut tail ----

  /** Playing time dropped by a cut tail: what was left of the song the offset ran into. */
  function Skipped(aired: seq<Entry>, offset: nat, timing: StreamTiming): nat
    requires AllPlayable(aired, timing)
  {
    if aired == [] then 0
    else if offset >= SpanOf(aired[0]) then Skipped(aired[1..], offset - SpanOf(aired[0]), timing)
    else if aired[0].item.file.value.TailFits(offset, timing) then 0
    else SpanOf(aired[0]) - offset
  }

  lemma {:induction false} SpansTail(aired: seq<Entry>, k: nat)
    requires k < |aired|
    ensures Spans(aired[..k + 1]) == SpanOf(aired[0]) + Spans(aired[1..][..k])
  {
    assert aired[..k + 1][1..] == aired[1..][..k];
  }

  lemma {:induction false} CutsTailShift(aired: seq<Entry>, offset: nat, k: nat, timing: StreamTiming)
    requires AllPlayable(aired, timing) && k + 1 < |aired| && offset >= SpanOf(aired[0])
    ensures CutsTail(aired, offset, k + 1, timing) <==> CutsTail(aired[1..], offset - SpanOf(aired[0]), k, timing)
  {
    SpansTail(aired, k);
  }

  /** Where an offset is cut after the first play, the cut is of the rest. */
  lemma {:induction false} SkippedShift(aired: seq<Entry>, offset: nat, k: nat, timing: StreamTiming)
    requires AllPlayable(aired, timing) && k + 1 < |aired| && offset >= SpanOf(aired[0])
    requires Skipped(aired[1..], offset - SpanOf(aired[0]), timing) > 0 ==>
      && k > 0 && CutsTail(aired[1..], offset - SpanOf(aired[0]), k - 1, timing)
      && Skipped(aired[1..], offset - SpanOf(aired[0]), timing) < aired[1..][k - 1].item.file.value.MinSpanMs(timing)
    ensures Skipped(aired, offset, timing) > 0 ==>
      && CutsTail(aired, offset, k, timing)
      && Skipped(aired, offset, timing) < aired[k].item.file.value.MinSpanMs(timing)
  {
    if k > 0 {
      CutsTailShift(aired, offset, k - 1, timing);
    }
  }

  /** The offset, plus what a cut skipped, is exactly the time before the landing; and a cut
      skips something, but less than the minimum span of the song it cuts. */
  lemma {:induction false} SkippedAccounts(aired: seq<Entry>, offset: nat, timing: StreamTiming) returns (k: nat)
    requires AllPlayable(aired, timing) && Played(aired, offset, timing).Some?
    ensures k < |aired| && LandsIn(aired, offset, k, Played(aired, offset, timing).value, timing)
    ensures Spans(aired[..k]) + Played(aired, offset, timing).value.offsetMs == offset + Skipped(aired, offset, timing)
    ensures Skipped(aired, offset, timing) > 0 ==>
      && k > 0 && CutsTail(aired, offset, k - 1, timing)
      && Skipped(aired, offset, timing) < aired[k - 1].item.file.value.MinSpanMs(timing)
  {
    if offset >= SpanOf(aired[0]) {
      var j := SkippedAccounts(aired[1..], offset - SpanOf(aired[0]), timing);
      LandsInTail(aired, offset, j, Played(aired, offset, timing).value, timing);
      SpansTail(aired, j);
      SkippedShift(aired, offset, j, timing);
      k := j + 1;
    } else if aired[0].item.file.value.TailFits(offset, timing) {
      k := 0;
    } else {
      k := 1;
      assert Spans(aired[..1]) == SpanOf(aired[0]);
    }
  }

  lemma {:induction false} SpansAtLeastLast(entries: seq<Entry>)
    requires entries != []
    ensures Spans(entries) >= SpanOf(entries[|entries| - 1])
  {
    var last := |entries| - 1;
    SpansNext(entries, last);
    assert entries[..last + 1] == entries;
  }

  /** The schedule ends exactly when too little of everything that airs is left. */
  lemma {:induction false} PlayedEnds(aired: seq<Entry>, offset: nat, timing: StreamTiming)
    requires AllPlayable(aired, timing)
    ensures Played(aired, offset, timing).None?
       <==> aired == [] || Spans(aired) - offset < Max(1, aired[|aired| - 1].item.file.value.MinSpanMs(timing))
  {
    if aired == [] {
    } else {
      PlayedEnds(aired[1..], Max(0, offset - SpanOf(aired[0])), timing);
      SpansAppend([aired[0]], aired[1..]);
      if |aired| > 1 {
        SpansAtLeastLast(aired[1..]);
      }
    }
  }

  // ---- Monotone ----

  /** `a` is no later a place than `b`; having run out is later than anywhere. */
  predicate NoLater(a: Option<Landing>, b: Option<Landing>) {
    b.None? || (a.Some? && (a.value.ref.Before(b.value.ref)
                            || (a.value.ref == b.value.ref && a.value.offsetMs <= b.value.offsetMs)))
  }

  lemma {:induction false} PlayedMonotone(aired: seq<Entry>, a: nat, b: nat, timing: StreamTiming)
    requires AllPlayable(aired, timing) && Sorted(aired) && a <= b
    ensures NoLater(Played(aired, a, timing), Played(aired, b, timing))
  {
    if aired != [] && b >= SpanOf(aired[0]) && Played(aired, b, timing).Some? {
      if a >= SpanOf(aired[0]) {
        PlayedMonotone(aired[1..], a - SpanOf(aired[0]), b - SpanOf(aired[0]), timing);
      } else {
        var k := PlayedAccounts(aired[1..], b - SpanOf(aired[0]), timing);
        assert aired[1..][k] == aired[k + 1];
      }
    }
  }

  // ---- Composition ----

  lemma {:induction false} PlayedShift(aired: seq<Entry>, k: nat, offset: nat, timing: StreamTiming)
    requires AllPlayable(aired, timing) && k <= |aired|
    ensures AllPlayable(aired[k..], timing)
    ensures Played(aired, Spans(aired[..k]) + offset, timing) == Played(aired[k..], offset, timing)
  {
    if k == 0 {
      assert aired[0..] == aired;
    } else {
      PlayedShift(aired[1..], k - 1, offset, timing);
      assert aired[..k][1..] == aired[1..][..k - 1];
      assert aired[1..][k - 1..] == aired[k..];
    }
  }

  /** Looking further ahead never changes a landing already found. */
  lemma {:induction false} PlayedLonger(aired: seq<Entry>, more: seq<Entry>, offset: nat, timing: StreamTiming)
    requires AllPlayable(more, timing) && aired <= more
    ensures AllPlayable(aired, timing)
    ensures Played(aired, offset, timing).Some? ==> Played(more, offset, timing) == Played(aired, offset, timing)
  {
    assert aired == more[..|aired|];
    if aired != [] && offset >= SpanOf(aired[0]) {
      assert aired[1..] <= more[1..];
      PlayedLonger(aired[1..], more[1..], offset - SpanOf(aired[0]), timing);
    }
  }

  // ---- The walk over the schedule ----

  /** What airs in a walk from `start`. */
  function AiredInWalk(log: Log, start: ItemRef, timing: StreamTiming): (aired: seq<Entry>)
    ensures AllPlayable(aired, timing)
  {
    AiredFrom(log, start, timing.maxDaysAhead, None, timing)
  }

  lemma {:induction false} WalkedIsPlayed(log: Log, start: Landing, timing: StreamTiming)
    requires ItemAt(log, start.ref).Ok?
    ensures Walked(log, start, timing) == Ok(Played(AiredInWalk(log, start.ref, timing), start.offsetMs, timing))
  {
    WalkIsPlayed(ItemsFrom(log, start.ref, timing.maxDaysAhead), None, start.offsetMs, timing);
  }

  /** No time is lost: a walk lands at `landing` exactly when the plays that air before it take
      the offset spent, or overrun it by the one tail that was cut. */
  lemma {:induction false} WalkAccounts(log: Log, start: Landing, landing: Landing, timing: StreamTiming)
    requires ItemAt(log, start.ref).Ok?
    ensures
      var aired := AiredInWalk(log, start.ref, timing);
      Walked(log, start, timing) == Ok(Some(landing))
      <==> exists k: nat :: k < |aired| && LandsIn(aired, start.offsetMs, k, landing, timing)
  {
    var aired := AiredInWalk(log, start.ref, timing);
    WalkedIsPlayed(log, start, timing);
    if Walked(log, start, timing) == Ok(Some(landing)) {
      var k := PlayedAccounts(aired, start.offsetMs, timing);
    }
    if k: nat :| k < |aired| && LandsIn(aired, start.offsetMs, k, landing, timing) {
      AccountedIsPlayed(aired, start.offsetMs, k, landing, timing);
    }
  }

  /** The walk runs out exactly when nothing airs, or less is left of what airs than its last
      song needs. */
  lemma {:induction false} WalkEnds(log: Log, start: Landing, timing: StreamTiming)
    requires ItemAt(log, start.ref).Ok?
    ensures
      var aired := AiredInWalk(log, start.ref, timing);
      Walked(log, start, timing) == Ok(None)
      <==> aired == []
           || Spans(aired) - start.offsetMs < Max(1, aired[|aired| - 1].item.file.value.MinSpanMs(timing))
  {
    WalkedIsPlayed(log, start, timing);
    PlayedEnds(AiredInWalk(log, start.ref, timing), start.offsetMs, timing);
  }

  /** A larger offset never lands earlier; once the schedule has ended it stays ended. */
  lemma {:induction false} WalkMonotone(log: Log, ref: ItemRef, a: nat, b: nat, timing: StreamTiming)
    requires ItemAt(log, ref).Ok? && a <= b
    ensures Walked(log, Landing(ref, a), timing).Ok? && Walked(log, Landing(ref, b), timing).Ok?
    ensures NoLater(Walked(log, Landing(ref, a), timing).value, Walked(log, Landing(ref, b), timing).value)
  {
    WalkedIsPlayed(log, Landing(ref, a), timing);
    WalkedIsPlayed(log, Landing(ref, b), timing);
    AiredFromSorted(log, ref, timing.maxDaysAhead, None, timing);
    PlayedMonotone(AiredInWalk(log, ref, timing), a, b, timing);
  }

  /** What airs from some play that aired on is what a fresh look from that play sees. */
  lemma {:induction false} AiredFromAt(
      log: Log, start: ItemRef, days: nat, prior: Option<PlayableFile>, k: nat, timing: StreamTiming)
    requires k < |AiredFrom(log, start, days, prior, timing)|
    ensures
      var aired := AiredFrom(log, start, days, prior, timing);
      && Reaches(log, start, days, aired[k])
      && aired[k..] == AiredFrom(log, aired[k].ref, DaysLeft(start, days, aired[k]), None, timing)
    decreases k
  {
    var aired := AiredFrom(log, start, days, prior, timing);
    AiredFromUnfold(log, start, days, prior, timing);
    var next, left := aired[0].ref.Next(), DaysLeft(start, days, aired[0]);
    if k == 0 {
      assert ItemsFrom(log, aired[0].ref, left)[1..] == ItemsFrom(log, next, left);
    } else {
      assert aired[1..][k - 1] == aired[k] && aired[1..][k - 1..] == aired[k..];
      AiredFromAt(log, next, left, aired[0].item.file, k - 1, timing);
    }
  }

  /** Walking on: `b` more milliseconds from where a walk landed is the direct walk of both
      offsets, plus what the first landing's cut tail skipped. */
  lemma {:induction false} WalkComposes(log: Log, start: Landing, b: nat, timing: StreamTiming)
    requires ItemAt(log, start.ref).Ok?
    requires Walked(log, start, timing).Ok? && Walked(log, start, timing).value.Some?
    ensures
      var first := Walked(log, start, timing).value.value;
      var skipped := Skipped(AiredInWalk(log, start.ref, timing), start.offsetMs, timing);
      var direct := Walked(log, Landing(start.ref, start.offsetMs + skipped + b), timing);
      && direct.Ok?
      && (direct.value.Some? ==> Walked(log, Landing(first.ref, first.offsetMs + b), timing) == direct)
  {
    var first := Walked(log, start, timing).value.value;
    var aired := AiredInWalk(log, start.ref, timing);
    var skipped := Skipped(aired, start.offsetMs, timing);
    var total := start.offsetMs + skipped + b;
    WalkedIsPlayed(log, start, timing);
    WalkedIsPlayed(log, Landing(start.ref, total), timing);
    var k := SkippedAccounts(aired, start.offsetMs, timing);
    PlayedShift(aired, k, first.offsetMs + b, timing);
    AiredFromAt(log, start.ref, timing.maxDaysAhead, None, k, timing);
    var left := DaysLeft(start.ref, timing.maxDaysAhead, aired[k]);
    AiredFromLonger(log, first.ref, left, timing.maxDaysAhead, None, timing);
    PlayedLonger(aired[k..], AiredInWalk(log, first.ref, timing), first.offsetMs + b, timing);
    WalkedIsPlayed(log, Landing(first.ref, first.offsetMs + b), timing);
  }

  // ---- Landings are sound ----

  /** A place playback can start: a playable play with its minimum span left. */
  predicate Sound(log: Log, landing: Landing, timing: StreamTiming) {
    && ItemAt(log, landing.ref).Ok?
    && ItemAt(log, landing.ref).value.IsPlayable(timing)
    && landing.offsetMs < ItemAt(log, landing.ref).value.file.value.SpanMs()
    && ItemAt(log, landing.ref).value.file.value.TailFits(landing.offsetMs, timing)
  }

  lemma {:induction false} WalkedSound(log: Log, start: Landing, timing: StreamTiming)
    requires Walked(log, start, timing).Ok? && Walked(log, start, timing).value.Some?
    ensures Sound(log, Walked(log, start, timing).value.value, timing)
  {
    var aired := AiredInWalk(log, start.ref, timing);
    WalkedIsPlayed(log, start, timing);
    var k := PlayedAccounts(aired, start.offsetMs, timing);
    AiredFromAt(log, start.ref, timing.maxDaysAhead, None, k, timing);
  }

  /** Walking zero from a place stays there exactly when playback can start there. */
  lemma {:induction false} WalkZero(log: Log, landing: Landing, timing: StreamTiming)
    ensures Walked(log, landing, timing) == Ok(Some(landing)) <==> Sound(log, landing, timing)
  {
    if Walked(log, landing, timing) == Ok(Some(landing)) {
      WalkedSound(log, landing, timing);
    }
  }
}
