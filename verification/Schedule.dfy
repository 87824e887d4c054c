/** The logged schedule as a listener walks it: the plays from a position on, and which of
    them air (backend/domain/tune_in.py).

    `Aired` is the one rule behind every walk: an unplayable play takes no time, and a play of
    the file that just aired is skipped. It does not look at offsets, so it is the reference
    against which the walk, the next-item rule and the backward run rule are compared. */
module Schedule {
  import opened Wrappers
  import opened Streaming

  /** The logged days; a day that is absent has no log. Finite, as any log is. */
  type Log = map<int, seq<ScheduleItem>>

  function Day(log: Log, day: int): seq<ScheduleItem> {
    if day in log then log[day] else []
  }

  function ItemAt(log: Log, ref: ItemRef): Result<ScheduleItem, StreamError> {
    if ref.index < |Day(log, ref.day)| then Ok(Day(log, ref.day)[ref.index]) else Err(StaleSchedule)
  }

  /** A play together with its position. */
  datatype Entry = Entry(ref: ItemRef, item: ScheduleItem)

  ghost predicate Logged(log: Log, entry: Entry) {
    ItemAt(log, entry.ref) == Ok(entry.item)
  }

  // ---- The plays from a position on ----

  /** The plays from `start` on, over its day plus `days` following days; a day without a log
      ends them. */
  function ItemsFrom(log: Log, start: ItemRef, days: nat): (entries: seq<Entry>)
    decreases days, |Day(log, start.day)| - start.index
  {
    if Day(log, start.day) == [] then []
    else if start.index < |Day(log, start.day)| then
      [Entry(start, Day(log, start.day)[start.index])] + ItemsFrom(log, start.Next(), days)
    else if days == 0 then []
    else ItemsFrom(log, ItemRef(start.day + 1, 0), days - 1)
  }

  /** Each play a walk meets is logged, not before the start, and on a day it may look at. */
  ghost predicate Reaches(log: Log, start: ItemRef, days: nat, entry: Entry) {
    && Logged(log, entry)
    && start.day <= entry.ref.day <= start.day + days
    && !entry.ref.Before(start)
  }

  /** What is left of the look ahead after reaching `entry`. */
  function DaysLeft(start: ItemRef, days: nat, entry: Entry): (left: nat)
    requires start.day <= entry.ref.day <= start.day + days
  {
    start.day + days - entry.ref.day
  }

  /** What follows a play is what a fresh look from the next position sees, up to the same
      last day. */
  lemma {:induction false} ItemsFromSuffix(log: Log, start: ItemRef, days: nat, k: nat)
    requires k < |ItemsFrom(log, start, days)|
    ensures
      var entry := ItemsFrom(log, start, days)[k];
      && Reaches(log, start, days, entry)
      && ItemsFrom(log, start, days)[k + 1..]
         == ItemsFrom(log, entry.ref.Next(), DaysLeft(start, days, entry))
    decreases days, |Day(log, start.day)| - start.index
  {
    var s := ItemsFrom(log, start, days);
    if start.index < |Day(log, start.day)| {
      var rest := ItemsFrom(log, start.Next(), days);
      if k == 0 {
        assert s[1..] == rest;
      } else {
        ItemsFromSuffix(log, start.Next(), days, k - 1);
        assert s[k] == rest[k - 1] && s[k + 1..] == rest[k..];
      }
    } else {
      ItemsFromSuffix(log, ItemRef(start.day + 1, 0), days - 1, k);
    }
  }

  lemma {:induction false} ItemsFromReached(log: Log, start: ItemRef, days: nat, k: nat)
    requires k < |ItemsFrom(log, start, days)|
    ensures Reaches(log, start, days, ItemsFrom(log, start, days)[k])
  {
    ItemsFromSuffix(log, start, days, k);
  }

  lemma {:induction false} ItemsFromSorted(log: Log, start: ItemRef, days: nat, i: nat, j: nat)
    requires i < j < |ItemsFrom(log, start, days)|
    ensures ItemsFrom(log, start, days)[i].ref.Before(ItemsFrom(log, start, days)[j].ref)
  {
    var s := ItemsFrom(log, start, days);
    ItemsFromSuffix(log, start, days, i);
    assert s[j] == s[i + 1..][j - i - 1];
    ItemsFromReached(log, s[i].ref.Next(), DaysLeft(start, days, s[i]), j - i - 1);
  }

  /** A longer look ahead only adds plays at the end. */
  lemma {:induction false} ItemsFromLonger(log: Log, start: ItemRef, days: nat, more: nat)
    requires days <= more
    ensures ItemsFrom(log, start, days) <= ItemsFrom(log, start, more)
    decreases days, |Day(log, start.day)| - start.index
  {
    if start.index < |Day(log, start.day)| {
      ItemsFromLonger(log, start.Next(), days, more);
    } else if Day(log, start.day) != [] && days > 0 {
      ItemsFromLonger(log, ItemRef(start.day + 1, 0), days - 1, more - 1);
    }
  }

  // ---- Which plays air ----

  function FileOf(item: ScheduleItem, timing: StreamTiming): Option<PlayableFile> {
    if item.IsPlayable(timing) then item.file else None
  }

  predicate SameFile(prior: Option<PlayableFile>, file: Option<PlayableFile>) {
    prior.Some? && file.Some? && prior.value.fileId == file.value.fileId
  }

  /** Whether a play airs when `prior` is the file that just aired. */
  predicate Airs(prior: Option<PlayableFile>, item: ScheduleItem, timing: StreamTiming) {
    item.IsPlayable(timing) && !SameFile(prior, item.file)
  }

  ghost predicate AllPlayable(entries: seq<Entry>, timing: StreamTiming) {
    forall i :: 0 <= i < |entries| ==> entries[i].item.IsPlayable(timing)
  }

  /** The plays that air, in order. */
  function Aired(s: seq<Entry>, prior: Option<PlayableFile>, timing: StreamTiming): (aired: seq<Entry>)
    ensures AllPlayable(aired, timing)
  {
    if s == [] then []
    else if Airs(prior, s[0].item, timing) then [s[0]] + Aired(s[1..], s[0].item.file, timing)
    else Aired(s[1..], prior, timing)
  }

  function SpanOf(entry: Entry): nat {
    if entry.item.file.Some? then entry.item.file.value.SpanMs() else 0
  }

  /** Total playing time of some plays. */
  function Spans(entries: seq<Entry>): nat {
    if entries == [] then 0 else SpanOf(entries[0]) + Spans(entries[1..])
  }

  lemma {:induction false} SpansAppend(a: seq<Entry>, b: seq<Entry>)
    ensures Spans(a + b) == Spans(a) + Spans(b)
  {
    if a == [] {
      assert a + b == b;
    } else {
      assert (a + b)[1..] == a[1..] + b;
      SpansAppend(a[1..], b);
    }
  }

  lemma {:induction false} SpansPrefix(s: seq<Entry>, i: nat, j: nat)
    requires i <= j <= |s|
    ensures Spans(s[..i]) <= Spans(s[..j])
  {
    assert s[..j] == s[..i] + s[i..j];
    SpansAppend(s[..i], s[i..j]);
  }

  lemma {:induction false} SpansNext(s: seq<Entry>, k: nat)
    requires k < |s|
    ensures Spans(s[..k + 1]) == Spans(s[..k]) + SpanOf(s[k])
  {
    assert s[..k + 1] == s[..k] + [s[k]];
    SpansAppend(s[..k], [s[k]]);
  }

  /** Plays in strictly increasing position. */
  ghost predicate Sorted(s: seq<Entry>) {
    forall i, j :: 0 <= i < j < |s| ==> s[i].ref.Before(s[j].ref)
  }

  lemma {:induction false} AiredWithin(s: seq<Entry>, prior: Option<PlayableFile>, timing: StreamTiming)
    ensures forall e :: e in Aired(s, prior, timing) ==> e in s
  {
    if s == [] {
    } else {
      AiredWithin(s[1..], prior, timing);
      AiredWithin(s[1..], s[0].item.file, timing);
    }
  }

  lemma {:induction false} AiredSorted(s: seq<Entry>, prior: Option<PlayableFile>, timing: StreamTiming)
    requires Sorted(s)
    ensures Sorted(Aired(s, prior, timing))
  {
    if s == [] {
    } else {
      AiredSorted(s[1..], prior, timing);
      AiredSorted(s[1..], s[0].item.file, timing);
      AiredWithin(s[1..], s[0].item.file, timing);
      var rest := Aired(s[1..], s[0].item.file, timing);
      forall j | 0 <= j < |rest| ensures s[0].ref.Before(rest[j].ref) {
        assert rest[j] in s[1..];
      }
    }
  }

  lemma {:induction false} AiredAppend(
      s: seq<Entry>, t: seq<Entry>, prior: Option<PlayableFile>, timing: StreamTiming)
    ensures Aired(s, prior, timing) <= Aired(s + t, prior, timing)
  {
    if s == [] {
    } else {
      assert (s + t)[1..] == s[1..] + t;
      AiredAppend(s[1..], t, prior, timing);
      AiredAppend(s[1..], t, s[0].item.file, timing);
    }
  }

  /** The first play that airs is reached by skipping those that do not, and the rest air with
      its file as the one that just aired. */
  lemma {:induction false} AiredHead(s: seq<Entry>, prior: Option<PlayableFile>, timing: StreamTiming)
    returns (k: nat)
    requires Aired(s, prior, timing) != []
    ensures k < |s| && Airs(prior, s[k].item, timing)
    ensures forall i :: 0 <= i < k ==> !Airs(prior, s[i].item, timing)
    ensures Aired(s, prior, timing) == [s[k]] + Aired(s[k + 1..], s[k].item.file, timing)
  {
    if Airs(prior, s[0].item, timing) {
      k := 0;
    } else {
      var j := AiredHead(s[1..], prior, timing);
      k := j + 1;
      assert s[1..][j] == s[k] && s[1..][j + 1..] == s[k + 1..];
    }
  }

  /** The plays that air from `start` on, with `prior` the file that just aired. */
  function AiredFrom(log: Log, start: ItemRef, days: nat, prior: Option<PlayableFile>, timing: StreamTiming)
    : (aired: seq<Entry>)
    ensures AllPlayable(aired, timing)
  {
    Aired(ItemsFrom(log, start, days), prior, timing)
  }

  /** After a play airs, what airs next depends only on its position and its file. */
  lemma {:induction false} AiredFromUnfold(
      log: Log, start: ItemRef, days: nat, prior: Option<PlayableFile>, timing: StreamTiming)
    requires AiredFrom(log, start, days, prior, timing) != []
    ensures
      var aired := AiredFrom(log, start, days, prior, timing);
      && Reaches(log, start, days, aired[0])
      && Airs(prior, aired[0].item, timing)
      && aired[1..] == AiredFrom(log, aired[0].ref.Next(), DaysLeft(start, days, aired[0]),
                                 aired[0].item.file, timing)
  {
    var k := AiredHead(ItemsFrom(log, start, days), prior, timing);
    ItemsFromSuffix(log, start, days, k);
  }

  lemma {:induction false} AiredFromSorted(
      log: Log, start: ItemRef, days: nat, prior: Option<PlayableFile>, timing: StreamTiming)
    ensures Sorted(AiredFrom(log, start, days, prior, timing))
  {
    var s := ItemsFrom(log, start, days);
    forall i, j | 0 <= i < j < |s| ensures s[i].ref.Before(s[j].ref) {
      ItemsFromSorted(log, start, days, i, j);
    }
    AiredSorted(s, prior, timing);
  }

  lemma {:induction false} AiredFromLonger(
      log: Log, start: ItemRef, days: nat, more: nat, prior: Option<PlayableFile>, timing: StreamTiming)
    requires days <= more
    ensures AiredFrom(log, start, days, prior, timing) <= AiredFrom(log, start, more, prior, timing)
  {
    var s, t := ItemsFrom(log, start, days), ItemsFrom(log, start, more);
    ItemsFromLonger(log, start, days, more);
    assert t == s + t[|s|..];
    AiredAppend(s, t[|s|..], prior, timing);
  }
}
