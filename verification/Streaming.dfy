/** The value rules of tune-in streaming (backend/domain/streaming.py): cue points and markers,
    how long a file plays, and where playback can start.

    Validating constructors are subset types, so a value that exists is a valid one. Positions
    are whole milliseconds, times of day whole microseconds, and a day is a day number. */
module Streaming {
  import opened Wrappers

  datatype StreamError = NoBroadcast | EndOfSchedule | StaleSchedule | InvalidStreamValue

  // ---- Cue points and the markers a person edits ----

  datatype RawCuePoints = CuePoints(
    cueInMs: int, cueOutMs: int, fadeInMs: int, fadeOutMs: int, startNextMs: int, gainDb: real)
  {
    predicate Valid() {
      && 0 <= cueInMs < cueOutMs
      && 0 <= fadeInMs
      && 0 <= fadeOutMs
      && 0 <= startNextMs < cueOutMs - cueInMs
    }
  }

  type CuePoints = c: RawCuePoints | c.Valid() witness CuePoints(0, 1, 0, 0, 0, 0.0)

  datatype RawCueMarkers = CueMarkers(startMs: int, eomMs: int, fadeAtMs: int, stopMs: int)
  {
    predicate Valid() {
      && 0 <= startMs < eomMs <= stopMs
      && startMs <= fadeAtMs <= stopMs
    }
  }

  type CueMarkers = m: RawCueMarkers | m.Valid() witness CueMarkers(0, 1, 0, 1)

  function Max(a: int, b: int): int {
    if a < b then b else a
  }

  /** The markers a song opens with. */
  function FromPoints(points: CuePoints): CueMarkers {
    CueMarkers(
      points.cueInMs,
      points.cueOutMs - points.startNextMs,
      Max(points.cueInMs, points.cueOutMs - points.fadeOutMs),
      points.cueOutMs)
  }

  /** The points the engine plays for these markers. */
  function ToPoints(markers: CueMarkers, gainDb: real): CuePoints {
    CuePoints(markers.startMs, markers.stopMs, 0, markers.stopMs - markers.fadeAtMs,
              markers.stopMs - markers.eomMs, gainDb)
  }

  /** Saving markers and opening them again loses nothing; opening points and saving them
      unchanged loses exactly a fade-in and the part of a fade-out longer than the song. */
  lemma {:induction false} MarkersRoundTrip(markers: CueMarkers, points: CuePoints, gainDb: real)
    ensures FromPoints(ToPoints(markers, gainDb)) == markers
    ensures ToPoints(FromPoints(points), points.gainDb) == points
       <==> points.fadeInMs == 0 && points.fadeOutMs <= points.cueOutMs - points.cueInMs
  {
  }

  // ---- Timing, files and plays ----

  datatype RawStreamTiming = StreamTiming(
    defaultFadeOutMs: int, marginMs: int, window: int, maxDaysAhead: int)
  {
    predicate Valid() {
      0 <= defaultFadeOutMs && 0 <= marginMs && 0 < window && 1 <= maxDaysAhead
    }
  }

  const HOUR_US := 3_600_000_000

  type StreamTiming = t: RawStreamTiming | t.Valid() witness StreamTiming(4000, 3000, 3 * HOUR_US, 2)

  /** A library file as a play uses it; two plays are of one file when the ids agree. */
  datatype PlayableFile = PlayableFile(fileId: int, durationMs: Option<nat>, cues: Option<CuePoints>)
  {
    /** How much of the file is played: what its cues keep, or all that its tag says there is. */
    function SpanMs(): nat {
      if cues.Some? then cues.value.cueOutMs - cues.value.cueInMs
      else if durationMs.Some? then durationMs.value
      else 0
    }

    /** The least that must be left to play for the fade-out and its margin. */
    function MinSpanMs(timing: StreamTiming): nat {
      (if cues.Some? then cues.value.fadeOutMs else timing.defaultFadeOutMs) + timing.marginMs
    }

    predicate TailFits(offsetMs: int, timing: StreamTiming) {
      SpanMs() - offsetMs >= MinSpanMs(timing)
    }

    predicate IsPlayable(timing: StreamTiming) {
      SpanMs() > 0 && TailFits(0, timing)
    }
  }

  /** One logged play; a play with no file keeps its place so that indices stay stable. */
  datatype ScheduleItem = ScheduleItem(loggedAt: int, file: Option<PlayableFile>)
  {
    predicate IsPlayable(timing: StreamTiming) {
      file.Some? && file.value.IsPlayable(timing)
    }
  }

  datatype ItemRef = ItemRef(day: int, index: nat)
  {
    /** The position just after this one in the same day. */
    function Next(): ItemRef {
      ItemRef(day, index + 1)
    }

    predicate Before(other: ItemRef) {
      day < other.day || (day == other.day && index < other.index)
    }
  }

  /** Where playback starts: an item, and milliseconds after its cue-in. */
  datatype Landing = Landing(ref: ItemRef, offsetMs: nat)

  /** The validating constructor: a negative offset is refused. */
  function LandAt(ref: ItemRef, offsetMs: int): Result<Landing, StreamError> {
    if offsetMs < 0 then Err(InvalidStreamValue) else Ok(Landing(ref, offsetMs))
  }

  /** Whole milliseconds in a duration, rounded down. */
  function ToMs(delta: int): int {
    delta / 1000
  }

  /** The place reached by playing on from a landing; time that ran backwards is ignored. */
  function AdvancedBy(landing: Landing, elapsed: int): Landing {
    Landing(landing.ref, landing.offsetMs + ToMs(Max(0, elapsed)))
  }
}
