/** The batch cue analyser's protocol reader (backend/playout/cue_analysis.py): it follows one
    child's output lines under deadlines and says what became of each file.

    The child's output is a list of lines with the time each arrives; reading a line takes no
    time of its own. A line is given already split and parsed. */
module CueReader {
  import opened Wrappers

  datatype Json =
    | JNull | JBool(truth: bool) | JInt(n: int) | JNumber(x: real) | JString(text: string)
    | JArray(items: seq<Json>) | JObject(fields: map<string, Json>)

  type Metadata = map<string, string>

  /** One output line: a begin with the number its body spells, a result with its JSON (none when
      it does not parse), or Liquidsoap's log. */
  datatype Line = LogLine | Begin(number: Option<nat>) | ResultLine(parsed: Option<Json>)

  datatype Rejection = NotJson | NotAnObject | WrongIndex | BadMetadata | NoResult

  datatype AnalyserError = BeginOutOfOrder | ResultWithoutFile | NeverBegan

  // ---- One result line ----

  predicate MapsStrings(json: Json) {
    json.JObject? && forall key :: key in json.fields ==> json.fields[key].JString?
  }

  function Field(json: Json, name: string): Json
    requires json.JObject?
  {
    if name in json.fields then json.fields[name] else JNull
  }

  /** Why a result line breaks the protocol for the file begun; none when it is valid. */
  function ResultProblem(parsed: Option<Json>, begun: nat): Option<Rejection> {
    if parsed.None? then Some(NotJson)
    else if !parsed.value.JObject? then Some(NotAnObject)
    else if Field(parsed.value, "index") != JInt(begun) then Some(WrongIndex)
    else if !MapsStrings(Field(parsed.value, "metadata")) then Some(BadMetadata)
    else None
  }

  function MetadataOf(json: Json): Metadata
    requires json.JObject? && MapsStrings(Field(json, "metadata"))
  {
    var fields := Field(json, "metadata").fields;
    map key | key in fields :: fields[key].text
  }

  // ---- What a file's own lines say about it ----

  datatype Verdict = NeverBegun | Stalled | Rejected(why: Rejection) | Analysed(metadata: Metadata)

  /** What the line after a file's begin makes of it. */
  function Judge(line: Line, i: nat): Verdict
    requires !line.LogLine?
  {
    if line.Begin? then Rejected(NoResult)
    else
      match ResultProblem(line.parsed, i)
      case Some(why) => Rejected(why)
      case None => Analysed(MetadataOf(line.parsed.value))
  }

  ghost predicate Protocol(lines: seq<Line>) {
    forall k :: 0 <= k < |lines| ==> !lines[k].LogLine?
  }

  /** One file's fate, read off the protocol lines alone: it is decided by the line that follows
      its begin, whatever happens to the other files. */
  function VerdictOf(lines: seq<Line>, i: nat): Verdict
    requires Protocol(lines)
  {
    if lines == [] then NeverBegun
    else
      var last, before := lines[|lines| - 1], VerdictOf(lines[..|lines| - 1], i);
      if last == Begin(Some(i)) then Stalled
      else if before == Stalled then Judge(last, i)
      else before
  }

  // ---- The reader's steps ----

  datatype ReaderState = ReaderState(
    metadata: map<nat, Metadata>, rejected: map<nat, Rejection>, begun: Option<nat>)
  {
    predicate Settled(i: nat) {
      i in metadata || i in rejected
    }

    function NextIndex(): nat {
      if begun.None? then 0 else begun.value + 1
    }
  }

  const START := ReaderState(map[], map[], None)

  function StepBegin(state: ReaderState, number: Option<nat>, files: nat): Result<ReaderState, AnalyserError> {
    var expected := state.NextIndex();
    if number != Some(expected) || expected >= files then Err(BeginOutOfOrder)
    else if state.begun.Some? && !state.Settled(state.begun.value) then
      Ok(state.(rejected := state.rejected[state.begun.value := NoResult], begun := Some(expected)))
    else Ok(state.(begun := Some(expected)))
  }

  function StepResult(state: ReaderState, parsed: Option<Json>): Result<ReaderState, AnalyserError> {
    if state.begun.None? || state.Settled(state.begun.value) then Err(ResultWithoutFile)
    else
      match ResultProblem(parsed, state.begun.value)
      case Some(why) => Ok(state.(rejected := state.rejected[state.begun.value := why]))
      case None => Ok(state.(metadata := state.metadata[state.begun.value := MetadataOf(parsed.value)]))
  }

  function Step(state: ReaderState, line: Line, files: nat): Result<ReaderState, AnalyserError> {
    match line
    case LogLine => Ok(state)
    case Begin(number) => StepBegin(state, number, files)
    case ResultLine(parsed) => StepResult(state, parsed)
  }

  /** The state after some protocol lines, or the error that ended them. */
  function Follow(lines: seq<Line>, files: nat): Result<ReaderState, AnalyserError> {
    if lines == [] then Ok(START)
    else
      match Follow(lines[..|lines| - 1], files)
      case Err(error) => Err(error)
      case Ok(state) => Step(state, lines[|lines| - 1], files)
  }

  /** What the accepted lines so far say: the state holds every file's own verdict, files begin in
      order, and every file before the last begun is settled. */
  ghost predicate Agrees(state: ReaderState, lines: seq<Line>, files: nat)
    requires Protocol(lines)
  {
    && (state.begun.Some? ==> state.begun.value < files)
    && (forall i: nat :: i < state.NextIndex() <==> VerdictOf(lines, i) != NeverBegun)
    && (forall i: nat :: VerdictOf(lines, i) == Stalled ==> Some(i) == state.begun)
    && (forall i: nat :: i in state.metadata <==> VerdictOf(lines, i).Analysed?)
    && (forall i: nat :: i in state.metadata ==> VerdictOf(lines, i) == Analysed(state.metadata[i]))
    && (forall i: nat :: i in state.rejected <==> VerdictOf(lines, i).Rejected?)
    && (forall i: nat :: i in state.rejected ==> VerdictOf(lines, i) == Rejected(state.rejected[i]))
  }

  lemma {:induction false} BeginAgrees(state: ReaderState, before: seq<Line>, lines: seq<Line>, files: nat)
    requires Protocol(lines) && lines != [] && before == lines[..|lines| - 1] && lines[|lines| - 1].Begin?
    requires Agrees(state, before, files) && Step(state, lines[|lines| - 1], files).Ok?
    ensures Agrees(Step(state, lines[|lines| - 1], files).value, lines, files)
  {
  }

  lemma {:induction false} ResultAgrees(state: ReaderState, before: seq<Line>, lines: seq<Line>, files: nat)
    requires Protocol(lines) && lines != [] && before == lines[..|lines| - 1] && lines[|lines| - 1].ResultLine?
    requires Agrees(state, before, files) && Step(state, lines[|lines| - 1], files).Ok?
    ensures Agrees(Step(state, lines[|lines| - 1], files).value, lines, files)
  {
    var begun := state.begun.value;
    assert VerdictOf(before, begun) == Stalled;
  }

  /** Whatever lines are accepted, the fields say of each file what its own lines say. */
  lemma {:induction false} ReaderAgrees(lines: seq<Line>, files: nat)
    requires Protocol(lines) && Follow(lines, files).Ok?
    ensures Agrees(Follow(lines, files).value, lines, files)
  {
    if lines == [] {
    } else {
      var before, last := lines[..|lines| - 1], lines[|lines| - 1];
      ReaderAgrees(before, files);
      var state := Follow(before, files).value;
      if last.Begin? {
        BeginAgrees(state, before, lines, files);
      } else {
        ResultAgrees(state, before, lines, files);
      }
    }
  }

  lemma {:induction false} BegunIsNotBegunAgain(lines: seq<Line>, files: nat, k: nat, i: nat)
    requires Protocol(lines) && Follow(lines, files).Ok?
    requires k < |lines| - 1 && VerdictOf(lines[..|lines| - 1], i) != NeverBegun
    ensures lines[|lines| - 1] != Begin(Some(i))
  {
    ReaderAgrees(lines[..|lines| - 1], files);
  }

  /** Read forwards: a begun file's verdict is what the next protocol line makes of it. */
  lemma {:induction false} VerdictIsNextLine(lines: seq<Line>, files: nat, k: nat, i: nat)
    requires Protocol(lines) && Follow(lines, files).Ok?
    requires k < |lines| && lines[k] == Begin(Some(i))
    ensures VerdictOf(lines, i) == if k + 1 == |lines| then Stalled else Judge(lines[k + 1], i)
    decreases |lines|
  {
    var n := |lines| - 1;
    var before := lines[..n];
    if k < n {
      VerdictIsNextLine(before, files, k, i);
      BegunIsNotBegunAgain(lines, files, k, i);
      assert VerdictOf(before, i) == if k + 1 == n then Stalled else Judge(lines[k + 1], i);
    }
  }

  /** The numbers the begins carry, in the order they came. */
  function Begun(lines: seq<Line>): seq<int> {
    if lines == [] then []
    else
      var last := lines[|lines| - 1];
      Begun(lines[..|lines| - 1])
      + (if last.Begin? && last.number.Some? then [last.number.value as int] else [])
  }

  /** Files begin once each, in order: the begins are 0, 1, 2, ... */
  lemma {:induction false} BeginsInOrder(lines: seq<Line>, files: nat)
    requires Protocol(lines) && Follow(lines, files).Ok?
    ensures Begun(lines) == seq(Follow(lines, files).value.NextIndex(), i => i)
  {
    if lines == [] {
    } else {
      BeginsInOrder(lines[..|lines| - 1], files);
    }
  }

  // ---- Reading under deadlines ----

  datatype CueFile = CueFile(durationMs: Option<int>)

  datatype Config = Config(startupS: real, perFileS: real) {
    ghost predicate Valid() {
      startupS > 0.0 && perFileS > 0.0
    }

    /** The longer of the per-file timeout and a fortieth of the audio; the timeout when the
        duration is unknown. */
    function DeadlineS(durationMs: Option<int>): real {
      if durationMs.None? || durationMs.value <= 0 then perFileS
      else
        var scaled := durationMs.value as real / 1000.0 / 40.0;
        if perFileS >= scaled then perFileS else scaled
    }
  }

  /** A line of the output, or its end, and when it reaches the reader. */
  datatype Arrival = Arrival(at: real, line: Option<Line>)

  function ProtocolOf(arrivals: seq<Arrival>): (lines: seq<Line>)
    ensures Protocol(lines)
  {
    if arrivals == [] then []
    else
      var last := arrivals[|arrivals| - 1].line;
      ProtocolOf(arrivals[..|arrivals| - 1])
      + (if last.Some? && !last.value.LogLine? then [last.value] else [])
  }

  /** How long the reader waits for the protocol line that follows one it accepted. */
  function AllowedAfter(line: Line, files: seq<CueFile>, config: Config): real {
    match line
    case Begin(Some(i)) => if i < |files| then config.DeadlineS(files[i].durationMs) else 0.0
    case _ => config.perFileS
  }

  function Allowed(lines: seq<Line>, files: seq<CueFile>, config: Config): real {
    if lines == [] then config.startupS else AllowedAfter(lines[|lines| - 1], files, config)
  }

  /** The deadlines of the first files, together. */
  function DeadlinesOf(files: seq<CueFile>, config: Config): real {
    if files == [] then 0.0
    else DeadlinesOf(files[..|files| - 1], config) + config.DeadlineS(files[|files| - 1].durationMs)
  }

  function SettledCount(state: ReaderState): nat {
    |state.metadata| + |state.rejected|
  }

  ghost predicate Begins(state: ReaderState, files: nat) {
    state.NextIndex() <= files
  }

  function Times(count: nat, each: real): real {
    count as real * each
  }

  /** The startup timeout, the deadlines of the files that began, and the per-file timeout for each
      file that settled. */
  function Budget(state: ReaderState, files: seq<CueFile>, config: Config): real
    requires Begins(state, |files|)
  {
    config.startupS + DeadlinesOf(files[..state.NextIndex()], config)
    + Times(SettledCount(state), config.perFileS)
  }

  lemma {:induction false} TimesGrows(few: nat, many: nat, each: real)
    requires few <= many && each > 0.0
    ensures Times(few, each) <= Times(many, each)
    ensures Times(few + 1, each) == Times(few, each) + each
  {
  }

  /** One accepted line either begins a file or settles one, and what the next line may take is
      already in the budget. */
  lemma {:induction false} StepSpends(
      state: ReaderState, next: ReaderState, line: Line, files: seq<CueFile>, config: Config)
    requires config.Valid() && !line.LogLine? && Begins(state, |files|)
    requires Step(state, line, |files|) == Ok(next)
    ensures Begins(next, |files|)
    ensures next.NextIndex() + SettledCount(next) >= state.NextIndex() + SettledCount(state) + 1
    ensures SettledCount(next) <= SettledCount(state) + 1
    ensures Budget(next, files, config) >= Budget(state, files, config) + AllowedAfter(line, files, config)
    ensures AllowedAfter(line, files, config) > 0.0
  {
    var each := config.perFileS;
    if line.Begin? {
      var i := state.NextIndex();
      assert files[..i + 1][..i] == files[..i];
      assert SettledCount(state) <= SettledCount(next) <= SettledCount(state) + 1;
      TimesGrows(SettledCount(state), SettledCount(next), each);
    } else {
      assert SettledCount(next) == SettledCount(state) + 1;
      TimesGrows(SettledCount(state), SettledCount(state), each);
    }
  }

  /** When the reader has taken some arrivals: each as soon as it came and those before it were taken. */
  function ReadAt(arrivals: seq<Arrival>, start: real): real {
    if arrivals == [] then start
    else
      var before, at := ReadAt(arrivals[..|arrivals| - 1], start), arrivals[|arrivals| - 1].at;
      if at > before then at else before
  }

  predicate IsProtocol(arrival: Arrival) {
    arrival.line.Some? && !arrival.line.value.LogLine?
  }

  /** When the last protocol line among some arrivals was taken; the start when there is none. */
  function LastHeard(arrivals: seq<Arrival>, start: real): real {
    if arrivals == [] then start
    else if IsProtocol(arrivals[|arrivals| - 1]) then ReadAt(arrivals, start)
    else LastHeard(arrivals[..|arrivals| - 1], start)
  }

  /** The deadline for the next protocol line after some arrivals; log lines do not move it. */
  function Deadline(arrivals: seq<Arrival>, start: real, files: seq<CueFile>, config: Config): real {
    LastHeard(arrivals, start) + Allowed(ProtocolOf(arrivals), files, config)
  }

  /** Arrival `k` comes by the deadline, and those before it leave time to wait for it. */
  predicate InTime(arrivals: seq<Arrival>, k: nat, start: real, files: seq<CueFile>, config: Config)
    requires k < |arrivals|
  {
    var deadline := Deadline(arrivals[..k], start, files, config);
    ReadAt(arrivals[..k], start) < deadline && arrivals[k].at <= deadline
  }

  /** Every one of the first `n` arrivals comes in time. */
  ghost predicate AllInTime(arrivals: seq<Arrival>, n: nat, start: real, files: seq<CueFile>, config: Config)
    requires n <= |arrivals|
  {
    n == 0 || (AllInTime(arrivals, n - 1, start, files, config) && InTime(arrivals, n - 1, start, files, config))
  }

  /** What one more arrival changes. */
  lemma {:induction false} ArrivalTaken(
      arrivals: seq<Arrival>, k: nat, start: real, files: seq<CueFile>, config: Config)
    requires k < |arrivals|
    ensures
      var before, after := ReadAt(arrivals[..k], start), ReadAt(arrivals[..k + 1], start);
      after == if arrivals[k].at > before then arrivals[k].at else before
    ensures IsProtocol(arrivals[k]) ==>
      && ProtocolOf(arrivals[..k + 1]) == ProtocolOf(arrivals[..k]) + [arrivals[k].line.value]
      && LastHeard(arrivals[..k + 1], start) == ReadAt(arrivals[..k + 1], start)
    ensures !IsProtocol(arrivals[k]) ==>
      && ProtocolOf(arrivals[..k + 1]) == ProtocolOf(arrivals[..k])
      && Deadline(arrivals[..k + 1], start, files, config) == Deadline(arrivals[..k], start, files, config)
  {
    assert arrivals[..k + 1][..k] == arrivals[..k];
  }

  /** Follows one child's protocol lines under the deadlines, and keeps the outcome. */
  class Reader {
    const files: seq<CueFile>
    const config: Config
    const arrivals: seq<Arrival>
    const start: real
    var taken: nat // how many arrivals have left the queue
    var now: real
    var metadata: map<nat, Metadata>
    var rejected: map<nat, Rejection>
    var begun: Option<nat>
    var ended: bool

    constructor (files: seq<CueFile>, config: Config, arrivals: seq<Arrival>, start: real)
      ensures this.files == files && this.config == config && this.arrivals == arrivals && this.start == start
      ensures now == start && taken == 0 && State() == START && !ended
    {
      this.files, this.config, this.arrivals, this.start := files, config, arrivals, start;
      taken, now := 0, start;
      metadata, rejected, begun, ended := map[], map[], None, false;
    }

    function State(): ReaderState
      reads this
    {
      ReaderState(metadata, rejected, begun)
    }

    /** The protocol lines read so far. */
    function Heard(): seq<Line>
      reads this
      requires taken <= |arrivals|
    {
      ProtocolOf(arrivals[..taken])
    }

    /** The output ended with the last arrival taken. */
    predicate OutputEnded()
      reads this
    {
      ended && 0 < taken <= |arrivals| && arrivals[taken - 1].line.None?
    }

    /** The deadline for the next protocol line. */
    function Due(): real
      reads this
      requires taken <= |arrivals|
    {
      Deadline(arrivals[..taken], start, files, config)
    }

    /** The deadline passed, and what comes next did not come in time. */
    predicate GaveUp()
      reads this
    {
      && !ended && taken <= |arrivals| && now == Due()
      && (taken == |arrivals| || !InTime(arrivals, taken, start, files, config))
    }

    /** The reader is where its arrivals put it. */
    ghost predicate OnTime()
      reads this
    {
      && taken <= |arrivals|
      && now == ReadAt(arrivals[..taken], start)
      && AllInTime(arrivals, taken, start, files, config)
    }

    /** Takes the next arrival, which came in time. */
    method TakeArrival() returns (arrival: Arrival)
      requires OnTime() && taken < |arrivals| && InTime(arrivals, taken, start, files, config)
      modifies this`taken, this`now
      ensures OnTime() && taken == old(taken) + 1 && arrival == arrivals[old(taken)]
      ensures old(now) <= now <= old(Due())
      ensures IsProtocol(arrival) ==>
        Heard() == old(Heard()) + [arrival.line.value] && now == LastHeard(arrivals[..taken], start)
      ensures !IsProtocol(arrival) ==> Heard() == old(Heard()) && Due() == old(Due())
    {
      arrival := arrivals[taken];
      ArrivalTaken(arrivals, taken, start, files, config);
      now := if arrival.at > now then arrival.at else now;
      taken := taken + 1;
    }

    /** The next protocol line by the deadline; none when the output ends or the deadline passes.
        Log lines do not move the deadline. */
    method NextProtocolLine(deadline: real) returns (line: Option<Line>)
      requires OnTime() && now < deadline == Due() && !ended
      modifies this`taken, this`now, this`ended
      ensures old(taken) <= taken <= |arrivals| && old(now) <= now <= deadline
      ensures AllInTime(arrivals, taken, start, files, config)
      ensures line.Some? ==>
        && old(taken) < taken && !ended && !line.value.LogLine? && Heard() == old(Heard()) + [line.value]
        && OnTime() && now == LastHeard(arrivals[..taken], start)
      ensures line.None? ==> Heard() == old(Heard()) && (GaveUp() || OutputEnded())
    {
      while now < deadline
        invariant OnTime() && old(taken) <= taken && old(now) <= now <= deadline == Due()
        invariant Heard() == old(Heard()) && !ended
        decreases |arrivals| - taken
      {
        if taken == |arrivals| || arrivals[taken].at > deadline {
          now := deadline;
          return None;
        }
        var arrival := TakeArrival();
        if arrival.line.None? {
          ended := true;
          return None;
        }
        if !arrival.line.value.LogLine? {
          return arrival.line;
        }
      }
      return None;
    }

    method BeginFile(number: Option<nat>) returns (outcome: Result<(), AnalyserError>)
      modifies this`rejected, this`begun
      ensures StepBegin(old(State()), number, |files|)
        == if outcome.Ok? then Ok(State()) else Err(outcome.error)
      ensures outcome.Err? ==> State() == old(State())
    {
      var expected := if begun.None? then 0 else begun.value + 1;
      if number != Some(expected) || expected >= |files| {
        return Err(BeginOutOfOrder);
      }
      if begun.Some? && !(begun.value in metadata || begun.value in rejected) {
        rejected := rejected[begun.value := NoResult];
      }
      begun := Some(expected);
      return Ok(());
    }

    method TakeResult(parsed: Option<Json>) returns (outcome: Result<(), AnalyserError>)
      modifies this`rejected, this`metadata
      ensures StepResult(old(State()), parsed)
        == if outcome.Ok? then Ok(State()) else Err(outcome.error)
      ensures outcome.Err? ==> State() == old(State())
    {
      if begun.None? || begun.value in metadata || begun.value in rejected {
        return Err(ResultWithoutFile);
      }
      var problem := ResultProblem(parsed, begun.value);
      if problem.Some? {
        rejected := rejected[begun.value := problem.value];
      } else {
        metadata := metadata[begun.value := MetadataOf(parsed.value)];
      }
      return Ok(());
    }

    /** Take one protocol line, and say how long the next may take. */
    method Handle(line: Line) returns (outcome: Result<(), AnalyserError>, allowed: real)
      requires !line.LogLine?
      modifies this`rejected, this`metadata, this`begun
      ensures Step(old(State()), line, |files|)
        == if outcome.Ok? then Ok(State()) else Err(outcome.error)
      ensures outcome.Err? ==> State() == old(State())
      ensures outcome.Ok? ==> allowed == AllowedAfter(line, files, config)
    {
      allowed := config.perFileS;
      match line
      case Begin(number) =>
        var expected := if begun.None? then 0 else begun.value + 1;
        outcome := BeginFile(number);
        if outcome.Ok? {
          allowed := config.DeadlineS(files[expected].durationMs);
        }
      case ResultLine(parsed) =>
        outcome := TakeResult(parsed);
    }

    /** Reading stopped: every file settled, the output ended, or a deadline passed. */
    predicate Stopped()
      reads this
    {
      SettledCount(State()) == |files| || OutputEnded() || GaveUp()
    }

    /** Follow the lines for as long as there is something to wait for. Every arrival taken came in
        time. However many log lines arrive, at most two protocol lines a file are handled (and one that
        is an error), and the wait is bounded by the deadlines of the files that began. */
    method Run() returns (outcome: Result<(), AnalyserError>)
      requires config.Valid() && taken == 0 && now == start && State() == START && !ended
      modifies this
      ensures taken <= |arrivals|
      ensures Follow(Heard(), |files|) == if outcome.Ok? then Ok(State()) else Err(outcome.error)
      ensures |Heard()| <= 2 * |files| + (if outcome.Ok? then 0 else 1)
      ensures Begins(State(), |files|) && SettledCount(State()) <= |files|
      ensures now <= start + Budget(State(), files, config)
      ensures AllInTime(arrivals, taken, start, files, config)
      ensures outcome.Ok? ==> Stopped()
    {
      var allowed := config.startupS;
      assert files[..0] == [];
      while |metadata| + |rejected| < |files|
        invariant taken <= |arrivals| && !ended
        invariant now == ReadAt(arrivals[..taken], start) == LastHeard(arrivals[..taken], start)
        invariant Follow(Heard(), |files|) == Ok(State())
        invariant Begins(State(), |files|) && SettledCount(State()) <= |files|
        invariant |Heard()| <= State().NextIndex() + SettledCount(State())
        invariant allowed == Allowed(Heard(), files, config) > 0.0
        invariant now + allowed <= start + Budget(State(), files, config)
        invariant AllInTime(arrivals, taken, start, files, config)
        decreases |arrivals| - taken
      {
        ghost var before, state := Heard(), State();
        var line := NextProtocolLine(now + allowed);
        if line.None? {
          return Ok(());
        }
        outcome, allowed := Handle(line.value);
        assert Heard() == before + [line.value];
        assert Heard()[..|before|] == before;
        if outcome.Err? {
          return;
        }
        StepSpends(state, State(), line.value, files, config);
      }
      return Ok(());
    }
  }

  lemma {:induction false} DeadlinesGrow(files: seq<CueFile>, config: Config, k: nat)
    requires config.Valid() && k <= |files|
    ensures DeadlinesOf(files[..k], config) <= DeadlinesOf(files, config)
  {
    if k < |files| {
      DeadlinesGrow(files[..|files| - 1], config, k);
      assert files[..|files| - 1][..k] == files[..k];
    } else {
      assert files[..k] == files;
    }
  }

  /** The whole wait is within the startup timeout, every file's own deadline, and the per-file
      timeout for each file. */
  lemma {:induction false} BudgetBound(state: ReaderState, files: seq<CueFile>, config: Config)
    requires config.Valid() && Begins(state, |files|) && SettledCount(state) <= |files|
    ensures Budget(state, files, config)
      <= config.startupS + DeadlinesOf(files, config) + Times(|files|, config.perFileS)
  {
    TimesGrows(SettledCount(state), |files|, config.perFileS);
    DeadlinesGrow(files, config, state.NextIndex());
  }

  // ---- The batch ----

  datatype BatchAnalysis = BatchAnalysis(
    metadata: map<nat, Metadata>, stalled: Option<nat>, rejected: map<nat, Rejection>)

  /** What becomes of a batch whose reader stopped in some state. */
  function OutcomeOf(state: ReaderState): Result<BatchAnalysis, AnalyserError> {
    if state.begun.None? then Err(NeverBegan)
    else
      var begun := state.begun.value;
      Ok(BatchAnalysis(state.metadata, if state.Settled(begun) then None else Some(begun), state.rejected))
  }

  /** The longest a batch may take. */
  function LongestWait(files: seq<CueFile>, config: Config): real {
    config.startupS + DeadlinesOf(files, config) + Times(|files|, config.perFileS)
  }

  /** One child's output over some files, as the batch's outcome, with the reader that followed it
      (none for an empty batch): it took every arrival that came in time until it stopped, and did not
      wait longer than the startup timeout, every file's deadline and a timeout a file. */
  method AnalyseBatch(files: seq<CueFile>, config: Config, arrivals: seq<Arrival>, start: real)
    returns (outcome: Result<BatchAnalysis, AnalyserError>, reader: Reader?)
    requires config.Valid()
    ensures files == [] ==> outcome == Ok(BatchAnalysis(map[], None, map[])) && reader == null
    ensures files != [] ==>
      && reader != null && fresh(reader) && reader.taken <= |arrivals|
      && reader.files == files && reader.config == config && reader.arrivals == arrivals && reader.start == start
      && (var followed := Follow(reader.Heard(), |files|);
          && outcome == (match followed case Err(error) => Err(error) case Ok(state) => OutcomeOf(state))
          && (followed.Ok? ==> followed.value == reader.State() && reader.Stopped()))
      && AllInTime(arrivals, reader.taken, start, files, config)
      && reader.now <= start + LongestWait(files, config)
  {
    if files == [] {
      return Ok(BatchAnalysis(map[], None, map[])), null;
    }
    reader := new Reader(files, config, arrivals, start);
    var ran := reader.Run();
    BudgetBound(reader.State(), files, config);
    if ran.Err? {
      return Err(ran.error), reader;
    }
    if reader.begun.None? {
      return Err(NeverBegan), reader;
    }
    var begun := reader.begun.value;
    var settled := begun in reader.metadata || begun in reader.rejected;
    return Ok(BatchAnalysis(reader.metadata, if settled then None else Some(begun), reader.rejected)), reader;
  }

  /** Each file of a batch is in exactly one place, the one its own lines give: analysed, rejected,
      stalled, or nowhere because it never began; and only the last begun file can be unsettled. */
  lemma {:induction false} BatchIsPartition(lines: seq<Line>, files: nat, batch: BatchAnalysis, i: nat)
    requires Protocol(lines) && Follow(lines, files).Ok?
    requires OutcomeOf(Follow(lines, files).value) == Ok(batch)
    ensures match VerdictOf(lines, i)
      case Analysed(metadata) =>
        i in batch.metadata && batch.metadata[i] == metadata && i !in batch.rejected && batch.stalled != Some(i)
      case Rejected(why) =>
        i in batch.rejected && batch.rejected[i] == why && i !in batch.metadata && batch.stalled != Some(i)
      case Stalled => batch.stalled == Some(i) && i !in batch.metadata && i !in batch.rejected
      case NeverBegun => i !in batch.metadata && i !in batch.rejected && batch.stalled != Some(i)
    ensures forall j: nat :: VerdictOf(lines, i) != NeverBegun && j < i ==> j in batch.metadata || j in batch.rejected
    ensures VerdictOf(lines, i) != NeverBegun ==> i < files
  {
    ReaderAgrees(lines, files);
    var state := Follow(lines, files).value;
    forall j: nat | VerdictOf(lines, i) != NeverBegun && j < i
      ensures j in batch.metadata || j in batch.rejected
    {
      assert VerdictOf(lines, j) != NeverBegun;
      assert VerdictOf(lines, j) != Stalled;
    }
  }

  // ---- What a result line must hold ----

  /** A result line holds a file's metadata: JSON that is an object, with the file's own number under
      "index" and an object of strings under "metadata". */
  predicate HoldsMetadata(line: Line, i: nat) {
    && line.ResultLine? && line.parsed.Some? && line.parsed.value.JObject?
    && var fields := line.parsed.value.fields;
       && "index" in fields && fields["index"] == JInt(i)
       && "metadata" in fields && fields["metadata"].JObject?
       && forall key :: key in fields["metadata"].fields ==> fields["metadata"].fields[key].JString?
  }

  /** In an accepted batch a begun file whose next line holds its metadata is analysed with exactly those
      strings under exactly those names. */
  lemma {:induction false} BatchKeepsMetadata(lines: seq<Line>, files: nat, batch: BatchAnalysis, k: nat, i: nat)
    requires Protocol(lines) && Follow(lines, files).Ok? && OutcomeOf(Follow(lines, files).value) == Ok(batch)
    requires k + 1 < |lines| && lines[k] == Begin(Some(i))
    ensures i in batch.metadata <==> HoldsMetadata(lines[k + 1], i)
    ensures i in batch.metadata ==>
      var strings := lines[k + 1].parsed.value.fields["metadata"].fields;
      && batch.metadata[i].Keys == strings.Keys
      && forall key :: key in strings ==> strings[key] == JString(batch.metadata[i][key])
  {
    VerdictIsNextLine(lines, files, k, i);
    BatchIsPartition(lines, files, batch, i);
  }

  /** And any other line rejects it, for the first thing wrong with it. */
  lemma {:induction false} BatchRejects(lines: seq<Line>, files: nat, batch: BatchAnalysis, k: nat, i: nat)
    requires Protocol(lines) && Follow(lines, files).Ok? && OutcomeOf(Follow(lines, files).value) == Ok(batch)
    requires k + 1 < |lines| && lines[k] == Begin(Some(i)) && !HoldsMetadata(lines[k + 1], i)
    ensures i in batch.rejected
    ensures match lines[k + 1]
      case Begin(_) => batch.rejected[i] == NoResult
      case ResultLine(None) => batch.rejected[i] == NotJson
      case ResultLine(Some(JObject(fields))) =>
        batch.rejected[i]
        == if "index" in fields && fields["index"] == JInt(i) then BadMetadata else WrongIndex
      case _ => batch.rejected[i] == NotAnObject
  {
    VerdictIsNextLine(lines, files, k, i);
    BatchIsPartition(lines, files, batch, i);
  }

  // ---- Which lines break the protocol, and how long each may take ----

  /** A line breaks the protocol when it begins any file but the next of the batch, or gives a result
      while no file waits for one; every other line is accepted. */
  lemma {:induction false} NextLineAccepted(lines: seq<Line>, line: Line, files: nat)
    requires Protocol(lines) && Follow(lines, files).Ok? && !line.LogLine?
    ensures
      var after := Follow(lines + [line], files);
      && (after == Err(BeginOutOfOrder) <==>
            line.Begin? && (line.number != Some(|Begun(lines)|) || |Begun(lines)| >= files))
      && (after == Err(ResultWithoutFile) <==>
            line.ResultLine? && forall i: nat :: VerdictOf(lines, i) != Stalled)
      && after != Err(NeverBegan)
  {
    assert (lines + [line])[..|lines|] == lines;
    BeginsInOrder(lines, files);
    ReaderAgrees(lines, files);
    var state := Follow(lines, files).value;
    assert Follow(lines + [line], files) == Step(state, line, files);
    assert |Begun(lines)| == state.NextIndex();
    forall i: nat ensures VerdictOf(lines, i) == Stalled <==> state.begun == Some(i) && !state.Settled(i) {
      assert i < state.NextIndex() <==> VerdictOf(lines, i) != NeverBegun;
    }
    if state.begun.Some? && !state.Settled(state.begun.value) {
      assert VerdictOf(lines, state.begun.value) == Stalled;
    }
    var after := Follow(lines + [line], files);
    assert line.ResultLine? && after == Err(ResultWithoutFile) ==> forall i: nat :: VerdictOf(lines, i) != Stalled;
    assert line.ResultLine? && after != Err(ResultWithoutFile) ==> exists i: nat :: VerdictOf(lines, i) == Stalled;
  }

  /** A batch fails because no file began exactly when no begin was accepted. */
  lemma {:induction false} NoneBegan(lines: seq<Line>, files: nat)
    requires Protocol(lines) && Follow(lines, files).Ok?
    ensures OutcomeOf(Follow(lines, files).value) == Err(NeverBegan) <==> Begun(lines) == []
    ensures OutcomeOf(Follow(lines, files).value).Err? ==> OutcomeOf(Follow(lines, files).value) == Err(NeverBegan)
  {
    BeginsInOrder(lines, files);
  }

  /** How long a file may take: the per-file timeout, or a second for every forty of its audio when that is
      longer. */
  lemma {:induction false} DeadlineIsLonger(config: Config, durationMs: Option<int>)
    ensures
      var deadline := config.DeadlineS(durationMs);
      && deadline >= config.perFileS
      && (durationMs.Some? ==> deadline * 40_000.0 >= durationMs.value as real || durationMs.value <= 0)
      && (deadline == config.perFileS || (durationMs.Some? && deadline * 40_000.0 == durationMs.value as real))
      && (durationMs.None? || durationMs.value <= 0 ==> deadline == config.perFileS)
  {
  }

  /** The wait before the first protocol line is the startup timeout, after a begin the begun file's
      deadline, and after a result the per-file timeout. */
  lemma {:induction false} WaitsAre(lines: seq<Line>, line: Line, files: seq<CueFile>, config: Config)
    requires Protocol(lines) && !line.LogLine? && Follow(lines + [line], |files|).Ok?
    ensures Allowed([], files, config) == config.startupS
    ensures line.ResultLine? ==> Allowed(lines + [line], files, config) == config.perFileS
    ensures line.Begin? ==>
      && |Begun(lines)| < |files|
      && Allowed(lines + [line], files, config) == config.DeadlineS(files[|Begun(lines)|].durationMs)
  {
    assert (lines + [line])[..|lines|] == lines;
    BeginsInOrder(lines, |files|);
  }
}
