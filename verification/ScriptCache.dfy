/** Keeping the script cache warm (backend/playout/script_cache.py): many starts share one build at
    a time, over every interleaving of their steps.

    A step is what runs between two awaits. A start is named by its place among the starts, a build
    by its place among the builds, the last of which is the one the cache holds. */
module ScriptCaches {
  import opened Wrappers

  type Fingerprint = string

  /** How a build ended: Liquidsoap refused the script, or the build overran or could not run. */
  datatype Failure = ScriptRejected | BuildFailed | Bug

  datatype Status = Running | Succeeded | Failed(failure: Failure)

  datatype Build = Build(fingerprint: Fingerprint, status: Status) {
    predicate RejectedFor(read: Fingerprint) {
      fingerprint == read && status == Failed(ScriptRejected)
    }
  }

  datatype Raise = Unreadable | BuildRaised(failure: Failure)

  /** Where one start is: its read is under way, its read ended but it has not run since, it waits
      for a build, or it is over. */
  datatype Start =
    | Reading
    | HasRead(got: Option<Fingerprint>)
    | Waiting(build: nat, read: Fingerprint)
    | Returned(read: Fingerprint)
    | Raised(error: Raise)
    | Cancelled

  datatype State = State(starts: seq<Start>, builds: seq<Build>, warmFor: Option<Fingerprint>)

  datatype Step =
    | Arrive
    | ReadEnds(start: nat, read: Option<Fingerprint>)
    | Resume(start: nat)
    | BuildEnds(outcome: Status)
    | Wake(start: nat)
    | Cancel(start: nat)

  const FRESH := State([], [], None)

  function Last(builds: seq<Build>): Option<Build> {
    if builds == [] then None else Some(builds[|builds| - 1])
  }

  predicate Runs(builds: seq<Build>) {
    builds != [] && builds[|builds| - 1].status == Running
  }

  // ---- The cache ----

  /** The builds after a start asks for one: the build in progress, its script's rejected build, or
      a new one. */
  function Current(builds: seq<Build>, read: Fingerprint): seq<Build> {
    if Runs(builds) || (builds != [] && builds[|builds| - 1].RejectedFor(read)) then builds
    else builds + [Build(read, Running)]
  }

  function Ended(builds: seq<Build>, outcome: Status): seq<Build>
    requires builds != []
  {
    builds[|builds| - 1 := builds[|builds| - 1].(status := outcome)]
  }

  predicate Over(start: Start) {
    start.Returned? || start.Raised? || start.Cancelled?
  }

  function Resumed(state: State, start: nat): State
    requires start < |state.starts| && state.starts[start].HasRead?
  {
    match state.starts[start].got
    case None => state.(starts := state.starts[start := Raised(Unreadable)])
    case Some(read) =>
      if state.warmFor == Some(read) then state.(starts := state.starts[start := Returned(read)])
      else
        var builds := Current(state.builds, read);
        state.(starts := state.starts[start := Waiting(|builds| - 1, read)], builds := builds)
  }

  function BuildEnded(state: State, outcome: Status): State
    requires Runs(state.builds)
  {
    var builds := Ended(state.builds, outcome);
    State(state.starts, builds,
          if outcome == Succeeded then Some(builds[|builds| - 1].fingerprint) else state.warmFor)
  }

  /** A start whose build ended looks at the script again, unless its own script's build failed. */
  function Woken(state: State, start: nat): Start
    requires start < |state.starts| && state.starts[start].Waiting?
    requires state.starts[start].build < |state.builds|
  {
    var build := state.builds[state.starts[start].build];
    if build.fingerprint == state.starts[start].read && build.status.Failed?
    then Raised(BuildRaised(build.status.failure)) else Reading
  }

  /** The next state; none when the step cannot be taken. */
  function Next(state: State, step: Step): Option<State> {
    match step
    case Arrive => Some(state.(starts := state.starts + [Reading]))
    case ReadEnds(start, read) =>
      if start < |state.starts| && state.starts[start] == Reading
      then Some(state.(starts := state.starts[start := HasRead(read)])) else None
    case Resume(start) =>
      if start < |state.starts| && state.starts[start].HasRead? then Some(Resumed(state, start)) else None
    case BuildEnds(outcome) =>
      if Runs(state.builds) && outcome != Running then Some(BuildEnded(state, outcome)) else None
    case Wake(start) =>
      if start < |state.starts| && state.starts[start].Waiting?
         && state.starts[start].build < |state.builds|
         && state.builds[state.starts[start].build].status != Running
      then Some(state.(starts := state.starts[start := Woken(state, start)])) else None
    case Cancel(start) =>
      if start < |state.starts| && !Over(state.starts[start])
      then Some(state.(starts := state.starts[start := Cancelled])) else None
  }

  /** The state after some steps; none when one of them cannot be taken. */
  function Follow(state: State, steps: seq<Step>): Option<State>
    decreases |steps|
  {
    if steps == [] then Some(state)
    else
      match Next(state, steps[0])
      case None => None
      case Some(next) => Follow(next, steps[1..])
  }

  /** The cache's own fields and what its coroutines do to them between awaits. */
  class ScriptCache {
    var warmFor: Option<Fingerprint>
    var builds: seq<Build> // the last is the build it holds; the others are held by their waiters

    constructor ()
      ensures warmFor == None && builds == []
    {
      warmFor, builds := None, [];
    }

    /** A start whose read ended, as far as its next await. */
    method Continue(read: Option<Fingerprint>) returns (start: Start)
      modifies this
      ensures forall starts: seq<Start>, k: nat | k < |starts| && starts[k] == HasRead(read) ::
        Resumed(State(starts, old(builds), old(warmFor)), k) == State(starts[k := start], builds, warmFor)
    {
      if read.None? {
        return Raised(Unreadable);
      }
      if warmFor == read {
        return Returned(read.value);
      }
      var build := CurrentBuild(read.value);
      return Waiting(build, read.value);
    }

    method CurrentBuild(read: Fingerprint) returns (build: nat)
      modifies this`builds
      ensures builds == Current(old(builds), read) && build == |builds| - 1
    {
      if builds != [] {
        var held := builds[|builds| - 1];
        if held.status == Running || held.RejectedFor(read) {
          return |builds| - 1;
        }
      }
      builds := builds + [Build(read, Running)];
      return |builds| - 1;
    }

    /** The build in progress ends. */
    method Settle(outcome: Status)
      requires Runs(builds) && outcome != Running
      modifies this
      ensures forall starts ::
        BuildEnded(State(starts, old(builds), old(warmFor)), outcome) == State(starts, builds, warmFor)
    {
      var last := |builds| - 1;
      if outcome == Succeeded {
        warmFor := Some(builds[last].fingerprint);
      }
      builds := builds[last := builds[last].(status := outcome)];
    }

    /** A start whose build ended, as far as its next await. */
    method AfterBuild(build: nat, read: Fingerprint) returns (start: Start)
      requires build < |builds| && builds[build].status != Running
      ensures forall starts: seq<Start>, k: nat | k < |starts| && starts[k] == Waiting(build, read) ::
        Woken(State(starts, builds, warmFor), k) == start
    {
      var held := builds[build];
      if held.fingerprint == read && held.status.Failed? {
        return Raised(BuildRaised(held.status.failure));
      }
      return Reading;
    }
  }

  // ---- What every step keeps ----

  /** The fingerprint of the last build that succeeded. */
  function LastSuccess(builds: seq<Build>): Option<Fingerprint> {
    if builds == [] then None
    else if builds[|builds| - 1].status == Succeeded then Some(builds[|builds| - 1].fingerprint)
    else LastSuccess(builds[..|builds| - 1])
  }

  /** Only the last build can run; the cache is warm for the last build that succeeded; a build that
      is running or failed is not for what is warm; and a rejected script is not what the next build
      is for. */
  ghost predicate SafeBuilds(builds: seq<Build>, warmFor: Option<Fingerprint>) {
    && (forall k :: 0 <= k < |builds| - 1 ==> builds[k].status != Running)
    && warmFor == LastSuccess(builds)
    && (builds != [] && builds[|builds| - 1].status != Succeeded ==>
          warmFor != Some(builds[|builds| - 1].fingerprint))
    && (forall k :: 0 <= k < |builds| - 1 && builds[k].status == Failed(ScriptRejected) ==>
          builds[k + 1].fingerprint != builds[k].fingerprint)
  }

  ghost predicate Safe(state: State) {
    && SafeBuilds(state.builds, state.warmFor)
    && (forall k :: 0 <= k < |state.starts| && state.starts[k].Waiting? ==> state.starts[k].build < |state.builds|)
  }

  lemma {:induction false} CurrentKeepsSafe(builds: seq<Build>, warmFor: Option<Fingerprint>, read: Fingerprint)
    requires SafeBuilds(builds, warmFor) && warmFor != Some(read)
    ensures SafeBuilds(Current(builds, read), warmFor)
  {
    var next := Current(builds, read);
    if |next| > |builds| {
      assert next[..|next| - 1] == builds;
      assert LastSuccess(next) == LastSuccess(builds);
      forall k | 0 <= k < |next| - 1 ensures next[k] == builds[k] && next[k].status != Running {
      }
    }
  }

  lemma {:induction false} BuildEndKeepsSafe(state: State, outcome: Status)
    requires Safe(state) && Runs(state.builds) && outcome != Running
    ensures Safe(BuildEnded(state, outcome))
  {
    var next := BuildEnded(state, outcome);
    var front := |state.builds| - 1;
    assert next.builds[..front] == state.builds[..front];
  }

  lemma {:induction false} StepKeepsSafe(state: State, step: Step)
    requires Safe(state) && Next(state, step).Some?
    ensures Safe(Next(state, step).value)
  {
    match step
    case Resume(start) =>
      var got := state.starts[start].got;
      if got.Some? && state.warmFor != got {
        CurrentKeepsSafe(state.builds, state.warmFor, got.value);
      }
    case BuildEnds(outcome) => BuildEndKeepsSafe(state, outcome);
    case _ =>
  }

  /** In every interleaving at most one build runs, and the cache is warm for the last build that
      succeeded. */
  lemma {:induction false} AlwaysSafe(state: State, steps: seq<Step>)
    requires Safe(state) && Follow(state, steps).Some?
    ensures Safe(Follow(state, steps).value)
    decreases |steps|
  {
    if steps == [] {
    } else {
      StepKeepsSafe(state, steps[0]);
      AlwaysSafe(Next(state, steps[0]).value, steps[1..]);
    }
  }

  /** A start returns only when the fingerprint it read is that of the last successful build. */
  lemma {:induction false} ReturnsOnlyWarm(steps: seq<Step>, state: State, step: Step, start: nat, read: Fingerprint)
    requires Follow(FRESH, steps) == Some(state) && Next(state, step).Some?
    requires start < |Next(state, step).value.starts| && Next(state, step).value.starts[start] == Returned(read)
    requires start < |state.starts| ==> !state.starts[start].Returned?
    ensures step == Resume(start) && state.starts[start] == HasRead(Some(read))
    ensures LastSuccess(state.builds) == Some(read) && Next(state, step).value.builds == state.builds
  {
    AlwaysSafe(FRESH, steps);
  }

  /** A start fails for a build only when that build was for the fingerprint it read. */
  lemma {:induction false} RaisesOnlyOwnBuild(state: State, step: Step, start: nat, failure: Failure)
    requires Next(state, step).Some? && start < |Next(state, step).value.starts|
    requires Next(state, step).value.starts[start] == Raised(BuildRaised(failure))
    requires start < |state.starts| ==> !state.starts[start].Raised?
    ensures step == Wake(start) && state.starts[start].Waiting?
    ensures state.builds[state.starts[start].build] == Build(state.starts[start].read, Failed(failure))
  {
  }

  /** How a start can end, in every interleaving: it returns warm for what it read, fails with its own
      script's build or its own read, or is cancelled. */
  lemma {:induction false} StartsEndForTheirOwn(steps: seq<Step>, state: State, step: Step, start: nat)
    requires Follow(FRESH, steps) == Some(state) && Next(state, step).Some?
    requires start < |state.starts| && !Over(state.starts[start])
    requires Over(Next(state, step).value.starts[start])
    ensures match Next(state, step).value.starts[start]
      case Returned(read) => state.starts[start] == HasRead(Some(read)) && LastSuccess(state.builds) == Some(read)
      case Raised(Unreadable) => state.starts[start] == HasRead(None)
      case Raised(BuildRaised(failure)) =>
        && state.starts[start].Waiting? && state.starts[start].build < |state.builds|
        && state.builds[state.starts[start].build] == Build(state.starts[start].read, Failed(failure))
      case _ => step == Cancel(start)
  {
    match Next(state, step).value.starts[start]
    case Returned(read) => ReturnsOnlyWarm(steps, state, step, start, read);
    case Raised(BuildRaised(failure)) => RaisesOnlyOwnBuild(state, step, start, failure);
    case _ =>
  }

  /** Between a rejected build and the next build of the same script, another script is built. */
  lemma {:induction false} RejectedNotBuiltAgainAtOnce(steps: seq<Step>, state: State, k: nat, j: nat)
    requires Follow(FRESH, steps) == Some(state)
    requires k < j < |state.builds| && state.builds[k].fingerprint == state.builds[j].fingerprint
    requires state.builds[k].status == Failed(ScriptRejected)
    ensures k + 1 < j && state.builds[k + 1].fingerprint != state.builds[k].fingerprint
  {
    AlwaysSafe(FRESH, steps);
  }

  // ---- A rejected script while its fingerprint is unchanged ----

  /** Every read that ends in these steps finds one fingerprint, or cannot read the script. */
  ghost predicate ReadsFind(steps: seq<Step>, read: Fingerprint) {
    forall k :: 0 <= k < |steps| && steps[k].ReadEnds? ==> steps[k].read in {None, Some(read)}
  }

  /** The last build is the script's, rejected. */
  predicate RejectedLast(state: State, read: Fingerprint) {
    state.builds != [] && state.builds[|state.builds| - 1].RejectedFor(read)
  }

  /** No start holds another script's fingerprint, read but not yet acted on, unless it is warm. */
  ghost predicate NoStaleReader(state: State, read: Fingerprint) {
    forall k :: 0 <= k < |state.starts| && state.starts[k].HasRead? ==>
      state.starts[k].got in {None, Some(read), state.warmFor}
  }

  lemma {:induction false} QuietStep(state: State, step: Step, read: Fingerprint)
    requires RejectedLast(state, read) && NoStaleReader(state, read) && Next(state, step).Some?
    requires ReadsFind([step], read)
    ensures var next := Next(state, step).value;
      next.builds == state.builds && next.warmFor == state.warmFor && NoStaleReader(next, read)
  {
    assert [step][0] == step;
  }

  /** While every read finds the rejected script and no start holds another, nothing is built. */
  lemma {:induction false} QuietRun(state: State, steps: seq<Step>, read: Fingerprint)
    requires RejectedLast(state, read) && NoStaleReader(state, read) && Follow(state, steps).Some?
    requires ReadsFind(steps, read)
    ensures Follow(state, steps).value.builds == state.builds
    decreases |steps|
  {
    if steps == [] {
    } else {
      assert ReadsFind([steps[0]], read);
      QuietStep(state, steps[0], read);
      assert ReadsFind(steps[1..], read);
      QuietRun(Next(state, steps[0]).value, steps[1..], read);
    }
  }

  /** A stale reader's build lets the next start build the rejected script again. */
  function StaleRun(state: State, stale: nat, read: Fingerprint): seq<Step> {
    var newer := |state.starts|;
    [Resume(stale), BuildEnds(Failed(BuildFailed)), Arrive, ReadEnds(newer, Some(read)), Resume(newer)]
  }

  lemma {:induction false} FollowOne(state: State, steps: seq<Step>, next: State)
    requires steps != [] && Next(state, steps[0]) == Some(next)
    ensures Follow(state, steps) == Follow(next, steps[1..])
  {
  }

  lemma {:induction false} FollowFive(s0: State, s1: State, s2: State, s3: State, s4: State, s5: State,
                   a: Step, b: Step, c: Step, d: Step, e: Step)
    requires Next(s0, a) == Some(s1) && Next(s1, b) == Some(s2) && Next(s2, c) == Some(s3)
    requires Next(s3, d) == Some(s4) && Next(s4, e) == Some(s5)
    ensures Follow(s0, [a, b, c, d, e]) == Some(s5)
  {
    assert Follow(s5, []) == Some(s5);
    FollowOne(s4, [e], s5);
    FollowOne(s3, [d, e], s4);
    assert [d, e][1..] == [e];
    FollowOne(s2, [c, d, e], s3);
    assert [c, d, e][1..] == [d, e];
    FollowOne(s1, [b, c, d, e], s2);
    assert [b, c, d, e][1..] == [c, d, e];
    FollowOne(s0, [a, b, c, d, e], s1);
    assert [a, b, c, d, e][1..] == [b, c, d, e];
  }

  lemma {:induction false} StaleBuild(
      state: State, stale: nat, starts: seq<Start>, other: Fingerprint, built: seq<Build>)
    requires stale < |state.starts| && state.starts[stale] == HasRead(Some(other)) && state.warmFor != Some(other)
    requires !Runs(state.builds) && state.builds != [] && !state.builds[|state.builds| - 1].RejectedFor(other)
    requires starts == state.starts[stale := Waiting(|state.builds|, other)]
    requires built == state.builds + [Build(other, Failed(BuildFailed))]
    ensures var running := State(starts, state.builds + [Build(other, Running)], state.warmFor);
      && Next(state, Resume(stale)) == Some(running)
      && Next(running, BuildEnds(Failed(BuildFailed))) == Some(State(starts, built, state.warmFor))
  {
    var running := state.builds + [Build(other, Running)];
    assert Ended(running, Failed(BuildFailed)) == built;
  }

  lemma {:induction false} NewReader(
      starts: seq<Start>, built: seq<Build>, warmFor: Option<Fingerprint>, read: Fingerprint)
    requires built != [] && built[|built| - 1].status == Failed(BuildFailed) && warmFor != Some(read)
    ensures var s2 := State(starts, built, warmFor);
      var s3 := State(starts + [Reading], built, warmFor);
      var s4 := State(starts + [HasRead(Some(read))], built, warmFor);
      && Next(s2, Arrive) == Some(s3)
      && Next(s3, ReadEnds(|starts|, Some(read))) == Some(s4)
      && Next(s4, Resume(|starts|))
         == Some(State(starts + [Waiting(|built|, read)], built + [Build(read, Running)], warmFor))
  {
    assert (starts + [Reading])[|starts| := HasRead(Some(read))] == starts + [HasRead(Some(read))];
    assert (starts + [HasRead(Some(read))])[|starts| := Waiting(|built|, read)] == starts + [Waiting(|built|, read)];
  }

  lemma {:induction false} StaleReaderRebuilds(state: State, stale: nat, read: Fingerprint)
    requires Safe(state) && RejectedLast(state, read)
    requires stale < |state.starts| && state.starts[stale].HasRead?
    requires state.starts[stale].got !in {None, Some(read), state.warmFor}
    ensures Follow(state, StaleRun(state, stale, read)).Some?
    ensures |Follow(state, StaleRun(state, stale, read)).value.builds| == |state.builds| + 2
    ensures Last(Follow(state, StaleRun(state, stale, read)).value.builds) == Some(Build(read, Running))
  {
    var other := state.starts[stale].got.value;
    var starts := state.starts[stale := Waiting(|state.builds|, other)];
    var newer := |starts|;
    var built := state.builds + [Build(other, Failed(BuildFailed))];
    var again := built + [Build(read, Running)];
    StaleBuild(state, stale, starts, other, built);
    NewReader(starts, built, state.warmFor, read);
    FollowFive(state,
               State(starts, state.builds + [Build(other, Running)], state.warmFor),
               State(starts, built, state.warmFor),
               State(starts + [Reading], built, state.warmFor),
               State(starts + [HasRead(Some(read))], built, state.warmFor),
               State(starts + [Waiting(|built|, read)], again, state.warmFor),
               Resume(stale), BuildEnds(Failed(BuildFailed)), Arrive, ReadEnds(newer, Some(read)), Resume(newer));
  }

  ghost predicate BuiltAgain(state: State, steps: seq<Step>, read: Fingerprint) {
    && Follow(state, steps).Some?
    && exists k :: |state.builds| <= k < |Follow(state, steps).value.builds|
                   && Follow(state, steps).value.builds[k].fingerprint == read
  }

  /** While every read finds a rejected script, it is not built again, whatever happens, if and only
      if no start already holds another script's fingerprint that is not warm. */
  lemma {:induction false} NotRebuiltWhileUnchanged(before: seq<Step>, state: State, read: Fingerprint)
    requires Follow(FRESH, before) == Some(state) && RejectedLast(state, read)
    ensures (forall steps :: ReadsFind(steps, read) ==> !BuiltAgain(state, steps, read))
      <==> NoStaleReader(state, read)
  {
    AlwaysSafe(FRESH, before);
    if NoStaleReader(state, read) {
      forall steps | ReadsFind(steps, read) ensures !BuiltAgain(state, steps, read) {
        if Follow(state, steps).Some? {
          QuietRun(state, steps, read);
        }
      }
    } else {
      var stale :| 0 <= stale < |state.starts| && state.starts[stale].HasRead?
        && state.starts[stale].got !in {None, Some(read), state.warmFor};
      var steps := StaleRun(state, stale, read);
      StaleReaderRebuilds(state, stale, read);
      assert ReadsFind(steps, read);
      assert BuiltAgain(state, steps, read);
    }
  }

  lemma {:induction false} OldReaderWaits(before: Fingerprint, after: Fingerprint)
    ensures Follow(State([Reading], [], None),
                   [Arrive, ReadEnds(0, Some(before)), ReadEnds(1, Some(after)), Resume(1),
                    BuildEnds(Failed(ScriptRejected))])
      == Some(State([HasRead(Some(before)), Waiting(0, after)], [Build(after, Failed(ScriptRejected))], None))
  {
    var s1 := State([Reading], [], None);
    var s2 := State([Reading, Reading], [], None);
    var s3 := State([HasRead(Some(before)), Reading], [], None);
    var s4 := State([HasRead(Some(before)), HasRead(Some(after))], [], None);
    var s5 := State([HasRead(Some(before)), Waiting(0, after)], [Build(after, Running)], None);
    var s6 := State(s5.starts, [Build(after, Failed(ScriptRejected))], None);
    assert s1.starts + [Reading] == s2.starts;
    assert s2.starts[0 := HasRead(Some(before))] == s3.starts;
    assert s3.starts[1 := HasRead(Some(after))] == s4.starts;
    assert Current([], after) == s5.builds;
    assert s4.starts[1 := Waiting(0, after)] == s5.starts;
    assert Ended(s5.builds, Failed(ScriptRejected)) == s6.builds;
    FollowFive(s1, s2, s3, s4, s5, s6, Arrive, ReadEnds(0, Some(before)), ReadEnds(1, Some(after)), Resume(1),
               BuildEnds(Failed(ScriptRejected)));
  }

  /** Such a start exists in a run from the beginning: it read the old script just before the edit
      whose script is rejected. */
  lemma {:induction false} StaleReaderHappens()
    ensures var steps := [Arrive, Arrive, ReadEnds(0, Some("old")), ReadEnds(1, Some("new")), Resume(1),
                          BuildEnds(Failed(ScriptRejected))];
      var state := Follow(FRESH, steps);
      state.Some? && RejectedLast(state.value, "new") && !NoStaleReader(state.value, "new")
  {
    var steps := [Arrive, Arrive, ReadEnds(0, Some("old")), ReadEnds(1, Some("new")), Resume(1),
                  BuildEnds(Failed(ScriptRejected))];
    OldReaderWaits("old", "new");
    assert FRESH.starts + [Reading] == [Reading];
    FollowOne(FRESH, steps, State([Reading], [], None));
    assert steps[1..] == [steps[1], steps[2], steps[3], steps[4], steps[5]];
    assert [HasRead(Some("old")), Waiting(0, "new")][0] == HasRead(Some("old"));
  }

  // ---- What each start's step does ----

  /** The starts a step does not name are where they were, and only a start that resumes or a build that
      ends touches the builds. */
  lemma {:induction false} OthersKeep(state: State, step: Step, j: nat)
    requires Next(state, step).Some? && j < |state.starts|
    requires step.ReadEnds? || step.Resume? || step.Wake? || step.Cancel? ==> step.start != j
    ensures Next(state, step).value.starts[j] == state.starts[j]
    ensures !step.Resume? && !step.BuildEnds? ==>
      Next(state, step).value.builds == state.builds && Next(state, step).value.warmFor == state.warmFor
    ensures step == Arrive ==> Next(state, step).value.starts == state.starts + [Reading]
  {
  }

  /** A start whose read failed fails. One that read what is warm returns. Any other shares the build that
      runs; else fails with its script's rejection if that is the last build; else, however the last build
      ended, has its script built and waits for that. */
  lemma {:induction false} ResumeDecides(state: State, start: nat)
    requires Next(state, Resume(start)).Some?
    ensures
      var next := Next(state, Resume(start)).value;
      match state.starts[start].got
      case None => next.starts[start] == Raised(Unreadable) && next.builds == state.builds
      case Some(read) =>
        if state.warmFor == Some(read) then next.starts[start] == Returned(read) && next.builds == state.builds
        else
          && next.starts[start] == Waiting(|next.builds| - 1, read) && state.builds <= next.builds
          && (next.builds == state.builds <==> Runs(state.builds) || RejectedLast(state, read))
          && (next.builds != state.builds ==> next.builds[|state.builds|..] == [Build(read, Running)])
  {
  }

  /** A start that waited wakes only when its build ended: it looks at the script again when that build
      succeeded or was of another script, and fails with it, whatever the failure, when not. */
  lemma {:induction false} WakeDecides(state: State, start: nat)
    requires Next(state, Wake(start)).Some?
    ensures
      var waiting, next := state.starts[start], Next(state, Wake(start)).value.starts[start];
      && waiting.Waiting? && waiting.build < |state.builds| && state.builds[waiting.build].status != Running
      && (next == Reading
          <==> state.builds[waiting.build].status == Succeeded
               || state.builds[waiting.build].fingerprint != waiting.read)
      && (next != Reading ==>
            next.Raised? && state.builds[waiting.build].status == Failed(next.error.failure))
  {
  }

  /** A build that ends keeps its script, and makes the cache warm for it exactly when it succeeded. */
  lemma {:induction false} BuildEndDecides(state: State, outcome: Status)
    requires Next(state, BuildEnds(outcome)).Some?
    ensures
      var last, next := |state.builds| - 1, Next(state, BuildEnds(outcome)).value;
      && next.builds == state.builds[..last] + [Build(state.builds[last].fingerprint, outcome)]
      && next.starts == state.starts
      && next.warmFor == if outcome == Succeeded then Some(state.builds[last].fingerprint) else state.warmFor
  {
  }
}
