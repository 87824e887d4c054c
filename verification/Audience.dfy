/** The stream's audience from its session logs (scripts/stream_audience.py): a sweep over sorted
    start and end edges, against the definition of how many sessions cover an instant.

    Times are integers (microseconds), as the source's datetimes are. */
module Audience {

  datatype Session = Session(start: int, end: int)

  datatype Edge = Edge(at: int, step: int)

  /** How many listeners each session set holds: the report, with the levels in the order the
      sweep first met them. */
  datatype Report = Report(
    sessions: nat, first: int, last: int, peak: int, peakAt: int, typical: int,
    levels: seq<int>, timeAt: map<int, int>)

  // ---- The definition ----

  function Started(session: Session, t: int): int {
    if session.start <= t then 1 else 0
  }

  function Ended(session: Session, t: int): int {
    if session.end <= t then 1 else 0
  }

  /** How many sessions have started and not ended at an instant. */
  function Level(found: seq<Session>, t: int): int {
    if found == [] then 0
    else
      var last := found[|found| - 1];
      Level(found[..|found| - 1], t) + Started(last, t) - Ended(last, t)
  }

  /** How many of the half-open intervals [start, end) cover an instant. */
  function Covering(found: seq<Session>, t: int): nat {
    if found == [] then 0
    else
      var last := found[|found| - 1];
      Covering(found[..|found| - 1], t) + (if last.start <= t < last.end then 1 else 0)
  }

  /** How many instants of [from, to) have a level. */
  function Instants(found: seq<Session>, level: int, from: int, to: int): nat
    decreases to - from
  {
    if to <= from then 0
    else Instants(found, level, from, to - 1) + (if Level(found, to - 1) == level then 1 else 0)
  }

  function Lengths(found: seq<Session>): int {
    if found == [] then 0
    else Lengths(found[..|found| - 1]) + found[|found| - 1].end - found[|found| - 1].start
  }

  ghost predicate Forwards(found: seq<Session>) {
    forall k :: 0 <= k < |found| ==> found[k].start <= found[k].end
  }

  /** Of sessions that do not end before they start, the level is the number of covering intervals. */
  lemma {:induction false} LevelIsCovering(found: seq<Session>, t: int)
    requires Forwards(found)
    ensures Level(found, t) == Covering(found, t)
  {
    if found == [] {
    } else {
      LevelIsCovering(found[..|found| - 1], t);
    }
  }

  // ---- Edges in order ----

  predicate AtOrBefore(a: Edge, b: Edge) {
    a.at < b.at || (a.at == b.at && a.step <= b.step)
  }

  ghost predicate Sorted(edges: seq<Edge>) {
    forall i, j :: 0 <= i < j < |edges| ==> AtOrBefore(edges[i], edges[j])
  }

  function Insert(edges: seq<Edge>, edge: Edge): (r: seq<Edge>)
    ensures |r| == |edges| + 1
  {
    if edges == [] || AtOrBefore(edges[|edges| - 1], edge) then edges + [edge]
    else Insert(edges[..|edges| - 1], edge) + [edges[|edges| - 1]]
  }

  function SortEdges(edges: seq<Edge>): (r: seq<Edge>)
    ensures |r| == |edges|
  {
    if edges == [] then [] else Insert(SortEdges(edges[..|edges| - 1]), edges[|edges| - 1])
  }

  function StartEdges(found: seq<Session>): (r: seq<Edge>)
    ensures |r| == |found|
  {
    if found == [] then [] else StartEdges(found[..|found| - 1]) + [Edge(found[|found| - 1].start, 1)]
  }

  function EndEdges(found: seq<Session>): (r: seq<Edge>)
    ensures |r| == |found|
  {
    if found == [] then [] else EndEdges(found[..|found| - 1]) + [Edge(found[|found| - 1].end, -1)]
  }

  function EdgesOf(found: seq<Session>): (r: seq<Edge>)
    ensures |r| == 2 * |found|
  {
    SortEdges(StartEdges(found) + EndEdges(found))
  }

  // ---- Weights over edges do not depend on their order ----

  function Total(edges: seq<Edge>, weight: Edge -> int): int {
    if edges == [] then 0 else Total(edges[..|edges| - 1], weight) + weight(edges[|edges| - 1])
  }

  lemma {:induction false} InsertKeepsTotal(edges: seq<Edge>, edge: Edge, weight: Edge -> int)
    ensures Total(Insert(edges, edge), weight) == Total(edges, weight) + weight(edge)
  {
    if edges == [] || AtOrBefore(edges[|edges| - 1], edge) {
      assert (edges + [edge])[..|edges|] == edges;
    } else {
      var front := edges[..|edges| - 1];
      InsertKeepsTotal(front, edge, weight);
      assert (Insert(front, edge) + [edges[|edges| - 1]])[..|edges|] == Insert(front, edge);
    }
  }

  lemma {:induction false} SortKeepsTotal(edges: seq<Edge>, weight: Edge -> int)
    ensures Total(SortEdges(edges), weight) == Total(edges, weight)
  {
    if edges == [] {
    } else {
      SortKeepsTotal(edges[..|edges| - 1], weight);
      InsertKeepsTotal(SortEdges(edges[..|edges| - 1]), edges[|edges| - 1], weight);
    }
  }

  lemma {:induction false} TotalAppends(a: seq<Edge>, b: seq<Edge>, weight: Edge -> int)
    ensures Total(a + b, weight) == Total(a, weight) + Total(b, weight)
  {
    if b == [] {
      assert a + b == a;
    } else {
      TotalAppends(a, b[..|b| - 1], weight);
      assert (a + b)[..|a + b| - 1] == a + b[..|b| - 1];
    }
  }

  /** What a weight of edges comes to, session by session. */
  function PerSession(found: seq<Session>, weight: Edge -> int): int {
    if found == [] then 0
    else
      var last := found[|found| - 1];
      PerSession(found[..|found| - 1], weight) + weight(Edge(last.start, 1)) + weight(Edge(last.end, -1))
  }

  lemma {:induction false} EdgesOfTotal(found: seq<Session>, weight: Edge -> int)
    ensures Total(StartEdges(found), weight) + Total(EndEdges(found), weight) == PerSession(found, weight)
  {
    if found == [] {
    } else {
      var front, last := found[..|found| - 1], found[|found| - 1];
      EdgesOfTotal(front, weight);
      assert (StartEdges(front) + [Edge(last.start, 1)])[..|front|] == StartEdges(front);
      assert (EndEdges(front) + [Edge(last.end, -1)])[..|front|] == EndEdges(front);
    }
  }

  lemma {:induction false} SweepTotal(found: seq<Session>, weight: Edge -> int)
    ensures Total(EdgesOf(found), weight) == PerSession(found, weight)
  {
    SortKeepsTotal(StartEdges(found) + EndEdges(found), weight);
    TotalAppends(StartEdges(found), EndEdges(found), weight);
    EdgesOfTotal(found, weight);
  }

  lemma {:induction false} InsertSorts(edges: seq<Edge>, edge: Edge)
    requires Sorted(edges)
    ensures Sorted(Insert(edges, edge))
    ensures forall k :: 0 <= k <= |edges| ==>
      Insert(edges, edge)[k] == edge || Insert(edges, edge)[k] in edges
  {
    if edges != [] && !AtOrBefore(edges[|edges| - 1], edge) {
      var front := edges[..|edges| - 1];
      InsertSorts(front, edge);
      forall e | e in front ensures AtOrBefore(e, edges[|edges| - 1]) {
        var k :| 0 <= k < |front| && front[k] == e;
        assert edges[k] == e;
      }
    }
  }

  lemma {:induction false} SortSorts(edges: seq<Edge>)
    ensures Sorted(SortEdges(edges))
  {
    if edges == [] {
    } else {
      SortSorts(edges[..|edges| - 1]);
      InsertSorts(SortEdges(edges[..|edges| - 1]), edges[|edges| - 1]);
    }
  }

  // ---- The sweep's level is the level of an instant ----

  function Step(): Edge -> int {
    (edge: Edge) => edge.step
  }

  function StepUpTo(t: int): Edge -> int {
    (edge: Edge) => if edge.at <= t then edge.step else 0
  }

  function EndsFirst(t: int): Edge -> int {
    (edge: Edge) => if edge.at < t || (edge.at == t && edge.step < 0) then edge.step else 0
  }

  function Moment(): Edge -> int {
    (edge: Edge) => edge.step * edge.at
  }

  lemma {:induction false} LevelOfSessions(found: seq<Session>, t: int)
    ensures PerSession(found, StepUpTo(t)) == Level(found, t)
  {
    if found == [] {
    } else {
      LevelOfSessions(found[..|found| - 1], t);
    }
  }

  lemma {:induction false} AllStepsCancel(found: seq<Session>)
    ensures PerSession(found, Step()) == 0
    ensures PerSession(found, Moment()) == -Lengths(found)
  {
    if found == [] {
    } else {
      AllStepsCancel(found[..|found| - 1]);
    }
  }

  lemma {:induction false} EndsFirstStaysUp(found: seq<Session>, t: int)
    requires forall k :: 0 <= k < |found| ==> found[k].start < found[k].end
    ensures PerSession(found, EndsFirst(t)) >= 0
  {
    if found == [] {
    } else {
      EndsFirstStaysUp(found[..|found| - 1], t);
    }
  }

  lemma {:induction false} SameWeights(edges: seq<Edge>, f: Edge -> int, g: Edge -> int)
    requires forall k :: 0 <= k < |edges| ==> f(edges[k]) == g(edges[k])
    ensures Total(edges, f) == Total(edges, g)
  {
    if edges == [] {
    } else {
      SameWeights(edges[..|edges| - 1], f, g);
    }
  }

  lemma {:induction false} WeightsAtMost(edges: seq<Edge>, f: Edge -> int, g: Edge -> int)
    requires forall k :: 0 <= k < |edges| ==> f(edges[k]) <= g(edges[k])
    ensures Total(edges, f) <= Total(edges, g)
  {
    if edges == [] {
    } else {
      WeightsAtMost(edges[..|edges| - 1], f, g);
    }
  }

  lemma {:induction false} SplitTotal(edges: seq<Edge>, k: nat, weight: Edge -> int)
    requires k <= |edges|
    ensures Total(edges, weight) == Total(edges[..k], weight) + Total(edges[k..], weight)
  {
    assert edges == edges[..k] + edges[k..];
    TotalAppends(edges[..k], edges[k..], weight);
  }

  function Zero(): Edge -> int {
    (edge: Edge) => 0
  }

  lemma {:induction false} ZeroTotal(edges: seq<Edge>)
    ensures Total(edges, Zero()) == 0
  {
    if edges == [] {
    } else {
      ZeroTotal(edges[..|edges| - 1]);
    }
  }

  /** When the first k edges are those at or before an instant, the sweep's level after them is the
      level of that instant. */
  lemma {:induction false} PrefixIsLevel(edges: seq<Edge>, k: nat, t: int)
    requires k <= |edges|
    requires forall i :: 0 <= i < k ==> edges[i].at <= t
    requires forall i :: k <= i < |edges| ==> t < edges[i].at
    ensures Total(edges[..k], Step()) == Total(edges, StepUpTo(t))
  {
    SplitTotal(edges, k, StepUpTo(t));
    SameWeights(edges[..k], Step(), StepUpTo(t));
    SameWeights(edges[k..], Zero(), StepUpTo(t));
    ZeroTotal(edges[k..]);
  }

  /** After an edge that raises the level, the sweep stands at or below the level of its instant:
      every edge still to come at that instant raises it too. */
  lemma {:induction false} RaisedIsUnderLevel(edges: seq<Edge>, k: nat)
    requires Sorted(edges) && k < |edges| && edges[k].step > 0
    ensures Total(edges[..k + 1], Step()) <= Total(edges, StepUpTo(edges[k].at))
  {
    var t := edges[k].at;
    SplitTotal(edges, k + 1, StepUpTo(t));
    SameWeights(edges[..k + 1], Step(), StepUpTo(t));
    WeightsAtMost(edges[k + 1..], Zero(), StepUpTo(t));
    ZeroTotal(edges[k + 1..]);
  }

  /** After any edge, the sweep stands at or above the sessions started before its instant less
      those ended by it. */
  lemma {:induction false} EndsFirstIsUnder(edges: seq<Edge>, k: nat, t: int)
    requires Sorted(edges) && 0 < k <= |edges| && t == edges[k - 1].at
    ensures Total(edges, EndsFirst(t)) <= Total(edges[..k], Step())
  {
    var low, high := edges[..k], edges[k..];
    SplitTotal(edges, k, EndsFirst(t));
    assert forall i :: 0 <= i < |low| ==> low[i].at <= t;
    WeightsAtMost(low, EndsFirst(t), Step());
    assert forall i :: 0 <= i < |high| ==> t <= high[i].at;
    WeightsAtMost(high, EndsFirst(t), Zero());
    ZeroTotal(high);
  }

  /** With every session ending after it starts, the sweep's level is never negative, even between
      edges at one instant. */
  lemma {:induction false} SweepNeverNegative(found: seq<Session>, k: nat)
    requires forall i :: 0 <= i < |found| ==> found[i].start < found[i].end
    requires k <= 2 * |found|
    ensures Total(EdgesOf(found)[..k], Step()) >= 0
  {
    if k > 0 {
      var edges := EdgesOf(found);
      SortSorts(StartEdges(found) + EndEdges(found));
      EndsFirstIsUnder(edges, k, edges[k - 1].at);
      SweepTotal(found, EndsFirst(edges[k - 1].at));
      EndsFirstStaysUp(found, edges[k - 1].at);
    }
  }

  /** How many edges are at or before an instant. */
  function CountUpTo(edges: seq<Edge>, t: int): (k: nat)
    ensures k <= |edges|
  {
    if edges == [] then 0
    else if edges[|edges| - 1].at <= t then |edges|
    else CountUpTo(edges[..|edges| - 1], t)
  }

  lemma {:induction false} CountUpToSplits(edges: seq<Edge>, t: int)
    requires Sorted(edges)
    ensures forall i :: 0 <= i < |edges| ==> (edges[i].at <= t <==> i < CountUpTo(edges, t))
  {
    if edges != [] && t < edges[|edges| - 1].at {
      CountUpToSplits(edges[..|edges| - 1], t);
    }
  }

  /** Every instant's level is the sweep's after some number of edges. */
  lemma {:induction false} InstantIsPrefix(found: seq<Session>, t: int)
    ensures Level(found, t) == Total(EdgesOf(found)[..CountUpTo(EdgesOf(found), t)], Step())
  {
    var edges := EdgesOf(found);
    SortSorts(StartEdges(found) + EndEdges(found));
    CountUpToSplits(edges, t);
    PrefixIsLevel(edges, CountUpTo(edges, t), t);
    SweepTotal(found, StepUpTo(t));
    LevelOfSessions(found, t);
  }

  // ---- Time spent at a level ----

  lemma {:induction false} InstantsSplit(found: seq<Session>, level: int, a: int, b: int, c: int)
    requires a <= b <= c
    ensures Instants(found, level, a, c) == Instants(found, level, a, b) + Instants(found, level, b, c)
    decreases c - b
  {
    if b < c {
      InstantsSplit(found, level, a, b, c - 1);
    }
  }

  lemma {:induction false} InstantsOfGap(found: seq<Session>, level: int, a: int, b: int, n: int)
    requires a <= b
    requires forall t :: a <= t < b ==> Level(found, t) == level
    ensures Instants(found, n, a, b) == if n == level then b - a else 0
    decreases b - a
  {
    if a < b {
      InstantsOfGap(found, level, a, b - 1, n);
    }
  }

  /** Between two neighbouring edges the level is the sweep's, so the gap is time at that level. */
  lemma {:induction false} GapHoldsLevel(found: seq<Session>, edges: seq<Edge>, k: nat, n: int)
    requires edges == EdgesOf(found) && 0 < k < |edges|
    ensures edges[0].at <= edges[k - 1].at <= edges[k].at
    ensures Instants(found, n, edges[0].at, edges[k].at)
      == Instants(found, n, edges[0].at, edges[k - 1].at)
         + if n == Total(edges[..k], Step()) then edges[k].at - edges[k - 1].at else 0
  {
    SortSorts(StartEdges(found) + EndEdges(found));
    var a, b := edges[k - 1].at, edges[k].at;
    var level := Total(edges[..k], Step());
    forall t | a <= t < b ensures Level(found, t) == level {
      PrefixIsLevel(edges, k, t);
      SweepTotal(found, StepUpTo(t));
      LevelOfSessions(found, t);
    }
    InstantsOfGap(found, level, a, b, n);
    InstantsSplit(found, n, edges[0].at, a, b);
  }

  // ---- The table of times ----

  function Held(timeAt: map<int, int>, n: int): int {
    if n in timeAt then timeAt[n] else 0
  }

  ghost predicate Keyed(levels: seq<int>, timeAt: map<int, int>) {
    && (forall n :: n in timeAt <==> n in levels)
    && (forall i, j :: 0 <= i < j < |levels| ==> levels[i] != levels[j])
  }

  function SumHeld(levels: seq<int>, timeAt: map<int, int>): int {
    if levels == [] then 0
    else SumHeld(levels[..|levels| - 1], timeAt) + Held(timeAt, levels[|levels| - 1])
  }

  function SumWeighted(levels: seq<int>, timeAt: map<int, int>): int {
    if levels == [] then 0
    else
      var n := levels[|levels| - 1];
      SumWeighted(levels[..|levels| - 1], timeAt) + n * Held(timeAt, n)
  }

  lemma {:induction false} SumsElsewhere(levels: seq<int>, timeAt: map<int, int>, n: int, more: int)
    requires n !in levels
    ensures SumHeld(levels, timeAt[n := more]) == SumHeld(levels, timeAt)
    ensures SumWeighted(levels, timeAt[n := more]) == SumWeighted(levels, timeAt)
  {
    if levels == [] {
    } else {
      SumsElsewhere(levels[..|levels| - 1], timeAt, n, more);
    }
  }

  lemma {:induction false} SumsGrow(levels: seq<int>, timeAt: map<int, int>, n: int, gap: int)
    requires forall i, j :: 0 <= i < j < |levels| ==> levels[i] != levels[j]
    requires n in levels
    ensures SumHeld(levels, timeAt[n := Held(timeAt, n) + gap]) == SumHeld(levels, timeAt) + gap
    ensures SumWeighted(levels, timeAt[n := Held(timeAt, n) + gap]) == SumWeighted(levels, timeAt) + n * gap
  {
    var front, last := levels[..|levels| - 1], levels[|levels| - 1];
    if last == n {
      SumsElsewhere(front, timeAt, n, Held(timeAt, n) + gap);
      assert n * (Held(timeAt, n) + gap) == n * Held(timeAt, n) + n * gap;
    } else {
      SumsGrow(front, timeAt, n, gap);
    }
  }

  // ---- The sweep ----

  /** The level above 0 held longest, the first met of those held as long; 0 when none is. */
  predicate IsTypical(levels: seq<int>, timeAt: map<int, int>, typical: int) {
    if forall k :: 0 <= k < |levels| ==> levels[k] <= 0 then typical == 0
    else
      exists k :: 0 <= k < |levels| && levels[k] == typical && typical > 0
        && (forall j :: 0 <= j < k && levels[j] > 0 ==> Held(timeAt, levels[j]) < Held(timeAt, typical))
        && (forall j :: k <= j < |levels| && levels[j] > 0 ==> Held(timeAt, levels[j]) <= Held(timeAt, typical))
  }

  method Typical(levels: seq<int>, timeAt: map<int, int>) returns (typical: int)
    ensures IsTypical(levels, timeAt, typical)
  {
    typical := 0;
    ghost var at := 0;
    for i := 0 to |levels|
      invariant typical >= 0
      invariant typical == 0 ==> forall k :: 0 <= k < i ==> levels[k] <= 0
      invariant typical > 0 ==> 0 <= at < i && levels[at] == typical
      invariant typical > 0 ==>
        forall j :: 0 <= j < at && levels[j] > 0 ==> Held(timeAt, levels[j]) < Held(timeAt, typical)
      invariant typical > 0 ==>
        forall j :: at <= j < i && levels[j] > 0 ==> Held(timeAt, levels[j]) <= Held(timeAt, typical)
    {
      if levels[i] > 0 && (typical == 0 || Held(timeAt, levels[i]) > Held(timeAt, typical)) {
        typical := levels[i];
        at := i;
      }
    }
  }

  method LastEnd(found: seq<Session>) returns (last: int)
    requires found != []
    ensures exists k :: 0 <= k < |found| && found[k].end == last
    ensures forall k :: 0 <= k < |found| ==> found[k].end <= last
  {
    last := found[0].end;
    for i := 1 to |found|
      invariant exists k :: 0 <= k < |found| && found[k].end == last
      invariant forall k :: 0 <= k < i ==> found[k].end <= last
    {
      if found[i].end > last {
        last := found[i].end;
      }
    }
  }

  /** A level keeps its place among the levels; a new one comes last. */
  function NewLevels(levels: seq<int>, n: int): seq<int> {
    if n in levels then levels else levels + [n]
  }

  function NewTimes(timeAt: map<int, int>, n: int, gap: int): map<int, int> {
    timeAt[n := Held(timeAt, n) + gap]
  }

  lemma {:induction false} NewLevelsHave(levels: seq<int>, n: int)
    ensures forall m :: m in NewLevels(levels, n) <==> m in levels || m == n
  {
  }

  lemma {:induction false} HoldKeeps(levels: seq<int>, timeAt: map<int, int>, n: int, gap: int)
    requires Keyed(levels, timeAt)
    ensures Keyed(NewLevels(levels, n), NewTimes(timeAt, n, gap))
    ensures forall m :: Held(NewTimes(timeAt, n, gap), m) == Held(timeAt, m) + if m == n then gap else 0
  {
    NewLevelsHave(levels, n);
  }

  lemma {:induction false} HoldSums(levels: seq<int>, timeAt: map<int, int>, n: int, gap: int)
    requires Keyed(levels, timeAt)
    ensures SumHeld(NewLevels(levels, n), NewTimes(timeAt, n, gap)) == SumHeld(levels, timeAt) + gap
    ensures SumWeighted(NewLevels(levels, n), NewTimes(timeAt, n, gap)) == SumWeighted(levels, timeAt) + n * gap
  {
    var newLevels := NewLevels(levels, n);
    HoldKeeps(levels, timeAt, n, gap);
    if n !in levels {
      assert newLevels[..|levels|] == levels;
    }
    assert SumHeld(newLevels, timeAt) == SumHeld(levels, timeAt);
    assert SumWeighted(newLevels, timeAt) == SumWeighted(levels, timeAt);
    SumsGrow(newLevels, timeAt, n, gap);
  }

  /** Add a stretch of time to a level's entry. */
  method Hold(levels: seq<int>, timeAt: map<int, int>, n: int, gap: int)
    returns (newLevels: seq<int>, newTimes: map<int, int>)
    ensures newLevels == NewLevels(levels, n) && newTimes == NewTimes(timeAt, n, gap)
  {
    newLevels := if n in levels then levels else levels + [n];
    newTimes := timeAt[n := (if n in timeAt then timeAt[n] else 0) + gap];
  }

  lemma {:induction false} SweptPeak(found: seq<Session>, peak: int)
    requires forall j :: 0 <= j <= 2 * |found| ==> Total(EdgesOf(found)[..j], Step()) <= peak
    ensures forall t :: Level(found, t) <= peak
  {
    forall t ensures Level(found, t) <= peak {
      InstantIsPrefix(found, t);
    }
  }

  lemma {:induction false} RaisedIsLevel(found: seq<Session>, k: nat)
    requires k < 2 * |found| && EdgesOf(found)[k].step > 0
    ensures Total(EdgesOf(found)[..k + 1], Step()) <= Level(found, EdgesOf(found)[k].at)
  {
    var edges := EdgesOf(found);
    SortSorts(StartEdges(found) + EndEdges(found));
    RaisedIsUnderLevel(edges, k);
    SweepTotal(found, StepUpTo(edges[k].at));
    LevelOfSessions(found, edges[k].at);
  }

  /** Every table entry is the number of instants that have its level. */
  ghost predicate TimesUpTo(found: seq<Session>, timeAt: map<int, int>, to: int)
    requires found != []
  {
    forall n :: Held(timeAt, n) == Instants(found, n, EdgesOf(found)[0].at, to)
  }

  lemma {:induction false} TimesAdvance(
      found: seq<Session>, k: nat, before: map<int, int>, after: map<int, int>, level: int, gap: int)
    requires 0 < k < 2 * |found| && TimesUpTo(found, before, EdgesOf(found)[k - 1].at)
    requires level == Total(EdgesOf(found)[..k], Step())
    requires gap == EdgesOf(found)[k].at - EdgesOf(found)[k - 1].at
    requires forall m :: Held(after, m) == Held(before, m) + if m == level then gap else 0
    ensures TimesUpTo(found, after, EdgesOf(found)[k].at)
  {
    forall n ensures Held(after, n) == Instants(found, n, EdgesOf(found)[0].at, EdgesOf(found)[k].at) {
      GapHoldsLevel(found, EdgesOf(found), k, n);
    }
  }

  /** The levels the sweep stands at, edge by edge: after none, one, ... */
  ghost predicate StoodAt(edges: seq<Edge>, k: nat, n: int)
    requires k <= |edges|
  {
    exists j :: 0 <= j < k && n == Total(edges[..j], Step())
  }

  lemma {:induction false} MomentStep(w: int, level: int, step: int, at: int, previous: int, moment: int)
    requires w == level * previous - moment
    ensures w + level * (at - previous) == (level + step) * at - (moment + step * at)
  {
  }

  /** The sweep stood at one level before it first stood at another. */
  ghost predicate MetBefore(edges: seq<Edge>, k: nat, a: int, b: int)
    requires k <= |edges|
  {
    exists j :: 0 <= j < k && a == Total(edges[..j], Step()) && !StoodAt(edges, j + 1, b)
  }

  /** Levels are listed in the order the sweep first stood at them. */
  ghost predicate InOrderMet(edges: seq<Edge>, k: nat, levels: seq<int>)
    requires k <= |edges|
  {
    forall i, j :: 0 <= i < j < |levels| ==> MetBefore(edges, k, levels[i], levels[j])
  }

  lemma {:induction false} MetStays(edges: seq<Edge>, k: nat, a: int, b: int)
    requires k < |edges| && MetBefore(edges, k, a, b)
    ensures MetBefore(edges, k + 1, a, b)
  {
    var j :| 0 <= j < k && a == Total(edges[..j], Step()) && !StoodAt(edges, j + 1, b);
    assert 0 <= j < k + 1 && !StoodAt(edges, j + 1, b);
  }

  lemma {:induction false} MetNow(edges: seq<Edge>, k: nat, a: int, b: int)
    requires k < |edges| && StoodAt(edges, k, a) && !StoodAt(edges, k, b)
    ensures MetBefore(edges, k + 1, a, b)
  {
    var j :| 0 <= j < k && a == Total(edges[..j], Step());
    assert 0 <= j < k + 1 && !StoodAt(edges, j + 1, b);
  }

  /** The levels the sweep stood at, each once, in the order it first came to them. */
  function FirstStood(edges: seq<Edge>, k: nat): seq<int>
    requires k <= |edges|
  {
    if k == 0 then [] else NewLevels(FirstStood(edges, k - 1), Total(edges[..k - 1], Step()))
  }

  /** A level the sweep comes to is listed last when it is new. */
  lemma {:induction false} OrderStep(edges: seq<Edge>, k: nat, levels: seq<int>, newLevels: seq<int>)
    requires k < |edges| && InOrderMet(edges, k, levels)
    requires forall n :: n in levels <==> StoodAt(edges, k, n)
    requires newLevels == NewLevels(levels, Total(edges[..k], Step()))
    ensures InOrderMet(edges, k + 1, newLevels)
  {
    forall i, j | 0 <= i < j < |newLevels| ensures MetBefore(edges, k + 1, newLevels[i], newLevels[j]) {
      if j < |levels| {
        assert newLevels[i] == levels[i] && newLevels[j] == levels[j];
        MetStays(edges, k, levels[i], levels[j]);
      } else {
        assert newLevels[i] == levels[i] && levels[i] in levels;
        MetNow(edges, k, newLevels[i], newLevels[j]);
      }
    }
  }

  lemma {:induction false} StoodStep(edges: seq<Edge>, k: nat, levels: seq<int>, newLevels: seq<int>)
    requires k < |edges|
    requires forall n :: n in levels <==> StoodAt(edges, k, n)
    requires forall n :: n in newLevels <==> n in levels || n == Total(edges[..k], Step())
    ensures forall n :: n in newLevels <==> StoodAt(edges, k + 1, n)
  {
  }

  lemma {:induction false} FirstStoodLaws(edges: seq<Edge>, k: nat)
    requires k <= |edges|
    ensures forall n :: n in FirstStood(edges, k) <==> StoodAt(edges, k, n)
    ensures InOrderMet(edges, k, FirstStood(edges, k))
  {
    if k == 0 {
    } else {
      var levels, level := FirstStood(edges, k - 1), Total(edges[..k - 1], Step());
      FirstStoodLaws(edges, k - 1);
      NewLevelsHave(levels, level);
      StoodStep(edges, k - 1, levels, NewLevels(levels, level));
      OrderStep(edges, k - 1, levels, NewLevels(levels, level));
    }
  }

  function Previous(edges: seq<Edge>, k: nat): int
    requires 0 < |edges| && k <= |edges|
  {
    edges[if k == 0 then 0 else k - 1].at
  }

  /** The table after the first k edges. */
  ghost predicate Swept(found: seq<Session>, k: nat, levels: seq<int>, timeAt: map<int, int>)
    requires found != [] && k <= 2 * |found|
  {
    var edges := EdgesOf(found);
    && Keyed(levels, timeAt)
    && TimesUpTo(found, timeAt, Previous(edges, k))
    && SumHeld(levels, timeAt) == Previous(edges, k) - edges[0].at
    && (forall n :: n in levels <==> StoodAt(edges, k, n))
  }

  /** The area under the sweep's level over the first k edges. */
  function Area(edges: seq<Edge>, k: nat): int
    requires 0 < |edges| && k <= |edges|
  {
    if k == 0 then 0
    else Area(edges, k - 1) + Total(edges[..k - 1], Step()) * (edges[k - 1].at - Previous(edges, k - 1))
  }

  /** No instant before one has a level as high. */
  ghost predicate LowerBefore(found: seq<Session>, peak: int, peakAt: int) {
    forall t :: t < peakAt ==> Level(found, t) < peak
  }

  /** The peak after the first k edges: the highest level stood at, and that of an instant. */
  ghost predicate Peaked(found: seq<Session>, k: nat, peak: int, peakAt: int)
    requires k <= 2 * |found|
  {
    && peak >= 0
    && (forall j :: 0 <= j <= k ==> Total(EdgesOf(found)[..j], Step()) <= peak)
    && (peak == 0 || (peak <= Level(found, peakAt) && LowerBefore(found, peak, peakAt)))
  }

  /** Before an edge, no instant's level is above those the sweep stood at until then. */
  lemma {:induction false} EarlierIsLower(found: seq<Session>, k: nat, peak: int, higher: int)
    requires k < 2 * |found| && peak < higher
    requires forall j :: 0 <= j <= k ==> Total(EdgesOf(found)[..j], Step()) <= peak
    ensures LowerBefore(found, higher, EdgesOf(found)[k].at)
  {
    var edges := EdgesOf(found);
    SortSorts(StartEdges(found) + EndEdges(found));
    forall t | t < edges[k].at ensures Level(found, t) < higher {
      CountUpToSplits(edges, t);
      InstantIsPrefix(found, t);
    }
  }

  lemma {:induction false} TotalStep(edges: seq<Edge>, k: nat, weight: Edge -> int)
    requires k < |edges|
    ensures Total(edges[..k + 1], weight) == Total(edges[..k], weight) + weight(edges[k])
  {
    assert edges[..k + 1][..k] == edges[..k];
  }

  lemma {:induction false} AreaIsMoment(edges: seq<Edge>, k: nat)
    requires 0 < |edges| && k <= |edges|
    ensures Area(edges, k) == Total(edges[..k], Step()) * Previous(edges, k) - Total(edges[..k], Moment())
  {
    if k == 0 {
    } else {
      AreaIsMoment(edges, k - 1);
      TotalStep(edges, k - 1, Step());
      TotalStep(edges, k - 1, Moment());
      MomentStep(Area(edges, k - 1), Total(edges[..k - 1], Step()), edges[k - 1].step, edges[k - 1].at,
                 Previous(edges, k - 1), Total(edges[..k - 1], Moment()));
    }
  }

  lemma {:induction false} SweptStep(found: seq<Session>, k: nat, level: int, gap: int,
                  levels: seq<int>, timeAt: map<int, int>, newLevels: seq<int>, newTimes: map<int, int>)
    requires found != [] && k < 2 * |found| && Swept(found, k, levels, timeAt)
    requires level == Total(EdgesOf(found)[..k], Step())
    requires gap == EdgesOf(found)[k].at - Previous(EdgesOf(found), k)
    requires Keyed(newLevels, newTimes)
    requires forall m :: m in newLevels <==> m in levels || m == level
    requires forall m :: Held(newTimes, m) == Held(timeAt, m) + if m == level then gap else 0
    requires SumHeld(newLevels, newTimes) == SumHeld(levels, timeAt) + gap
    ensures Swept(found, k + 1, newLevels, newTimes)
  {
    var edges := EdgesOf(found);
    if k > 0 {
      TimesAdvance(found, k, timeAt, newTimes, level, gap);
    }
    StoodStep(edges, k, levels, newLevels);
  }

  lemma {:induction false} PeakedStep(found: seq<Session>, k: nat, peak: int, peakAt: int)
    requires k < 2 * |found| && Peaked(found, k, peak, peakAt)
    ensures var level := Total(EdgesOf(found)[..k + 1], Step());
      if level > peak then Peaked(found, k + 1, level, EdgesOf(found)[k].at)
      else Peaked(found, k + 1, peak, peakAt)
  {
    var edges := EdgesOf(found);
    if Total(edges[..k + 1], Step()) > peak {
      TotalStep(edges, k, Step());
      assert Total(edges[..k], Step()) <= peak;
      RaisedIsLevel(found, k);
      EarlierIsLower(found, k, peak, Total(edges[..k + 1], Step()));
    }
  }

  lemma {:induction false} AllEdgesCancel(found: seq<Session>, edges: seq<Edge>)
    requires edges == EdgesOf(found)[..2 * |found|]
    ensures Total(edges, Step()) == 0
    ensures Total(edges, Moment()) == -Lengths(found)
  {
    assert edges == EdgesOf(found);
    SweepTotal(found, Step());
    SweepTotal(found, Moment());
    AllStepsCancel(found);
  }

  lemma {:induction false} NoLevelLeft(weighted: int, level: int, previous: int, moment: int)
    requires weighted == level * previous - moment && level == 0
    ensures weighted == -moment
  {
  }

  lemma {:induction false} SweptAll(found: seq<Session>, levels: seq<int>, timeAt: map<int, int>)
    requires found != [] && SumWeighted(levels, timeAt) == Area(EdgesOf(found), 2 * |found|)
    ensures SumWeighted(levels, timeAt) == Lengths(found)
  {
    var edges := EdgesOf(found)[..2 * |found|];
    AllEdgesCancel(found, edges);
    AreaIsMoment(EdgesOf(found), 2 * |found|);
    NoLevelLeft(SumWeighted(levels, timeAt), Total(edges, Step()), Previous(EdgesOf(found), 2 * |found|),
                Total(edges, Moment()));
  }

  lemma {:induction false} SweepStart(found: seq<Session>)
    requires found != []
    ensures Swept(found, 0, [], map[])
  {
    var edges := EdgesOf(found);
    assert edges[..0] == [];
    forall n ensures n !in [] && !StoodAt(edges, 0, n) && Instants(found, n, edges[0].at, edges[0].at) == 0 {
    }
  }

  lemma {:induction false} SweptOn(
      found: seq<Session>, k: nat, level: int, gap: int, levels: seq<int>, timeAt: map<int, int>)
    requires found != [] && k < 2 * |found|
    requires Swept(found, k, levels, timeAt)
    requires level == Total(EdgesOf(found)[..k], Step())
    requires gap == EdgesOf(found)[k].at - Previous(EdgesOf(found), k)
    ensures Swept(found, k + 1, NewLevels(levels, level), NewTimes(timeAt, level, gap))
  {
    HoldKeeps(levels, timeAt, level, gap);
    HoldSums(levels, timeAt, level, gap);
    NewLevelsHave(levels, level);
    SweptStep(found, k, level, gap, levels, timeAt, NewLevels(levels, level), NewTimes(timeAt, level, gap));
  }

  lemma {:induction false} AreaOn(
      edges: seq<Edge>, k: nat, level: int, gap: int, levels: seq<int>, timeAt: map<int, int>)
    requires k < |edges| && Keyed(levels, timeAt)
    requires SumWeighted(levels, timeAt) == Area(edges, k)
    requires level == Total(edges[..k], Step()) && gap == edges[k].at - Previous(edges, k)
    ensures SumWeighted(NewLevels(levels, level), NewTimes(timeAt, level, gap)) == Area(edges, k + 1)
  {
    HoldSums(levels, timeAt, level, gap);
  }

  /** The table after the first k edges. */
  function TimesAfter(edges: seq<Edge>, k: nat): map<int, int>
    requires 0 < |edges| && k <= |edges|
  {
    if k == 0 then map[]
    else
      NewTimes(TimesAfter(edges, k - 1), Total(edges[..k - 1], Step()), edges[k - 1].at - Previous(edges, k - 1))
  }

  /** The peak after the first k edges, and the edge that raised the level to it first. */
  function PeakAfter(edges: seq<Edge>, k: nat): (int, int)
    requires 0 < |edges| && k <= |edges|
  {
    if k == 0 then (0, edges[0].at)
    else
      var before, level := PeakAfter(edges, k - 1), Total(edges[..k], Step());
      if level > before.0 then (level, edges[k - 1].at) else before
  }

  lemma {:induction false} AfterNext(edges: seq<Edge>, k: nat, level: int, gap: int)
    requires k < |edges| && level == Total(edges[..k], Step()) && gap == edges[k].at - Previous(edges, k)
    ensures FirstStood(edges, k + 1) == NewLevels(FirstStood(edges, k), level)
    ensures TimesAfter(edges, k + 1) == NewTimes(TimesAfter(edges, k), level, gap)
  {
  }

  lemma {:induction false} TableAfter(found: seq<Session>, edges: seq<Edge>, k: nat)
    requires found != [] && edges == EdgesOf(found) && k <= |edges|
    ensures Swept(found, k, FirstStood(edges, k), TimesAfter(edges, k))
  {
    if k == 0 {
      SweepStart(found);
    } else {
      var level, gap := Total(edges[..k - 1], Step()), edges[k - 1].at - Previous(edges, k - 1);
      TableAfter(found, edges, k - 1);
      AfterNext(edges, k - 1, level, gap);
      SweptOn(found, k - 1, level, gap, FirstStood(edges, k - 1), TimesAfter(edges, k - 1));
    }
  }

  lemma {:induction false} KeyedAfter(edges: seq<Edge>, k: nat)
    requires edges != [] && k <= |edges|
    ensures Keyed(FirstStood(edges, k), TimesAfter(edges, k))
  {
    if k == 0 {
    } else {
      var level, gap := Total(edges[..k - 1], Step()), edges[k - 1].at - Previous(edges, k - 1);
      KeyedAfter(edges, k - 1);
      AfterNext(edges, k - 1, level, gap);
      HoldKeeps(FirstStood(edges, k - 1), TimesAfter(edges, k - 1), level, gap);
    }
  }

  lemma {:induction false} WeightAfter(edges: seq<Edge>, k: nat)
    requires edges != [] && k <= |edges|
    ensures SumWeighted(FirstStood(edges, k), TimesAfter(edges, k)) == Area(edges, k)
  {
    if k == 0 {
    } else {
      var level, gap := Total(edges[..k - 1], Step()), edges[k - 1].at - Previous(edges, k - 1);
      WeightAfter(edges, k - 1);
      KeyedAfter(edges, k - 1);
      AfterNext(edges, k - 1, level, gap);
      AreaOn(edges, k - 1, level, gap, FirstStood(edges, k - 1), TimesAfter(edges, k - 1));
    }
  }

  lemma {:induction false} PeakedAfter(found: seq<Session>, k: nat)
    requires found != [] && k <= 2 * |found|
    ensures Peaked(found, k, PeakAfter(EdgesOf(found), k).0, PeakAfter(EdgesOf(found), k).1)
  {
    if k == 0 {
      assert EdgesOf(found)[..0] == [];
    } else {
      PeakedAfter(found, k - 1);
      var before := PeakAfter(EdgesOf(found), k - 1);
      PeakedStep(found, k - 1, before.0, before.1);
    }
  }

  /** The sweep over the edges: at each, the gap before it is time at the level, then the level and the
      peak move. */
  method Sweep(edges: seq<Edge>) returns (levels: seq<int>, timeAt: map<int, int>, peak: int, peakAt: int)
    requires edges != []
    ensures levels == FirstStood(edges, |edges|) && timeAt == TimesAfter(edges, |edges|)
    ensures (peak, peakAt) == PeakAfter(edges, |edges|)
  {
    var level, previous := 0, edges[0].at;
    levels, timeAt, peak, peakAt := [], map[], 0, edges[0].at;
    for k := 0 to |edges|
      invariant level == Total(edges[..k], Step()) && previous == Previous(edges, k)
      invariant levels == FirstStood(edges, k) && timeAt == TimesAfter(edges, k)
      invariant (peak, peakAt) == PeakAfter(edges, k)
    {
      levels, timeAt := Hold(levels, timeAt, level, edges[k].at - previous);
      TotalStep(edges, k, Step());
      level := level + edges[k].step;
      previous := edges[k].at;
      if level > peak {
        peak, peakAt := level, previous;
      }
    }
  }

  /** Concurrent listeners over the period some sessions cover: the peak is the largest level of any
      instant (and at least 0) and is reached at `peakAt`; the time at each level is the number of
      instants that have it; and the times are conserved. */
  method AudienceOf(found: seq<Session>) returns (report: Report)
    requires found != []
    ensures report.sessions == |found| && report.first == found[0].start
    ensures exists k :: 0 <= k < |found| && found[k].end == report.last
    ensures forall k :: 0 <= k < |found| ==> found[k].end <= report.last
    ensures forall t :: Level(found, t) <= report.peak
    ensures report.peak == 0 || (report.peak > 0 && Level(found, report.peakAt) == report.peak)
    ensures report.peak > 0 ==> LowerBefore(found, report.peak, report.peakAt)
    ensures Keyed(report.levels, report.timeAt)
    ensures forall n :: n in report.levels <==> StoodAt(EdgesOf(found), 2 * |found|, n)
    ensures InOrderMet(EdgesOf(found), 2 * |found|, report.levels)
    ensures TimesUpTo(found, report.timeAt, EdgesOf(found)[2 * |found| - 1].at)
    ensures SumHeld(report.levels, report.timeAt) == EdgesOf(found)[2 * |found| - 1].at - EdgesOf(found)[0].at
    ensures SumWeighted(report.levels, report.timeAt) == Lengths(found)
    ensures IsTypical(report.levels, report.timeAt, report.typical)
  {
    var edges := EdgesOf(found);
    var levels, timeAt, peak, peakAt := Sweep(edges);
    TableAfter(found, edges, |edges|);
    WeightAfter(edges, |edges|);
    PeakedAfter(found, |edges|);
    SweptAll(found, levels, timeAt);
    SweptPeak(found, peak);
    FirstStoodLaws(edges, |edges|);
    var last := LastEnd(found);
    var typical := Typical(levels, timeAt);
    report := Report(|found|, found[0].start, last, peak, peakAt, typical, levels, timeAt);
  }

  lemma {:induction false} InsertHas(edges: seq<Edge>, edge: Edge, e: Edge)
    ensures e in Insert(edges, edge) <==> e in edges || e == edge
  {
    if edges != [] && !AtOrBefore(edges[|edges| - 1], edge) {
      InsertHas(edges[..|edges| - 1], edge, e);
      assert edges == edges[..|edges| - 1] + [edges[|edges| - 1]];
    }
  }

  lemma {:induction false} SortHas(edges: seq<Edge>, e: Edge)
    ensures e in SortEdges(edges) <==> e in edges
  {
    if edges == [] {
    } else {
      SortHas(edges[..|edges| - 1], e);
      InsertHas(SortEdges(edges[..|edges| - 1]), edges[|edges| - 1], e);
      assert edges == edges[..|edges| - 1] + [edges[|edges| - 1]];
    }
  }

  lemma {:induction false} EdgesAt(found: seq<Session>, i: nat)
    requires i < |found|
    ensures StartEdges(found)[i] == Edge(found[i].start, 1) && EndEdges(found)[i] == Edge(found[i].end, -1)
  {
    if i < |found| - 1 {
      EdgesAt(found[..|found| - 1], i);
    }
  }

  /** The edges are the sessions' starts and ends, and nothing else. */
  lemma {:induction false} EdgesAre(found: seq<Session>, e: Edge)
    ensures e in EdgesOf(found)
      <==> exists i :: 0 <= i < |found| && (e == Edge(found[i].start, 1) || e == Edge(found[i].end, -1))
  {
    var starts, ends := StartEdges(found), EndEdges(found);
    SortHas(starts + ends, e);
    forall i | 0 <= i < |found|
      ensures starts[i] == Edge(found[i].start, 1) && ends[i] == Edge(found[i].end, -1)
    {
      EdgesAt(found, i);
    }
    if i :| 0 <= i < |found| && (e == Edge(found[i].start, 1) || e == Edge(found[i].end, -1)) {
      assert starts[i] in starts + ends && ends[i] in starts + ends;
    }
  }

  /** With the sessions oldest first and none ending before it starts, the edges span exactly the
      period the report states, so the times of all levels sum to it. */
  lemma {:induction false} EdgesSpanPeriod(found: seq<Session>, last: int)
    requires found != [] && Forwards(found)
    requires forall i, j :: 0 <= i < j < |found| ==> found[i].start <= found[j].start
    requires exists k :: 0 <= k < |found| && found[k].end == last
    requires forall k :: 0 <= k < |found| ==> found[k].end <= last
    ensures EdgesOf(found)[0].at == found[0].start
    ensures EdgesOf(found)[2 * |found| - 1].at == last
  {
    var edges := EdgesOf(found);
    SortSorts(StartEdges(found) + EndEdges(found));
    var k :| 0 <= k < |found| && found[k].end == last;
    EdgesAre(found, Edge(found[0].start, 1));
    EdgesAre(found, Edge(found[k].end, -1));
    EdgesAre(found, edges[0]);
    EdgesAre(found, edges[|edges| - 1]);
  }
}
