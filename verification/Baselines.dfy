/** Robust baselines: the median and the median absolute deviation of a rolling window,
    kept in memory or in a table that also recognises replayed sources. */
module Baselines {
  import opened Wrappers

  // ---------------------------------------------------------------------- median

  function Insert(s: seq<real>, x: real): (r: seq<real>)
    ensures |r| == |s| + 1
  {
    if s == [] then [x]
    else if s[|s| - 1] <= x then s + [x]
    else Insert(s[..|s| - 1], x) + [s[|s| - 1]]
  }

  function Sorted(s: seq<real>): (r: seq<real>)
    ensures |r| == |s|
  {
    if s == [] then [] else Insert(Sorted(s[..|s| - 1]), s[|s| - 1])
  }

  /** The middle of the sorted values, or the mean of the two middle ones. */
  function Median(s: seq<real>): real
    requires s != []
  {
    var r, n := Sorted(s), |s|;
    if n % 2 == 1 then r[n / 2] else (r[n / 2 - 1] + r[n / 2]) / 2.0
  }

  function Distance(a: real, b: real): real {
    if a >= b then a - b else b - a
  }

  function Deviations(s: seq<real>, center: real): (r: seq<real>)
    ensures |r| == |s|
  {
    if s == [] then [] else Deviations(s[..|s| - 1], center) + [Distance(s[|s| - 1], center)]
  }

  datatype Baseline = Learning(count: nat, version: nat) | Ready(count: nat, median: real, mad: real, version: nat)

  function Summary(minimum: nat, samples: seq<real>, version: nat): Baseline {
    if |samples| < minimum || samples == [] then Learning(|samples|, version)
    else
      var median := Median(samples);
      Ready(|samples|, median, Median(Deviations(samples, median)), version)
  }

  function CountAtLeast(s: seq<real>, x: real): nat {
    if s == [] then 0 else CountAtLeast(s[..|s| - 1], x) + if s[|s| - 1] >= x then 1 else 0
  }

  function CountAtMost(s: seq<real>, x: real): nat {
    if s == [] then 0 else CountAtMost(s[..|s| - 1], x) + if s[|s| - 1] <= x then 1 else 0
  }

  ghost predicate InOrder(r: seq<real>) {
    forall i, j | 0 <= i <= j < |r| :: r[i] <= r[j]
  }

  lemma {:induction false} InsertOrders(s: seq<real>, x: real)
    requires InOrder(s)
    ensures InOrder(Insert(s, x))
    ensures forall y :: y in Insert(s, x) <==> y in s || y == x
  {
    if s != [] && s[|s| - 1] > x {
      var front, last := s[..|s| - 1], s[|s| - 1];
      InsertOrders(front, x);
      assert s == front + [last];
      var r := Insert(front, x);
      forall i | 0 <= i < |r| ensures r[i] <= last {
        assert r[i] in r;
      }
    }
  }

  lemma {:induction false} InsertCounts(s: seq<real>, x: real, y: real)
    ensures CountAtLeast(Insert(s, x), y) == CountAtLeast(s, y) + if x >= y then 1 else 0
    ensures CountAtMost(Insert(s, x), y) == CountAtMost(s, y) + if x <= y then 1 else 0
  {
    if s == [] {
      assert [x][..0] == [];
    } else if s[|s| - 1] <= x {
      assert (s + [x])[..|s|] == s;
    } else {
      var front, last := s[..|s| - 1], s[|s| - 1];
      InsertCounts(front, x, y);
      var r := Insert(front, x);
      assert (r + [last])[..|r|] == r;
    }
  }

  lemma {:induction false} SortedCounts(s: seq<real>, y: real)
    ensures InOrder(Sorted(s))
    ensures CountAtLeast(Sorted(s), y) == CountAtLeast(s, y) && CountAtMost(Sorted(s), y) == CountAtMost(s, y)
  {
    if s != [] {
      SortedCounts(s[..|s| - 1], y);
      InsertOrders(Sorted(s[..|s| - 1]), s[|s| - 1]);
      InsertCounts(Sorted(s[..|s| - 1]), s[|s| - 1], y);
    }
  }

  /** In order, everything from position k on is at least r[k], everything up to it at most. */
  lemma {:induction false} CountsFrom(r: seq<real>, k: nat, y: real)
    requires InOrder(r) && k < |r|
    ensures y <= r[k] ==> CountAtLeast(r, y) >= |r| - k
    ensures y >= r[k] ==> CountAtMost(r, y) >= k + 1
  {
    var front := r[..|r| - 1];
    if k < |r| - 1 {
      CountsFrom(front, k, y);
    } else {
      if y >= r[k] { AllAtMost(front, y); }
    }
  }

  lemma {:induction false} AllAtMost(r: seq<real>, y: real)
    requires forall i | 0 <= i < |r| :: r[i] <= y
    ensures CountAtMost(r, y) == |r|
  {
    if r != [] { AllAtMost(r[..|r| - 1], y); }
  }

  /** What a median is: at least half of the values are at most it, and at least half are
      at least it. */
  lemma MedianSplits(s: seq<real>)
    requires s != []
    ensures 2 * CountAtMost(s, Median(s)) >= |s| && 2 * CountAtLeast(s, Median(s)) >= |s|
  {
    var m, r, n := Median(s), Sorted(s), |s|;
    SortedCounts(s, m);
    assert r[(n - 1) / 2] <= r[n / 2];
    CountsFrom(r, n / 2, m);
    CountsFrom(r, (n - 1) / 2, m);
  }

  /** The value that stands at position k when all are put in order: k + 1 of them are at most
      it, and the others, with it, at least it. */
  predicate StandsAt(s: seq<real>, k: nat, x: real) {
    x in s && CountAtMost(s, x) >= k + 1 && CountAtLeast(s, x) + k >= |s|
  }

  lemma {:induction false} CountsCover(s: seq<real>, x: real, y: real)
    requires x < y
    ensures CountAtMost(s, x) + CountAtLeast(s, y) <= |s|
  {
    if s != [] { CountsCover(s[..|s| - 1], x, y); }
  }

  /** There is only one. */
  lemma StandsAlone(s: seq<real>, k: nat, x: real, y: real)
    requires StandsAt(s, k, x) && StandsAt(s, k, y)
    ensures x == y
  {
    if x < y { CountsCover(s, x, y); } else if y < x { CountsCover(s, y, x); }
  }

  lemma {:induction false} SortedHas(s: seq<real>)
    ensures InOrder(Sorted(s)) && forall x :: x in Sorted(s) <==> x in s
  {
    if s != [] {
      var front, last := s[..|s| - 1], s[|s| - 1];
      SortedHas(front);
      InsertOrders(Sorted(front), last);
      assert s == front + [last];
    }
  }

  lemma SortedStands(s: seq<real>, k: nat)
    requires k < |s|
    ensures StandsAt(s, k, Sorted(s)[k])
  {
    var x := Sorted(s)[k];
    SortedHas(s);
    SortedCounts(s, x);
    CountsFrom(Sorted(s), k, x);
    assert x in Sorted(s);
  }

  /** The two values in the middle, which are one when the number is odd. */
  predicate InTheMiddle(s: seq<real>, low: real, high: real) {
    s != [] && StandsAt(s, (|s| - 1) / 2, low) && StandsAt(s, |s| / 2, high)
  }

  ghost predicate IsMiddle(s: seq<real>, m: real) {
    exists low, high :: InTheMiddle(s, low, high) && m == (low + high) / 2.0
  }

  /** The median is their mean and nothing else. */
  lemma MedianIsMiddle(s: seq<real>, m: real)
    requires s != []
    ensures IsMiddle(s, m) <==> m == Median(s)
  {
    var n := |s|;
    var a, b := Sorted(s)[(n - 1) / 2], Sorted(s)[n / 2];
    SortedStands(s, (n - 1) / 2);
    SortedStands(s, n / 2);
    assert Median(s) == (a + b) / 2.0;
    assert InTheMiddle(s, a, b);
    hide Median, Sorted, StandsAt;
    if IsMiddle(s, m) {
      var low, high :| InTheMiddle(s, low, high) && m == (low + high) / 2.0;
      StandsAlone(s, (n - 1) / 2, low, a);
      StandsAlone(s, n / 2, high, b);
    }
  }

  /** What an answer says of a window: below the minimum, only how many samples there are;
      from the minimum on, their median, and the median of their distances from it. */
  ghost predicate Answers(minimum: nat, window: seq<real>, version: nat, b: Baseline) {
    if |window| < minimum then b == Learning(|window|, version)
    else
      && b.Ready? && b.count == |window| && b.version == version && IsMiddle(window, b.median)
      && exists distances: seq<real> ::
           && |distances| == |window| && IsMiddle(distances, b.mad)
           && forall i | 0 <= i < |window| ::
                distances[i] == if window[i] >= b.median then window[i] - b.median else b.median - window[i]
  }

  lemma {:induction false} DeviationsAre(s: seq<real>, center: real)
    ensures forall i | 0 <= i < |s| ::
              Deviations(s, center)[i] == if s[i] >= center then s[i] - center else center - s[i]
  {
    if s != [] { DeviationsAre(s[..|s| - 1], center); }
  }

  lemma SummaryAnswers(minimum: nat, window: seq<real>, version: nat)
    requires minimum > 0
    ensures Answers(minimum, window, version, Summary(minimum, window, version))
  {
    if |window| >= minimum {
      var m := Median(window);
      var distances := Deviations(window, m);
      DeviationsAre(window, m);
      MedianIsMiddle(window, m);
      MedianIsMiddle(distances, Median(distances));
      hide Median, Deviations, IsMiddle;
    }
  }

  /** In how many positions two windows differ. */
  function Replaced(s: seq<real>, t: seq<real>): nat
    requires |s| == |t|
  {
    if s == [] then 0 else Replaced(s[..|s| - 1], t[..|t| - 1]) + if s[|s| - 1] != t[|t| - 1] then 1 else 0
  }

  predicate Kept(s: seq<real>, t: seq<real>, i: nat)
    requires |s| == |t|
  {
    i < |s| && s[i] == t[i]
  }

  /** If more values reach y than were replaced, an unreplaced one does. */
  lemma {:induction false} KeptReaches(s: seq<real>, t: seq<real>, y: real) returns (low: nat, high: nat)
    requires |s| == |t|
    ensures CountAtLeast(t, y) > Replaced(s, t) ==> Kept(s, t, high) && s[high] >= y
    ensures CountAtMost(t, y) > Replaced(s, t) ==> Kept(s, t, low) && s[low] <= y
  {
    low, high := 0, 0;
    if s != [] {
      var n := |s| - 1;
      low, high := KeptReaches(s[..n], t[..n], y);
      if s[n] == t[n] && t[n] >= y { high := n; }
      if s[n] == t[n] && t[n] <= y { low := n; }
    }
  }

  /** Robustness: when fewer than half of the samples are replaced by arbitrary values, the
      median stays between two samples that were not. */
  lemma MedianIsRobust(s: seq<real>, t: seq<real>)
    requires |s| == |t| && s != [] && 2 * Replaced(s, t) < |s|
    ensures exists low: nat, high: nat :: Kept(s, t, low) && Kept(s, t, high) && s[low] <= Median(t) <= s[high]
  {
    MedianSplits(t);
    var low, high := KeptReaches(s, t, Median(t));
    assert Kept(s, t, low) && Kept(s, t, high);
  }

  // ------------------------------------------------------------- the two learners

  /** The last `n` elements. */
  function Latest<T>(s: seq<T>, n: nat): seq<T> {
    if |s| <= n then s else s[|s| - n..]
  }

  lemma LatestStep<T>(s: seq<T>, x: T, n: nat)
    ensures Latest(Latest(s, n) + [x], n) == Latest(s + [x], n)
  {
  }

  /** The in-memory learner. */
  datatype Learner = Learner(samples: seq<real>, excludedIncidents: nat, version: nat)

  /** Its update: a sample of a severe incident is only counted. */
  function Learned(l: Limits, s: Learner, value: real, severeIncident: bool): Learner {
    if severeIncident then s.(excludedIncidents := s.excludedIncidents + 1)
    else if |s.samples| < l.maximum then s.(samples := s.samples + [value])
    else s.(samples := if s.samples == [] then [value] else s.samples[1..] + [value])
  }

  /** A new learner fed the updates, in order. */
  function LearnerAfter(l: Limits, ops: seq<Op>, version: nat): Learner {
    if ops == [] then Learner([], 0, version) else
      var s, op := LearnerAfter(l, ops[..|ops| - 1], version), ops[|ops| - 1];
      if op.Update? then Learned(l, s, op.value, op.incident.Some?) else s
  }

  /** What it answers. */
  function LearnerSummary(l: Limits, s: Learner): Baseline {
    Summary(l.minimum, s.samples, s.version)
  }

  type Source = nat

  type Incident = nat

  /** One call of the store's update, or a reset. Sources and incidents are optional. */
  datatype Op = Update(value: real, incident: Option<Incident>, source: Option<Source>) | Reset

  /** The newest baseline row of one metric and scope. */
  datatype Row = Row(version: nat, samples: seq<real>, sources: seq<Source>, excluded: seq<Incident>, summary: Baseline)

  datatype Limits = Limits(minimum: nat, maximum: nat) {
    predicate Valid() { 2 <= minimum <= maximum }
  }

  const INCIDENTS: nat := 128

  predicate IsReplay(row: Option<Row>, source: Option<Source>) {
    row.Some? && source.Some? && source.value in row.value.sources
  }

  function Fresh(version: nat): Row {
    Row(version, [], [], [], Learning(0, version))
  }

  function Updated(l: Limits, row: Option<Row>, op: Op): Row
    requires op.Update?
  {
    if IsReplay(row, op.source) then row.value
    else
      var r := if row.Some? then row.value else Fresh(1);
      var excluded := if op.incident.None? || op.incident.value in r.excluded then r.excluded
                      else Latest(r.excluded + [op.incident.value], INCIDENTS);
      var samples := if op.incident.Some? then r.samples else Latest(r.samples + [op.value], l.maximum);
      var sources := if op.source.None? then r.sources else Latest(r.sources + [op.source.value], l.maximum);
      Row(r.version, samples, sources, excluded, Summary(l.minimum, samples, r.version))
  }

  function Applied(l: Limits, row: Option<Row>, op: Op): Option<Row> {
    match op
    case Update(_, _, _) => Some(Updated(l, row, op))
    case Reset => Some(Fresh((if row.Some? then row.value.version else 0) + 1))
  }

  function After(l: Limits, ops: seq<Op>): Option<Row> {
    if ops == [] then None else Applied(l, After(l, ops[..|ops| - 1]), ops[|ops| - 1])
  }

  /** The calls since the last reset that were not replays. */
  function Counted(l: Limits, ops: seq<Op>): seq<Op> {
    if ops == [] then [] else
      var front, op := ops[..|ops| - 1], ops[|ops| - 1];
      if op.Reset? then []
      else if IsReplay(After(l, front), op.source) then Counted(l, front)
      else Counted(l, front) + [op]
  }

  /** The values of the calls that are no incidents. */
  function Values(ops: seq<Op>): seq<real> {
    if ops == [] then [] else
      Values(ops[..|ops| - 1]) + if ops[|ops| - 1].Update? && ops[|ops| - 1].incident.None?
          then [ops[|ops| - 1].value] else []
  }

  function Sources(ops: seq<Op>): seq<Source> {
    if ops == [] then [] else
      Sources(ops[..|ops| - 1]) + if ops[|ops| - 1].Update? && ops[|ops| - 1].source.Some?
          then [ops[|ops| - 1].source.value] else []
  }

  function Resets(ops: seq<Op>): nat {
    if ops == [] then 0 else Resets(ops[..|ops| - 1]) + if ops[|ops| - 1].Reset? then 1 else 0
  }

  /** The first version is 1 whether or not the first call is a reset. */
  function Version(ops: seq<Op>): nat {
    if ops == [] then 0
    else if ops[|ops| - 1].Reset? then Version(ops[..|ops| - 1]) + 1
    else if |ops| == 1 then 1 else Version(ops[..|ops| - 1])
  }

  ghost predicate Distinct(s: seq<Incident>) {
    forall i, j | 0 <= i < j < |s| :: s[i] != s[j]
  }

  lemma ValuesGrow(ops: seq<Op>, op: Op)
    ensures Values(ops + [op]) == Values(ops) + if op.Update? && op.incident.None? then [op.value] else []
    ensures Sources(ops + [op]) == Sources(ops) + if op.Update? && op.source.Some? then [op.source.value] else []
  {
    assert (ops + [op])[..|ops|] == ops;
  }

  /** The incidents of the calls. */
  function Incidents(ops: seq<Op>): set<Incident> {
    if ops == [] then {} else
      Incidents(ops[..|ops| - 1])
      + if ops[|ops| - 1].Update? && ops[|ops| - 1].incident.Some? then {ops[|ops| - 1].incident.value} else {}
  }

  function Elements(s: seq<Incident>): set<Incident> {
    set x | x in s
  }

  /** The incidents kept are distinct ones of the calls, and all of them while they fit. */
  ghost predicate ExcludedOk(excluded: seq<Incident>, ops: seq<Op>) {
    && Distinct(excluded) && |excluded| <= INCIDENTS
    && Elements(excluded) <= Incidents(ops)
    && (|Incidents(ops)| <= INCIDENTS ==> Elements(excluded) == Incidents(ops))
  }

  /** The row holds the window and the answer of the in-memory learner fed the counted
      calls, and the latest of their sources. */
  ghost predicate Describes(l: Limits, row: Row, counted: seq<Op>) {
    && row.samples == LearnerAfter(l, counted, row.version).samples
    && row.summary == LearnerSummary(l, LearnerAfter(l, counted, row.version))
    && row.sources == Latest(Sources(counted), l.maximum)
    && ExcludedOk(row.excluded, counted)
  }

  lemma EmptyDescribes(l: Limits, version: nat)
    requires l.Valid()
    ensures Describes(l, Fresh(version), [])
  {
  }

  lemma {:induction false} DistinctSize(s: seq<Incident>)
    requires Distinct(s)
    ensures |Elements(s)| == |s|
  {
    if s != [] {
      var front, last := s[..|s| - 1], s[|s| - 1];
      DistinctSize(front);
      assert s == front + [last];
      assert Elements(s) == Elements(front) + {last};
    }
  }

  /** A new incident is appended; the oldest gives way only when they no longer fit. */
  lemma ExcludedStep(excluded: seq<Incident>, counted: seq<Op>, op: Op)
    requires ExcludedOk(excluded, counted) && op.Update?
    ensures ExcludedOk(if op.incident.None? || op.incident.value in excluded then excluded
                       else Latest(excluded + [op.incident.value], INCIDENTS), counted + [op])
  {
    IncidentsGrow(counted, op);
    hide Incidents;
    if op.incident.Some? {
      var x := op.incident.value;
      SubsetSize(Incidents(counted), Incidents(counted) + {x});
      if x !in excluded {
        AppendIncident(excluded, x);
        var all := Incidents(counted + [op]);
        if |all| <= INCIDENTS {
          DistinctSize(excluded + [x]);
          assert Elements(excluded + [x]) == all;
        }
      } else if |Incidents(counted + [op])| <= INCIDENTS {
        assert Incidents(counted + [op]) == Incidents(counted);
      }
    }
  }

  lemma AppendIncident(excluded: seq<Incident>, x: Incident)
    requires Distinct(excluded) && |excluded| <= INCIDENTS && x !in excluded
    ensures Distinct(excluded + [x]) && Elements(excluded + [x]) == Elements(excluded) + {x}
    ensures var next := Latest(excluded + [x], INCIDENTS);
            Distinct(next) && |next| <= INCIDENTS && Elements(next) <= Elements(excluded) + {x}
  {
  }

  lemma IncidentsGrow(ops: seq<Op>, op: Op)
    ensures Incidents(ops + [op])
            == Incidents(ops) + if op.Update? && op.incident.Some? then {op.incident.value} else {}
  {
    assert (ops + [op])[..|ops|] == ops;
  }

  lemma {:induction false} WindowFits(l: Limits, ops: seq<Op>, version: nat)
    requires l.Valid()
    ensures |LearnerAfter(l, ops, version).samples| <= l.maximum && LearnerAfter(l, ops, version).version == version
  {
    if ops != [] { WindowFits(l, ops[..|ops| - 1], version); }
  }

  /** The learner's window is the latest of the values that are no incidents. */
  lemma {:induction false} LearnerWindow(l: Limits, ops: seq<Op>, version: nat)
    requires l.Valid()
    ensures LearnerAfter(l, ops, version).samples == Latest(Values(ops), l.maximum)
  {
    if ops != [] {
      var front, op := ops[..|ops| - 1], ops[|ops| - 1];
      LearnerWindow(l, front, version);
      WindowFits(l, front, version);
      if op.Update? && op.incident.None? { LatestStep(Values(front), op.value, l.maximum); }
      assert Values(front) + [] == Values(front);
      hide Values;
    }
  }

  /** Cutting the window after the append is what the learner does before it. */
  lemma UpdateWindow(l: Limits, row: Row, counted: seq<Op>, op: Op)
    requires l.Valid() && op.Update? && row.samples == LearnerAfter(l, counted, row.version).samples
    ensures (if op.incident.Some? then row.samples else Latest(row.samples + [op.value], l.maximum))
            == LearnerAfter(l, counted + [op], row.version).samples
  {
    assert (counted + [op])[..|counted|] == counted;
    WindowFits(l, counted, row.version);
  }

  lemma UpdateSources(l: Limits, row: Row, counted: seq<Op>, op: Op)
    requires op.Update? && row.sources == Latest(Sources(counted), l.maximum)
    ensures (if op.source.None? then row.sources else Latest(row.sources + [op.source.value], l.maximum))
            == Latest(Sources(counted + [op]), l.maximum)
  {
    ValuesGrow(counted, op);
    if op.source.Some? { LatestStep(Sources(counted), op.source.value, l.maximum); }
    assert Sources(counted) + [] == Sources(counted);
    hide Latest, Sources;
  }

  lemma UpdateStep(l: Limits, row: Option<Row>, counted: seq<Op>, op: Op)
    requires l.Valid() && op.Update? && !IsReplay(row, op.source)
    requires Describes(l, if row.Some? then row.value else Fresh(1), counted)
    ensures Describes(l, Updated(l, row, op), counted + [op])
  {
    var r := if row.Some? then row.value else Fresh(1);
    WindowFits(l, counted + [op], r.version);
    hide Summary, LearnerAfter, Sources, Latest, ExcludedOk;
    UpdateWindow(l, r, counted, op);
    UpdateSources(l, r, counted, op);
    ExcludedStep(r.excluded, counted, op);
  }

  /** Refinement: along every run of updates, replays, incidents and resets, the stored
      window and the stored result are those of a new in-memory learner fed the counted
      calls since the last reset; the known sources are the latest of those calls, the
      incidents distinct ones of theirs, and all of them as long as they are at most 128. */
  lemma {:induction false} StoreRefinesLearner(l: Limits, ops: seq<Op>)
    requires l.Valid() && ops != []
    ensures After(l, ops).Some? && After(l, ops).value.version == Version(ops)
    ensures Describes(l, After(l, ops).value, Counted(l, ops))
  {
    var front, op := ops[..|ops| - 1], ops[|ops| - 1];
    EmptyDescribes(l, 1);
    if front != [] { StoreRefinesLearner(l, front); }
    match op
    case Reset => EmptyDescribes(l, Version(ops));
    case Update(_, _, _) =>
      if !IsReplay(After(l, front), op.source) { UpdateStep(l, After(l, front), Counted(l, front), op); }
      hide Describes, Summary;
  }

  /** On any run of the store, the stored answer is that of the latest values of the counted
      calls that are no incidents, as many as the window holds. */
  lemma StoredAnswer(l: Limits, ops: seq<Op>)
    requires l.Valid() && ops != []
    ensures After(l, ops).Some?
    ensures var row, window := After(l, ops).value, Latest(Values(Counted(l, ops)), l.maximum);
            row.samples == window && Answers(l.minimum, window, row.version, row.summary)
  {
    StoreRefinesLearner(l, ops);
    var version := After(l, ops).value.version;
    LearnerWindow(l, Counted(l, ops), version);
    WindowFits(l, Counted(l, ops), version);
    SummaryAnswers(l.minimum, Latest(Values(Counted(l, ops)), l.maximum), version);
    hide After, Counted, Values, Answers, Summary, LearnerAfter;
  }

  /** A call with a source changes nothing if and only if that source is still in the window
      of the known ones, that is, among the latest sources of the counted calls. */
  lemma ReplayIsNoOp(l: Limits, ops: seq<Op>, op: Op)
    requires l.Valid() && op.Update? && op.source.Some?
    ensures After(l, ops + [op]) == After(l, ops)
            <==> ops != [] && op.source.value in Latest(Sources(Counted(l, ops)), l.maximum)
  {
    if ops != [] { StoreRefinesLearner(l, ops); }
    AfterGrows(l, ops, op);
    if ops != [] && op.source.value !in After(l, ops).value.sources {
      KnowsSource(l, After(l, ops), op);
    }
    hide Counted, Summary, Sources, LearnerAfter, ExcludedOk, Latest;
  }

  lemma AfterGrows(l: Limits, ops: seq<Op>, op: Op)
    ensures After(l, ops + [op]) == Applied(l, After(l, ops), op)
  {
    assert (ops + [op])[..|ops|] == ops;
    hide Applied;
  }

  lemma KnowsSource(l: Limits, row: Option<Row>, op: Op)
    requires l.Valid() && op.Update? && op.source.Some?
    ensures IsReplay(Some(Updated(l, row, op)), op.source)
  {
    var sources := (if row.Some? then row.value else Fresh(1)).sources;
    var grown := Latest(sources + [op.source.value], l.maximum);
    assert grown[|grown| - 1] == op.source.value;
    hide Summary;
  }

  // -------------------------------------------------------------------- as objects

  class BaselineLearner {
    const limits: Limits
    var version: nat
    var samples: seq<real>
    var excludedIncidents: nat

    constructor (limits: Limits, version: nat)
      requires limits.Valid()
      ensures this.limits == limits && this.version == version && samples == [] && excludedIncidents == 0
    {
      this.limits, this.version, samples, excludedIncidents := limits, version, [], 0;
    }

    function View(): Learner
      reads this
    {
      Learner(samples, excludedIncidents, version)
    }

    /** Append to the window; when it is full, drop the oldest sample first. */
    method Update(value: real, severeIncident: bool)
      requires limits.Valid() && |samples| <= limits.maximum
      modifies this`samples, this`excludedIncidents
      ensures View() == Learned(limits, old(View()), value, severeIncident)
      ensures samples == if severeIncident then old(samples) else Latest(old(samples) + [value], limits.maximum)
      ensures |samples| <= limits.maximum
    {
      if severeIncident {
        excludedIncidents := excludedIncidents + 1;
        return;
      }
      if |samples| < limits.maximum {
        samples := samples + [value];
      } else {
        samples := samples[1..];
        samples := samples + [value];
      }
    }

    function Current(): Baseline
      reads this
    {
      LearnerSummary(limits, View())
    }

    method Restart()
      modifies this`samples, this`version
      ensures samples == [] && version == old(version) + 1
    {
      samples, version := [], version + 1;
    }
  }

  class PersistentBaselineStore {
    const limits: Limits
    var row: Option<Row>

    constructor (limits: Limits)
      requires limits.Valid()
      ensures this.limits == limits && row == None
    {
      this.limits, row := limits, None;
    }

    /** Read the newest row, add to it unless it knows the source, and write it back with
        the result the in-memory learner gives for its window. */
    method Update(value: real, incident: Option<Incident>, source: Option<Source>) returns (result: Baseline)
      requires limits.Valid()
      modifies this
      ensures row == Some(Updated(limits, old(row), Op.Update(value, incident, source)))
      ensures result == row.value.summary
    {
      var version := 1;
      var samples: seq<real> := [];
      var sources: seq<Source> := [];
      var excluded: seq<Incident> := [];
      if row.Some? {
        version, sources := row.value.version, row.value.sources;
        if source.Some? && source.value in sources { return row.value.summary; }
        samples, excluded := row.value.samples, row.value.excluded;
      }
      if incident.Some? {
        if incident.value !in excluded { excluded := Latest(excluded + [incident.value], INCIDENTS); }
      } else {
        samples := Latest(samples + [value], limits.maximum);
      }
      if source.Some? { sources := Latest(sources + [source.value], limits.maximum); }
      var learner := new BaselineLearner(limits, version);
      learner.samples := samples;
      result := learner.Current();
      row := Some(Row(version, samples, sources, excluded, result));
    }

    method Restart() returns (result: Baseline)
      modifies this
      ensures row == Applied(limits, old(row), Reset) && result == row.value.summary
    {
      var version := (if row.Some? then row.value.version else 0) + 1;
      row := Some(Fresh(version));
      result := Learning(0, version);
    }
  }
}
