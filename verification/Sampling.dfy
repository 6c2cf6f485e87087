/** Bounded representative samples of a stream of observations: the first, the
    latest, the highest, and the `capacity` ordinals whose deterministic scores are
    smallest. The score of an ordinal is an uninterpreted function of the ordinal. */
module Sampling {
  import opened Wrappers

  datatype Level = Debug | Info | Notice | Warning | Error | Critical

  function LevelRank(l: Level): nat {
    match l
    case Debug => 0
    case Info => 1
    case Notice => 2
    case Warning => 3
    case Error => 4
    case Critical => 5
  }

  /** The order of the levels. */
  lemma LevelsRise()
    ensures LevelRank(Debug) < LevelRank(Info) < LevelRank(Notice)
    ensures LevelRank(Notice) < LevelRank(Warning) < LevelRank(Error) < LevelRank(Critical)
  {
  }

  datatype Observation = Observation(value: string, at: int, severity: Level)

  datatype Kind = First | Highest | Latest | Uniform

  datatype Sample = Sample(kind: Kind, ordinal: nat, observation: Observation)

  /** A scored exemplar. */
  datatype Scored = Scored(score: nat, sample: Sample)

  datatype Reservoir = Reservoir(
    count: nat, first: Option<Sample>, latest: Option<Sample>, highest: Option<Sample>, uniform: seq<Scored>)

  const Fresh: Reservoir := Reservoir(0, None, None, None, [])

  // ------------------------------------------------------------- stable sorting

  /** Insert after every element whose score is not larger. */
  function InsertStable(s: seq<Scored>, x: Scored): (r: seq<Scored>)
    ensures |r| == |s| + 1
  {
    if s == [] then [x]
    else if s[|s| - 1].score <= x.score then s + [x]
    else InsertStable(s[..|s| - 1], x) + [s[|s| - 1]]
  }

  /** What the stable in-place sort by score leaves. */
  function StableSorted(s: seq<Scored>): (r: seq<Scored>)
    ensures |r| == |s|
  {
    if s == [] then [] else InsertStable(StableSorted(s[..|s| - 1]), s[|s| - 1])
  }

  function Truncated(s: seq<Scored>, capacity: nat): seq<Scored> {
    if |s| <= capacity then s else s[..capacity]
  }

  // ---------------------------------------------------------------- the sampler

  function Updated(capacity: nat, score: nat -> nat, r: Reservoir, o: Observation): Reservoir {
    var ordinal := r.count;
    Reservoir(
      r.count + 1,
      if r.first.None? then Some(Sample(First, ordinal, o)) else r.first,
      Some(Sample(Latest, ordinal, o)),
      if r.highest.None? || LevelRank(o.severity) > LevelRank(r.highest.value.observation.severity)
      then Some(Sample(Highest, ordinal, o)) else r.highest,
      if capacity == 0 then r.uniform
      else Truncated(StableSorted(r.uniform + [Scored(score(ordinal), Sample(Uniform, ordinal, o))]), capacity))
  }

  function FirstOfKind(samples: seq<Sample>, kind: Kind): (r: Option<Sample>) {
    if samples == [] then None
    else if samples[0].kind == kind then Some(samples[0])
    else FirstOfKind(samples[1..], kind)
  }

  function UniformOf(score: nat -> nat, samples: seq<Sample>): seq<Scored> {
    if samples == [] then [] else
      var n := |samples| - 1;
      UniformOf(score, samples[..n])
      + (if samples[n].kind == Uniform then [Scored(score(samples[n].ordinal), samples[n])] else [])
  }

  /** Rebuild a sampler from its committed rows. */
  function Restored(capacity: nat, score: nat -> nat, total: nat, samples: seq<Sample>): Reservoir {
    Reservoir(total, FirstOfKind(samples, First), FirstOfKind(samples, Latest), FirstOfKind(samples, Highest),
              StableSorted(Truncated(UniformOf(score, samples), capacity)))
  }

  function OptionToSeq(s: Option<Sample>): seq<Sample> {
    if s.Some? then [s.value] else []
  }

  function SamplesOf(s: seq<Scored>): (r: seq<Sample>)
    ensures |r| == |s| && forall i | 0 <= i < |s| :: r[i] == s[i].sample
  {
    if s == [] then [] else SamplesOf(s[..|s| - 1]) + [s[|s| - 1].sample]
  }

  function Samples(r: Reservoir): seq<Sample> {
    OptionToSeq(r.first) + OptionToSeq(r.latest) + OptionToSeq(r.highest) + SamplesOf(r.uniform)
  }

  /** The sampler after a whole stream. */
  function Fed(capacity: nat, score: nat -> nat, history: seq<Observation>): Reservoir {
    if history == [] then Fresh
    else Updated(capacity, score, Fed(capacity, score, history[..|history| - 1]), history[|history| - 1])
  }

  // ------------------------------------------------------ what a sampler means

  /** The order of exemplars: by score, and by ordinal among equal scores. */
  predicate Before(score: nat -> nat, a: nat, b: nat) {
    score(a) < score(b) || (score(a) == score(b) && a < b)
  }

  ghost predicate InOrder(score: nat -> nat, r: seq<nat>) {
    forall i, j | 0 <= i < j < |r| :: Before(score, r[i], r[j])
  }

  /** Every ordinal below n that is not in `r` comes after all of `r`. */
  ghost predicate RestIsLater(score: nat -> nat, n: nat, r: seq<nat>) {
    forall o: nat | o < n && !Has(r, o) :: IsLater(score, r, o)
  }

  ghost predicate IsLater(score: nat -> nat, r: seq<nat>, o: nat) {
    forall i | 0 <= i < |r| :: Before(score, r[i], o)
  }

  /** `r` lists, in order, the k smallest of the ordinals 0..n-1; all, if not more than k. */
  ghost predicate IsBottomK(score: nat -> nat, n: nat, k: nat, r: seq<nat>) {
    && |r| == (if n < k then n else k)
    && Below(n, r)
    && InOrder(score, r)
    && RestIsLater(score, n, r)
    && (n <= k ==> HasAll(n, r))
  }

  ghost predicate Below(n: nat, r: seq<nat>) {
    forall i | 0 <= i < |r| :: r[i] < n
  }

  ghost predicate HasAll(n: nat, r: seq<nat>) {
    forall o: nat | o < n :: Has(r, o)
  }

  predicate Has(r: seq<nat>, o: nat) {
    o in r
  }

  ghost predicate IsFirstHighest(history: seq<Observation>, h: nat) {
    && h < |history|
    && (forall i | 0 <= i < |history| :: LevelRank(history[i].severity) <= LevelRank(history[h].severity))
    && (forall i | 0 <= i < h :: LevelRank(history[i].severity) < LevelRank(history[h].severity))
  }

  function Ordinals(s: seq<Scored>): (r: seq<nat>)
    ensures |r| == |s| && forall i | 0 <= i < |s| :: r[i] == s[i].sample.ordinal
  {
    if s == [] then [] else Ordinals(s[..|s| - 1]) + [s[|s| - 1].sample.ordinal]
  }

  /** Every exemplar is the observation of its ordinal, with its own score. */
  ghost predicate Faithful(score: nat -> nat, history: seq<Observation>, s: seq<Scored>) {
    forall i | 0 <= i < |s| ::
      && s[i].sample.ordinal < |history|
      && s[i] == Scored(score(s[i].sample.ordinal), Sample(Uniform, s[i].sample.ordinal, history[s[i].sample.ordinal]))
  }

  ghost predicate Represents(capacity: nat, score: nat -> nat, r: Reservoir, history: seq<Observation>) {
    var n := |history|;
    && r.count == n
    && Faithful(score, history, r.uniform)
    && IsBottomK(score, n, capacity, Ordinals(r.uniform))
    && (n == 0 ==> r.first.None? && r.latest.None? && r.highest.None?)
    && (n > 0 ==>
          && r.first == Some(Sample(First, 0, history[0]))
          && r.latest == Some(Sample(Latest, n - 1, history[n - 1]))
          && r.highest.Some? && IsFirstHighest(history, r.highest.value.ordinal)
          && r.highest.value == Sample(Highest, r.highest.value.ordinal, history[r.highest.value.ordinal]))
  }

  // --------------------------------------------------------------------- proofs

  lemma {:induction false} BottomKUnique(score: nat -> nat, n: nat, k: nat, r: seq<nat>, s: seq<nat>, i: nat)
    requires IsBottomK(score, n, k, r) && IsBottomK(score, n, k, s) && i <= |r|
    ensures |r| == |s| && r[..i] == s[..i]
  {
    if i > 0 {
      BottomKUnique(score, n, k, r, s, i - 1);
      var a, b := r[i - 1], s[i - 1];
      assert r[..i] == r[..i - 1] + [a] && s[..i] == s[..i - 1] + [b];
      if a != b {
        NotEarlier(score, n, k, r, s, i - 1);
        NotEarlier(score, n, k, s, r, i - 1);
      }
    }
  }

  lemma NotEarlier(score: nat -> nat, n: nat, k: nat, r: seq<nat>, s: seq<nat>, i: nat)
    requires IsBottomK(score, n, k, r) && IsBottomK(score, n, k, s)
    requires i < |r| && r[..i] == s[..i] && r[i] != s[i]
    ensures !Before(score, r[i], s[i])
  {
    forall j | 0 <= j < i ensures r[j] == s[j] {
      assert r[j] == r[..i][j] && s[j] == s[..i][j];
    }
    if r[i] in s {
      var j :| 0 <= j < |s| && s[j] == r[i];
    } else {
      assert IsLater(score, s, r[i]);
    }
  }

  /** The pairs of a list are in the order of exemplars. */
  ghost predicate Sorted(s: seq<Scored>) {
    forall i, j | 0 <= i < j < |s| ::
      s[i].score < s[j].score || (s[i].score == s[j].score && s[i].sample.ordinal < s[j].sample.ordinal)
  }

  /** Inserting an element with the largest ordinal keeps the order and adds just it. */
  lemma {:induction false} InsertKeepsOrder(s: seq<Scored>, x: Scored)
    requires Sorted(s) && forall i | 0 <= i < |s| :: s[i].sample.ordinal < x.sample.ordinal
    ensures Sorted(InsertStable(s, x))
    ensures Adds(s, x, InsertStable(s, x))
  {
    if s != [] && s[|s| - 1].score > x.score {
      var front, last := s[..|s| - 1], s[|s| - 1];
      InsertKeepsOrder(front, x);
      assert s == front + [last];
      var r := InsertStable(front, x);
      assert InsertStable(s, x) == r + [last];
      forall i | 0 <= i < |r|
        ensures r[i].score < last.score || (r[i].score == last.score && r[i].sample.ordinal < last.sample.ordinal)
      {
        assert r[i] in r;
      }
    }
  }

  /** Sorting a list whose ordinals increase orders it and keeps its elements. */
  lemma {:induction false} SortOrders(s: seq<Scored>)
    requires forall i, j | 0 <= i < j < |s| :: s[i].sample.ordinal < s[j].sample.ordinal
    ensures Sorted(StableSorted(s))
    ensures forall y :: y in StableSorted(s) <==> y in s
  {
    if s != [] {
      var front := s[..|s| - 1];
      SortOrders(front);
      var r := StableSorted(front);
      forall i | 0 <= i < |r| ensures r[i].sample.ordinal < s[|s| - 1].sample.ordinal {
        assert r[i] in r;
      }
      InsertKeepsOrder(r, s[|s| - 1]);
      assert s == front + [s[|s| - 1]];
    }
  }

  /** A list already in order is left as it is. */
  lemma {:induction false} SortIdle(s: seq<Scored>)
    requires Sorted(s)
    ensures StableSorted(s) == s
  {
    if s != [] {
      SortIdle(s[..|s| - 1]);
      assert s == s[..|s| - 1] + [s[|s| - 1]];
    }
  }

  lemma AppendThenSort(s: seq<Scored>, x: Scored)
    requires Sorted(s)
    ensures StableSorted(s + [x]) == InsertStable(s, x)
  {
    assert (s + [x])[..|s|] == s;
    SortIdle(s);
  }

  lemma BottomKSorted(score: nat -> nat, history: seq<Observation>, k: nat, s: seq<Scored>)
    requires Faithful(score, history, s) && IsBottomK(score, |history|, k, Ordinals(s))
    ensures Sorted(s)
  {
    var o := Ordinals(s);
    forall i, j | 0 <= i < j < |s|
      ensures s[i].score < s[j].score || (s[i].score == s[j].score && s[i].sample.ordinal < s[j].sample.ordinal)
    {
      assert Before(score, o[i], o[j]);
    }
  }

  /** The streaming step on the exemplars: sort in, cut off. */
  lemma UniformStep(capacity: nat, score: nat -> nat, history: seq<Observation>, s: seq<Scored>, o: Observation)
    requires capacity > 0 && Faithful(score, history, s) && IsBottomK(score, |history|, capacity, Ordinals(s))
    ensures var n := |history|;
            var t := Truncated(StableSorted(s + [Scored(score(n), Sample(Uniform, n, o))]), capacity);
            && Faithful(score, history + [o], t)
            && IsBottomK(score, n + 1, capacity, Ordinals(t))
  {
    hide *;
    var n := |history|;
    var x := Scored(score(n), Sample(Uniform, n, o));
    BottomKSorted(score, history, capacity, s);
    AppendThenSort(s, x);
    FaithfulBelow(score, history, s);
    InsertKeepsOrder(s, x);
    InsertedFaithful(score, history, s, o);
    CutKeeps(score, history + [o], InsertStable(s, x), capacity);
    NewcomerRest(capacity, score, history, s, o);
    BottomKAll(capacity, score, n, Ordinals(s));
    if n + 1 <= capacity {
      NewcomerAll(capacity, score, history, s, x, InsertStable(s, x));
      Uncut(InsertStable(s, x), capacity);
    }
    BottomKIntro(capacity, score, history, s, Ordinals(Truncated(InsertStable(s, x), capacity)));
  }

  lemma BottomKAll(capacity: nat, score: nat -> nat, n: nat, r: seq<nat>)
    requires IsBottomK(score, n, capacity, r)
    ensures |r| == (if n < capacity then n else capacity)
    ensures n <= capacity ==> HasAll(n, r)
  {
  }

  lemma Uncut(r: seq<Scored>, capacity: nat)
    ensures |r| <= capacity ==> Truncated(r, capacity) == r
  {
  }

  lemma FaithfulBelow(score: nat -> nat, history: seq<Observation>, s: seq<Scored>)
    requires Faithful(score, history, s)
    ensures forall i | 0 <= i < |s| :: s[i].sample.ordinal < |history|
  {
  }

  lemma BottomKIntro(capacity: nat, score: nat -> nat, history: seq<Observation>, s: seq<Scored>, p: seq<nat>)
    requires |s| == (if |history| < capacity then |history| else capacity)
    requires |p| == (if |s| + 1 <= capacity then |s| + 1 else capacity)
    requires Below(|history| + 1, p) && InOrder(score, p) && RestIsLater(score, |history| + 1, p)
    requires |history| + 1 <= capacity ==> HasAll(|history| + 1, p)
    ensures IsBottomK(score, |history| + 1, capacity, p)
  {
    hide Below, InOrder, RestIsLater, HasAll;
  }

  lemma NewcomerRest(capacity: nat, score: nat -> nat, history: seq<Observation>, s: seq<Scored>, o: Observation)
    requires capacity > 0 && Faithful(score, history, s) && IsBottomK(score, |history|, capacity, Ordinals(s))
             && Sorted(s)
    ensures var x := Scored(score(|history|), Sample(Uniform, |history|, o));
            RestIsLater(score, |history| + 1, Ordinals(Truncated(InsertStable(s, x), capacity)))
  {
    var x := Scored(score(|history|), Sample(Uniform, |history|, o));
    var p := Ordinals(Truncated(InsertStable(s, x), capacity));
    forall m: nat | m < |history| + 1 && !Has(p, m) ensures IsLater(score, p, m) {
      OutsideIsLater(capacity, score, history, s, o, m);
    }
  }

  lemma NewcomerAll(capacity: nat, score: nat -> nat, history: seq<Observation>, s: seq<Scored>, x: Scored,
      r: seq<Scored>)
    requires HasAll(|history|, Ordinals(s)) && x.sample.ordinal == |history|
    requires Adds(s, x, r)
    ensures HasAll(|history| + 1, Ordinals(r))
  {
    hide Adds, Has;
    forall m: nat | m < |history| + 1 ensures Has(Ordinals(r), m) {
      HasOne(|history|, Ordinals(s), m);
      AllKept(history, s, x, r, m);
    }
  }

  /** `r` holds what `s` holds, and x. */
  ghost predicate Adds(s: seq<Scored>, x: Scored, r: seq<Scored>) {
    forall y :: y in r <==> y in s || y == x
  }

  lemma HasOne(n: nat, r: seq<nat>, o: nat)
    requires HasAll(n, r)
    ensures o < n ==> Has(r, o)
  {
  }

  lemma CutKeeps(score: nat -> nat, history: seq<Observation>, r: seq<Scored>, capacity: nat)
    requires Faithful(score, history, r) && Sorted(r)
    ensures var t := Truncated(r, capacity);
            && Faithful(score, history, t)
            && |Ordinals(t)| == (if |r| <= capacity then |r| else capacity)
            && Below(|history|, Ordinals(t))
            && InOrder(score, Ordinals(t))
  {
  }

  lemma AllKept(history: seq<Observation>, s: seq<Scored>, x: Scored, r: seq<Scored>, m: nat)
    requires Adds(s, x, r)
    requires Has(Ordinals(s), m) || m == x.sample.ordinal
    ensures Has(Ordinals(r), m)
  {
    var y := x;
    if Has(Ordinals(s), m) {
      var j :| 0 <= j < |s| && Ordinals(s)[j] == m;
      y := s[j];
    }
    assert y in r;
    var i :| 0 <= i < |r| && r[i] == y;
    assert Ordinals(r)[i] == m;
  }

  lemma InsertedFaithful(score: nat -> nat, history: seq<Observation>, s: seq<Scored>, o: Observation)
    requires Faithful(score, history, s)
    requires Sorted(s)
    ensures Faithful(score, history + [o], InsertStable(s, Scored(score(|history|), Sample(Uniform, |history|, o))))
  {
    var x := Scored(score(|history|), Sample(Uniform, |history|, o));
    InsertKeepsOrder(s, x);
    var r := InsertStable(s, x);
    forall i | 0 <= i < |r|
      ensures r[i].sample.ordinal < |history| + 1
      ensures r[i] == Scored(score(r[i].sample.ordinal),
              Sample(Uniform, r[i].sample.ordinal, (history + [o])[r[i].sample.ordinal]))
    {
      assert r[i] in r;
      if r[i] in s {
        var j :| 0 <= j < |s| && s[j] == r[i];
      }
    }
  }

  /** An ordinal that is not kept comes after every one that is. */
  lemma OutsideIsLater(capacity: nat, score: nat -> nat, history: seq<Observation>, s: seq<Scored>, o: Observation,
      m: nat)
    requires capacity > 0 && Faithful(score, history, s) && IsBottomK(score, |history|, capacity, Ordinals(s))
             && Sorted(s)
    requires var x := Scored(score(|history|), Sample(Uniform, |history|, o));
             m <= |history| && !Has(Ordinals(Truncated(InsertStable(s, x), capacity)), m)
    ensures var x := Scored(score(|history|), Sample(Uniform, |history|, o));
            IsLater(score, Ordinals(Truncated(InsertStable(s, x), capacity)), m)
  {
    var n := |history|;
    var x := Scored(score(n), Sample(Uniform, n, o));
    InsertKeepsOrder(s, x);
    InsertedFaithful(score, history, s, o);
    var r := InsertStable(s, x);
    var t := Truncated(r, capacity);
    hide InsertStable;
    if m == n || Has(Ordinals(s), m) {
      AllKept(history, s, x, r, m);
      CutIsLater(score, history + [o], r, capacity, m);
    } else {
      assert |s| == capacity;
      UnkeptIsLater(score, history + [o], s, x, r, m);
    }
  }

  /** What is cut off an ordered list comes after what stays. */
  lemma CutIsLater(score: nat -> nat, history: seq<Observation>, r: seq<Scored>, capacity: nat, m: nat)
    requires Faithful(score, history, r) && Sorted(r)
    requires Has(Ordinals(r), m) && !Has(Ordinals(Truncated(r, capacity)), m)
    ensures IsLater(score, Ordinals(Truncated(r, capacity)), m)
  {
    var t := Truncated(r, capacity);
    assert forall j | 0 <= j < |t| :: Ordinals(t)[j] == Ordinals(r)[j];
    var j :| 0 <= j < |r| && Ordinals(r)[j] == m;
  }

  /** An ordinal later than all of a full list is later than all that is kept of
      the list and a newcomer: if the newcomer stays, it pushed a later one out. */
  lemma UnkeptIsLater(score: nat -> nat, history: seq<Observation>, s: seq<Scored>, x: Scored, r: seq<Scored>, m: nat)
    requires Faithful(score, history, r) && Sorted(r) && |r| == |s| + 1 && |s| > 0
    requires Adds(s, x, r)
    requires IsLater(score, Ordinals(s), m)
    ensures IsLater(score, Ordinals(r[..|s|]), m)
  {
    var p := Ordinals(r[..|s|]);
    forall i | 0 <= i < |p| ensures Before(score, p[i], m) {
      assert r[i] in r && p[i] == r[i].sample.ordinal;
      var z := r[|s|];
      assert z in r;
      var k := if r[i] in s then i else |s|;
      assert r[k] in s;
      var j :| 0 <= j < |s| && s[j] == r[k];
      assert Before(score, Ordinals(s)[j], m);
      assert Ordinals(s)[j] == r[k].sample.ordinal;
    }
  }

  /** One more observation. */
  lemma UpdateRefines(capacity: nat, score: nat -> nat, r: Reservoir, history: seq<Observation>, o: Observation)
    requires Represents(capacity, score, r, history)
    ensures Represents(capacity, score, Updated(capacity, score, r, o), history + [o])
  {
    var u := Updated(capacity, score, r, o);
    if capacity > 0 {
      UniformStep(capacity, score, history, r.uniform, o);
    }
    HighestStep(r, history, o);
  }

  lemma HighestStep(r: Reservoir, history: seq<Observation>, o: Observation)
    requires history != [] ==> r.highest.Some? && IsFirstHighest(history, r.highest.value.ordinal)
                               && r.highest.value.observation == history[r.highest.value.ordinal]
    requires history == [] ==> r.highest.None?
    ensures IsFirstHighest(history + [o],
              if r.highest.None? || LevelRank(o.severity) > LevelRank(r.highest.value.observation.severity)
              then |history| else r.highest.value.ordinal)
  {
  }

  lemma FreshRepresents(capacity: nat, score: nat -> nat)
    ensures Represents(capacity, score, Fresh, [])
  {
  }

  lemma {:induction false} FedRepresents(capacity: nat, score: nat -> nat, history: seq<Observation>)
    ensures Represents(capacity, score, Fed(capacity, score, history), history)
  {
    hide Updated, Represents, Fresh;
    FreshRepresents(capacity, score);
    if history != [] {
      var front := history[..|history| - 1];
      FedRepresents(capacity, score, front);
      UpdateRefines(capacity, score, Fed(capacity, score, front), front, history[|history| - 1]);
      assert history == front + [history[|history| - 1]];
    }
  }

  /** A stream has one representation. */
  lemma RepresentationUnique(capacity: nat, score: nat -> nat, a: Reservoir, b: Reservoir, history: seq<Observation>)
    requires Represents(capacity, score, a, history) && Represents(capacity, score, b, history)
    ensures a == b
  {
    var p, q := Ordinals(a.uniform), Ordinals(b.uniform);
    BottomKUnique(score, |history|, capacity, p, q, |p|);
    assert p == q by {
      assert p[..|p|] == p && q[..|p|] == q;
    }
    forall i | 0 <= i < |a.uniform| ensures a.uniform[i] == b.uniform[i] {
      assert p[i] == q[i];
    }
    if history != [] {
      var g, h := a.highest.value.ordinal, b.highest.value.ordinal;
      assert g == h;
    }
  }

  function Upto(score: nat -> nat, n: nat): (r: seq<Scored>)
    ensures |r| == n
    ensures forall i | 0 <= i < n :: r[i] == Scored(score(i), Sample(Uniform, i, Blank))
  {
    if n == 0 then [] else
      Upto(score, n - 1) + [Scored(score(n - 1), Sample(Uniform, n - 1, Blank))]
  }

  /** Streaming equals batch: the kept ordinals are the first `capacity` of all
      ordinals sorted by score. */
  lemma StreamingIsBatch(capacity: nat, score: nat -> nat, history: seq<Observation>)
    ensures Ordinals(Fed(capacity, score, history).uniform)
            == Ordinals(Truncated(StableSorted(Upto(score, |history|)), capacity))
  {
    var n := |history|;
    BatchIsBottomK(capacity, score, n);
    FedRepresents(capacity, score, history);
    hide IsBottomK, Fed, StableSorted, Represents;
    var q := Ordinals(Fed(capacity, score, history).uniform);
    var p := Ordinals(Truncated(StableSorted(Upto(score, n)), capacity));
    assert IsBottomK(score, n, capacity, q);
    BottomKUnique(score, n, capacity, q, p, |q|);
    assert q[..|q|] == q && p[..|q|] == p;
  }

  const Blank: Observation := Observation("", 0, Debug)

  lemma SortedUpto(score: nat -> nat, n: nat)
    ensures var sorted := StableSorted(Upto(score, n));
            && Faithful(score, seq(n, i => Blank), sorted) && Sorted(sorted) && HasAll(n, Ordinals(sorted))
  {
    var all := Upto(score, n);
    SortOrders(all);
    SameElements(score, all, StableSorted(all), n);
  }

  lemma SameElements(score: nat -> nat, all: seq<Scored>, sorted: seq<Scored>, n: nat)
    requires all == Upto(score, n) && forall y :: y in sorted <==> y in all
    ensures Faithful(score, seq(n, i => Blank), sorted) && HasAll(n, Ordinals(sorted))
  {
    hide Upto;
    forall i | 0 <= i < |sorted|
      ensures sorted[i].sample.ordinal < n
      ensures sorted[i] == Scored(score(sorted[i].sample.ordinal), Sample(Uniform, sorted[i].sample.ordinal, Blank))
    {
      assert sorted[i] in sorted;
    }
    forall o: nat | o < n ensures Has(Ordinals(sorted), o) {
      UptoPlaced(all, sorted, o);
    }
  }

  lemma UptoPlaced(all: seq<Scored>, sorted: seq<Scored>, o: nat)
    requires o < |all| && all[o].sample.ordinal == o && forall y :: y in sorted <==> y in all
    ensures Has(Ordinals(sorted), o)
  {
    assert all[o] in sorted;
    var j :| 0 <= j < |sorted| && sorted[j] == all[o];
    assert Ordinals(sorted)[j] == o;
  }

  lemma BatchIsBottomK(capacity: nat, score: nat -> nat, n: nat)
    ensures IsBottomK(score, n, capacity, Ordinals(Truncated(StableSorted(Upto(score, n)), capacity)))
  {
    var history := seq(n, i => Blank);
    SortedUpto(score, n);
    CutKeeps(score, history, StableSorted(Upto(score, n)), capacity);
    BatchRest(capacity, score, history, StableSorted(Upto(score, n)));
    hide HasAll, RestIsLater, InOrder, Below, Faithful, Sorted, StableSorted, Upto;
  }

  lemma BatchRest(capacity: nat, score: nat -> nat, history: seq<Observation>, sorted: seq<Scored>)
    requires Faithful(score, history, sorted) && Sorted(sorted) && HasAll(|history|, Ordinals(sorted))
    ensures RestIsLater(score, |history|, Ordinals(Truncated(sorted, capacity)))
  {
    var p := Ordinals(Truncated(sorted, capacity));
    forall o: nat | o < |history| && !Has(p, o) ensures IsLater(score, p, o) {
      CutIsLater(score, history, sorted, capacity, o);
    }
  }
}
