/** Committed exemplars: the rows a sampler is saved as, the query that reads them
    back, and the proof that nothing is lost on the way. */
module SamplingRestore {
  import opened Wrappers
  import opened Sampling

  /** The unpinned rows of one run, unique by (kind, ordinal). */
  type SampleTable = map<(Kind, nat), Observation>

  function TableOf(samples: seq<Sample>): SampleTable {
    if samples == [] then map[] else
      var s := samples[|samples| - 1];
      TableOf(samples[..|samples| - 1])[(s.kind, s.ordinal) := s.observation]
  }

  function SelectKind(table: SampleTable, kind: Kind, bound: nat): seq<Sample> {
    if bound == 0 then [] else
      SelectKind(table, kind, bound - 1)
      + (if (kind, bound - 1) in table then [Sample(kind, bound - 1, table[(kind, bound - 1)])] else [])
  }

  /** ORDER BY sample_kind, ordinal; every ordinal is below the committed count. */
  function SelectRows(table: SampleTable, bound: nat): seq<Sample> {
    SelectKind(table, First, bound) + SelectKind(table, Highest, bound)
    + SelectKind(table, Latest, bound) + SelectKind(table, Uniform, bound)
  }

  /** The rows of a sampler that represents `history`. */
  ghost predicate Shows(table: SampleTable, r: Reservoir, history: seq<Observation>) {
    && (forall k, o: nat :: (k, o) in table <==>
          match k
          case First => history != [] && o == 0
          case Latest => history != [] && o == |history| - 1
          case Highest => r.highest.Some? && o == r.highest.value.ordinal
          case Uniform => o in Ordinals(r.uniform))
    && (forall k, o: nat | (k, o) in table :: o < |history| && table[(k, o)] == history[o])
  }

  lemma {:induction false} TableOfLookup(samples: seq<Sample>, history: seq<Observation>)
    requires forall i | 0 <= i < |samples| ::
             samples[i].ordinal < |history| && samples[i].observation == history[samples[i].ordinal]
    ensures forall k, o: nat :: (k, o) in TableOf(samples) <==> exists i ::
            0 <= i < |samples| && samples[i].kind == k && samples[i].ordinal == o
    ensures forall k, o: nat | (k, o) in TableOf(samples) :: o < |history| && TableOf(samples)[(k, o)] == history[o]
  {
    if samples != [] {
      var front := samples[..|samples| - 1];
      TableOfLookup(front, history);
      forall k, o: nat
        ensures (k, o) in TableOf(samples) <==> exists i ::
                0 <= i < |samples| && samples[i].kind == k && samples[i].ordinal == o
      {
        if (k, o) in TableOf(front) {
          var i :| 0 <= i < |front| && front[i].kind == k && front[i].ordinal == o;
          assert samples[i].kind == k && samples[i].ordinal == o;
        }
        if i :| 0 <= i < |samples| && samples[i].kind == k && samples[i].ordinal == o {
          if i < |front| { assert front[i].kind == k && front[i].ordinal == o; }
        }
      }
    }
  }

  lemma SavedTableShows(capacity: nat, score: nat -> nat, r: Reservoir, history: seq<Observation>)
    requires Represents(capacity, score, r, history)
    ensures Shows(TableOf(Samples(r)), r, history)
  {
    var a, b, c, d := OptionToSeq(r.first), OptionToSeq(r.latest), OptionToSeq(r.highest), SamplesOf(r.uniform);
    var all := Samples(r);
    assert all == a + b + c + d;
    SamplesFaithful(capacity, score, r, history);
    TableOfLookup(all, history);
    var table := TableOf(all);
    hide TableOf, Samples, Represents;
    forall k, o: nat
      ensures (k, o) in table <==>
          match k
          case First => history != [] && o == 0
          case Latest => history != [] && o == |history| - 1
          case Highest => r.highest.Some? && o == r.highest.value.ordinal
          case Uniform => o in Ordinals(r.uniform)
    {
      SampleAt(r, history, all, k, o);
    }
  }

  lemma SamplesFaithful(capacity: nat, score: nat -> nat, r: Reservoir, history: seq<Observation>)
    requires Represents(capacity, score, r, history)
    ensures var all := Samples(r);
            forall i | 0 <= i < |all| :: all[i].ordinal < |history| && all[i].observation == history[all[i].ordinal]
    ensures r.first == (if history == [] then None else Some(Sample(First, 0, history[0])))
    ensures r.latest == (if history == [] then None else Some(Sample(Latest, |history| - 1, history[|history| - 1])))
    ensures r.highest.Some? <==> history != []
    ensures r.highest.Some? ==> r.highest.value.kind == Highest
    ensures forall i | 0 <= i < |r.uniform| :: r.uniform[i].sample.kind == Uniform
  {
    hide IsBottomK;
    var f: seq<Sample> := OptionToSeq(r.first) + OptionToSeq(r.latest) + OptionToSeq(r.highest);
    var all: seq<Sample> := Samples(r);
    assert all == f + SamplesOf(r.uniform);
    forall i | 0 <= i < |all| ensures all[i].ordinal < |history| && all[i].observation == history[all[i].ordinal] {
      if i >= |f| { assert all[i] == r.uniform[i - |f|].sample; }
    }
  }

  lemma SampleAt(r: Reservoir, history: seq<Observation>, all: seq<Sample>, k: Kind, o: nat)
    requires r.first == (if history == [] then None else Some(Sample(First, 0, history[0])))
    requires r.latest == (if history == [] then None else Some(Sample(Latest, |history| - 1, history[|history| - 1])))
    requires r.highest.Some? <==> history != []
    requires r.highest.Some? ==> r.highest.value.kind == Highest
    requires forall i | 0 <= i < |r.uniform| :: r.uniform[i].sample.kind == Uniform
    requires all == OptionToSeq(r.first) + OptionToSeq(r.latest) + OptionToSeq(r.highest) + SamplesOf(r.uniform)
    ensures (exists i :: 0 <= i < |all| && all[i].kind == k && all[i].ordinal == o) <==>
          match k
          case First => history != [] && o == 0
          case Latest => history != [] && o == |history| - 1
          case Highest => r.highest.Some? && o == r.highest.value.ordinal
          case Uniform => o in Ordinals(r.uniform)
  {
    if history != [] {
      assert all[0] == r.first.value && all[1] == r.latest.value && all[2] == r.highest.value;
    }
    var f := if history == [] then 0 else 3;
    assert |all| == f + |r.uniform|;
    assert forall i | f <= i < |all| :: all[i] == r.uniform[i - f].sample;
    if k == Uniform && o in Ordinals(r.uniform) {
      var j :| 0 <= j < |r.uniform| && Ordinals(r.uniform)[j] == o;
      assert all[f + j].ordinal == o;
    }
    if i :| 0 <= i < |all| && all[i].kind == k && all[i].ordinal == o {
      if i >= f { assert Ordinals(r.uniform)[i - f] == o; }
    }
  }

  // ------------------------------------------------------------- reading back

  lemma {:induction false} SelectKindElements(table: SampleTable, kind: Kind, bound: nat)
    ensures var s := SelectKind(table, kind, bound);
            && (forall i | 0 <= i < |s| :: s[i].kind == kind && s[i].ordinal < bound)
            && (forall i, j | 0 <= i < j < |s| :: s[i].ordinal < s[j].ordinal)
            && (forall x ::
                  x in s <==> x.kind == kind && x.ordinal < bound
                              && (kind, x.ordinal) in table && table[(kind, x.ordinal)] == x.observation)
  {
    if bound > 0 {
      SelectKindElements(table, kind, bound - 1);
    }
  }

  /** The one row of a fixed kind. */
  lemma SelectSingle(table: SampleTable, kind: Kind, bound: nat, o: nat)
    requires o < bound && forall m: nat :: (kind, m) in table <==> m == o
    ensures SelectKind(table, kind, bound) == [Sample(kind, o, table[(kind, o)])]
  {
    SelectKindElements(table, kind, bound);
    var s := SelectKind(table, kind, bound);
    hide SelectKind;
    var x := Sample(kind, o, table[(kind, o)]);
    assert x in s;
    forall i | 0 <= i < |s| ensures s[i] == x {
      assert s[i] in s;
    }
    assert |s| > 1 ==> s[0].ordinal < s[1].ordinal;
  }

  lemma {:induction false} UniformOfUniform(score: nat -> nat, samples: seq<Sample>)
    requires forall i | 0 <= i < |samples| :: samples[i].kind == Uniform
    ensures var u := UniformOf(score, samples);
            |u| == |samples| && forall i | 0 <= i < |u| :: u[i] == Scored(score(samples[i].ordinal), samples[i])
  {
    if samples != [] {
      UniformOfUniform(score, samples[..|samples| - 1]);
    }
  }

  /** Rows of the fixed kinds contribute no exemplars. */
  lemma {:induction false} UniformOfPrefix(score: nat -> nat, fixed: seq<Sample>, samples: seq<Sample>)
    requires forall i | 0 <= i < |fixed| :: fixed[i].kind != Uniform
    ensures UniformOf(score, fixed + samples) == UniformOf(score, samples)
    decreases |fixed| + |samples|
  {
    var all := fixed + samples;
    if samples != [] {
      assert all[..|all| - 1] == fixed + samples[..|samples| - 1];
      UniformOfPrefix(score, fixed, samples[..|samples| - 1]);
    } else if fixed != [] {
      assert all == fixed;
      assert fixed[..|fixed| - 1] + [] == fixed[..|fixed| - 1];
      UniformOfPrefix(score, fixed[..|fixed| - 1], []);
    }
  }

  /** Two ordered lists with the same elements are the same list. */
  lemma {:induction false} SortedUnique(a: seq<Scored>, b: seq<Scored>)
    requires Sorted(a) && Sorted(b) && forall x :: x in a <==> x in b
    ensures a == b
  {
    assert b != [] ==> b[0] in b;
    if a != [] {
      var x := a[|a| - 1];
      assert x in a && x in b;
      var y := b[|b| - 1];
      assert y in b && y in a;
      LastIsLargest(a, y);
      LastIsLargest(b, x);
      SortedFront(a);
      SortedFront(b);
      var f, g := a[..|a| - 1], b[..|b| - 1];
      forall z ensures z in f <==> z in g {
        assert z in f <==> z in a && z != x;
        assert z in g <==> z in b && z != x;
      }
      SortedUnique(f, g);
      assert a == f + [x] && b == g + [x];
    }
  }

  lemma LastIsLargest(a: seq<Scored>, y: Scored)
    requires Sorted(a) && a != []
    ensures y in a ==> y == a[|a| - 1] || y.score < a[|a| - 1].score
                       || (y.score == a[|a| - 1].score && y.sample.ordinal < a[|a| - 1].sample.ordinal)
  {
  }

  lemma SortedFront(a: seq<Scored>)
    requires Sorted(a) && a != []
    ensures Sorted(a[..|a| - 1])
    ensures forall x :: x in a[..|a| - 1] <==> x in a && x != a[|a| - 1]
  {
    var f, l := a[..|a| - 1], a[|a| - 1];
    assert a == f + [l];
    forall j | 0 <= j < |f| ensures f[j] != l {
      assert a[j] == f[j];
    }
  }

  /** The stored exemplars, sorted again, are the exemplars. */
  lemma UniformRestored(capacity: nat, score: nat -> nat, r: Reservoir, history: seq<Observation>, table: SampleTable)
    requires Represents(capacity, score, r, history) && Shows(table, r, history)
    ensures StableSorted(Truncated(UniformOf(score, SelectKind(table, Uniform, |history|)), capacity)) == r.uniform
  {
    var rows := SelectKind(table, Uniform, |history|);
    SelectKindElements(table, Uniform, |history|);
    UniformOfUniform(score, rows);
    var u := UniformOf(score, rows);
    SortOrders(u);
    BottomKSorted(score, history, capacity, r.uniform);
    RowsAreExemplars(score, r, history, table, rows, u);
    SortedUnique(StableSorted(u), r.uniform);
    assert |u| <= capacity;
  }

  lemma RowsAreExemplars(score: nat -> nat, r: Reservoir, history: seq<Observation>, table: SampleTable,
      rows: seq<Sample>, u: seq<Scored>)
    requires Shows(table, r, history) && Faithful(score, history, r.uniform)
    requires forall x ::
               x in rows <==> x.kind == Uniform && x.ordinal < |history|
                              && (Uniform, x.ordinal) in table && table[(Uniform, x.ordinal)] == x.observation
    requires |u| == |rows| && forall i | 0 <= i < |u| :: u[i] == Scored(score(rows[i].ordinal), rows[i])
    ensures forall x :: x in u <==> x in r.uniform
  {
    forall x | x in u ensures x in r.uniform {
      var i :| 0 <= i < |u| && u[i] == x;
      assert rows[i] in rows;
      var o := rows[i].ordinal;
      var j :| 0 <= j < |r.uniform| && Ordinals(r.uniform)[j] == o;
      assert r.uniform[j] == x;
    }
    forall x | x in r.uniform ensures x in u {
      var j :| 0 <= j < |r.uniform| && r.uniform[j] == x;
      assert Ordinals(r.uniform)[j] == x.sample.ordinal;
      assert x.sample in rows;
      var i :| 0 <= i < |rows| && rows[i] == x.sample;
      assert u[i] == x;
    }
  }

  /** Save and restore: reading the committed rows of a sampler back gives the
      sampler, so a restart or an eviction loses no exemplar. */
  lemma SaveRestore(capacity: nat, score: nat -> nat, r: Reservoir, history: seq<Observation>)
    requires Represents(capacity, score, r, history)
    ensures Restored(capacity, score, |history|, SelectRows(TableOf(Samples(r)), |history|)) == r
  {
    var n, table := |history|, TableOf(Samples(r));
    SavedTableShows(capacity, score, r, history);
    UniformRestored(capacity, score, r, history, table);
    FixedRestored(capacity, score, r, history, table);
  }

  lemma FixedRestored(capacity: nat, score: nat -> nat, r: Reservoir, history: seq<Observation>, table: SampleTable)
    requires Represents(capacity, score, r, history) && Shows(table, r, history)
    ensures var rows := SelectRows(table, |history|);
            && FirstOfKind(rows, First) == r.first && FirstOfKind(rows, Latest) == r.latest
                && FirstOfKind(rows, Highest) == r.highest
            && UniformOf(score, rows) == UniformOf(score, SelectKind(table, Uniform, |history|))
  {
    if history == [] {
      hide IsBottomK, Faithful;
    } else {
      FixedRows(capacity, score, r, history, table);
      hide *;
      var u := SelectKind(table, Uniform, |history|);
      SelectKindElements(table, Uniform, |history|);
      UniformOfPrefix(score, [r.first.value, r.highest.value, r.latest.value], u);
      FixedKinds(r.first.value, r.highest.value, r.latest.value, u);
    }
  }

  lemma FixedRows(capacity: nat, score: nat -> nat, r: Reservoir, history: seq<Observation>, table: SampleTable)
    requires Represents(capacity, score, r, history) && Shows(table, r, history) && history != []
    ensures r.first.Some? && r.highest.Some? && r.latest.Some?
    ensures r.first.value.kind == First && r.highest.value.kind == Highest && r.latest.value.kind == Latest
    ensures SelectRows(table, |history|)
            == [r.first.value, r.highest.value, r.latest.value] + SelectKind(table, Uniform, |history|)
  {
    hide IsBottomK, Faithful, SelectKind;
    var n := |history|;
    SelectSingle(table, First, n, 0);
    SelectSingle(table, Latest, n, n - 1);
    SelectSingle(table, Highest, n, r.highest.value.ordinal);
  }

  lemma FixedKinds(x: Sample, y: Sample, z: Sample, u: seq<Sample>)
    requires x.kind == First && y.kind == Highest && z.kind == Latest
    ensures var all := [x, y, z] + u;
            FirstOfKind(all, First) == Some(x) && FirstOfKind(all, Highest) == Some(y)
                && FirstOfKind(all, Latest) == Some(z)
  {
    var all := [x, y, z] + u;
    var one := all[1..];
    assert one == [y, z] + u;
    assert FirstOfKind(one, Highest) == Some(y);
    assert one[1..] == [z] + u;
    assert FirstOfKind(one[1..], Latest) == Some(z);
    assert FirstOfKind(one, Latest) == Some(z);
  }
}
