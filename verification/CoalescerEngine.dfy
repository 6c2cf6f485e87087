/** The sampler and the coalescer as objects that update their own fields, proved
    against the functions of Sampling and Coalescer. */
module CoalescerEngine {
  import opened Wrappers
  import opened Sampling
  import opened SamplingRestore
  import opened Coalescer
  import opened CoalescerTheorems

  /** Shift larger scores up and put `x` after its equals. */
  method Insert(s: seq<Scored>, x: Scored) returns (r: seq<Scored>)
    ensures r == InsertStable(s, x)
  {
    var j := |s|;
    assert s[..|s|] == s && s[|s|..] == [];
    while j > 0 && s[j - 1].score > x.score
      invariant 0 <= j <= |s|
      invariant InsertStable(s, x) == InsertStable(s[..j], x) + s[j..]
    {
      assert s[..j][..j - 1] == s[..j - 1];
      assert s[j - 1..] == [s[j - 1]] + s[j..];
      assert InsertStable(s[..j - 1], x) + [s[j - 1]] + s[j..] == InsertStable(s[..j - 1], x) + s[j - 1..];
      j := j - 1;
    }
    r := s[..j] + [x] + s[j..];
  }

  /** A stable sort by score, as the list's own sort does it. */
  method SortByScore(s: seq<Scored>) returns (r: seq<Scored>)
    ensures r == StableSorted(s)
  {
    r := [];
    for i := 0 to |s|
      invariant r == StableSorted(s[..i])
    {
      assert s[..i + 1][..i] == s[..i];
      r := Insert(r, s[i]);
    }
    assert s[..|s|] == s;
  }

  class BoundedRepresentativeSampler {
    const capacity: nat
    const score: nat -> nat
    var count: nat
    var first: Option<Sample>
    var latest: Option<Sample>
    var highest: Option<Sample>
    var uniform: seq<Scored>

    constructor (capacity: nat, score: nat -> nat)
      ensures this.capacity == capacity && this.score == score && View() == Fresh
    {
      this.capacity, this.score := capacity, score;
      count, first, latest, highest, uniform := 0, None, None, None, [];
    }

    function View(): Reservoir
      reads this
    {
      Reservoir(count, first, latest, highest, uniform)
    }

    method Update(o: Observation)
      modifies this
      ensures View() == Updated(capacity, score, old(View()), o)
    {
      hide StableSorted, LevelRank;
      var ordinal := count;
      count := count + 1;
      if first.None? { first := Some(Sample(First, ordinal, o)); }
      latest := Some(Sample(Latest, ordinal, o));
      if highest.None? || LevelRank(o.severity) > LevelRank(highest.value.observation.severity) {
        highest := Some(Sample(Highest, ordinal, o));
      }
      if capacity == 0 { return; }
      var sorted := SortByScore(uniform + [Scored(score(ordinal), Sample(Uniform, ordinal, o))]);
      uniform := if |sorted| > capacity then sorted[..capacity] else sorted;
    }

    /** The exemplars that a flush writes. */
    method Exemplars() returns (all: seq<Sample>)
      ensures all == Samples(View())
    {
      all := OptionToSeq(first) + OptionToSeq(latest) + OptionToSeq(highest);
      ghost var fixed := all;
      for i := 0 to |uniform|
        invariant all == fixed + SamplesOf(uniform[..i])
      {
        assert uniform[..i + 1][..i] == uniform[..i];
        all := all + [uniform[i].sample];
      }
      assert uniform[..|uniform|] == uniform;
    }

    /** Rebuild from committed exemplars; each fixed kind takes its first row. */
    method Restore(total: int, samples: seq<Sample>)
      modifies this
      ensures View() == Restored(capacity, score, if total > 0 then total else 0, samples)
    {
      count := if total > 0 then total else 0;
      first, latest, highest := None, None, None;
      var scored: seq<Scored> := [];
      for i := 0 to |samples|
        invariant first == FirstOfKind(samples[..i], First)
        invariant latest == FirstOfKind(samples[..i], Latest)
        invariant highest == FirstOfKind(samples[..i], Highest)
        invariant scored == UniformOf(score, samples[..i])
        invariant count == if total > 0 then total else 0
      {
        var s := samples[i];
        assert samples[..i + 1] == samples[..i] + [s];
        FirstOfKindGrows(samples[..i], s, First);
        FirstOfKindGrows(samples[..i], s, Latest);
        FirstOfKindGrows(samples[..i], s, Highest);
        assert samples[..i + 1][..i] == samples[..i];
        if s.kind == First && first.None? { first := Some(s); }
        if s.kind == Latest && latest.None? { latest := Some(s); }
        if s.kind == Highest && highest.None? { highest := Some(s); }
        if s.kind == Uniform { scored := scored + [Scored(score(s.ordinal), s)]; }
      }
      assert samples[..|samples|] == samples;
      if |scored| > capacity { scored := scored[..capacity]; }
      uniform := SortByScore(scored);
    }
  }

  lemma {:induction false} FirstOfKindGrows(samples: seq<Sample>, s: Sample, kind: Kind)
    ensures FirstOfKind(samples + [s], kind)
            == if FirstOfKind(samples, kind).Some? then FirstOfKind(samples, kind) else if s.kind == kind
                then Some(s) else None
  {
    if samples == [] {
      assert [] + [s] == [s];
      assert [s][1..] == [];
    } else {
      assert (samples + [s])[1..] == samples[1..] + [s];
      FirstOfKindGrows(samples[1..], s, kind);
    }
  }

  ghost predicate FlushedUpTo(s: State, i: nat) {
    forall j | 0 <= j < i && j < |s.order| :: s.order[j] in s.open && s.open[s.order[j]].pending == 0
  }

  lemma StillFlushed(s: State, i: nat)
    requires OrderListsOpen(s) && i < |s.order| && FlushedUpTo(s, i)
    ensures FlushedUpTo(Committed(s, s.order[i]), i + 1)
    ensures s.open[s.order[i]].pending == 0 ==> FlushedUpTo(s, i + 1)
  {
    hide UpsertRow, TableOf, Samples;
    var t := Committed(s, s.order[i]);
    assert t.order == s.order && t.open.Keys == s.open.Keys;
  }

  lemma FlushEnds(s: State, budget: nat)
    requires OrderListsOpen(s) && FlushedUpTo(s, |s.order|)
    ensures FlushedFrom(s, |s.order|, budget) == s && AllFlushed(s)
  {
    hide Lists;
    forall k | k in s.open ensures s.open[k].pending == 0 {
      OrderHasOpen(s, k);
    }
  }

  /** The coalescer over its two tables. A transaction either commits or leaves both
      tables as they were; whether it does is an argument. */
  class EventRunCoalescer {
    const cfg: Config
    var rows: map<Key, RunRow>
    var samples: map<Key, SampleTable>
    var open: map<Key, OpenRun>
    var order: seq<Key>
    var closed: bool

    /** A process starts over whatever the tables hold. */
    constructor (cfg: Config, rows: map<Key, RunRow>, samples: map<Key, SampleTable>)
      requires cfg.Valid()
      ensures Valid() && this.cfg == cfg
      ensures View() == State(rows, samples, map[], [], false)
    {
      this.cfg, this.rows, this.samples := cfg, rows, samples;
      open, order, closed := map[], [], false;
    }

    function View(): State
      reads this
    {
      State(rows, samples, open, order, closed)
    }

    ghost predicate Valid()
      reads this
    {
      cfg.Valid() && Bounded(cfg, View())
    }

    /** One flush transaction; `flushed` is the run as it is afterwards. */
    method FlushOne(k: Key, run: OpenRun, commits: bool) returns (flushed: OpenRun, raised: bool)
      modifies this`rows, this`samples
      ensures raised <==> run.pending > 0 && !commits
      ensures View() == if run.pending == 0 || raised then old(View()) else Flushed(old(View()), k, run)
      ensures flushed == if raised then run else run.(pending := 0)
    {
      if run.pending == 0 { return run, false; }
      if !commits { return run, true; }
      var row := UpsertRow(RowOf(View(), k), run);
      var table := TableOf(Samples(run.sampler));
      rows, samples := rows[k := row], samples[k := table];
      return run.(pending := 0), false;
    }

    /** Drop the least recently used run, then flush it. */
    method EvictOldest(commits: bool) returns (raised: bool)
      requires Valid() && order != []
      modifies this`rows, this`samples, this`open, this`order
      ensures View() == Evicted(old(View()), commits)
      ensures raised <==> old(open)[old(order)[0]].pending > 0 && !commits
    {
      var k := order[0];
      var run := open[k];
      open, order := open - {k}, order[1..];
      var _, failed := FlushOne(k, run, commits);
      raised := failed;
    }

    method Add(item: Item, commits: bool) returns (raised: bool)
      requires Valid()
      modifies this
      ensures Valid() && View() == Added(cfg, old(View()), item, commits)
      ensures raised <==> !Accepted(cfg, old(View()), KeyOf(cfg, item), commits)
    {
      AddedBounded(cfg, View(), item, commits);
      if closed { return true; }
      var k, o := KeyOf(cfg, item), ObservationOf(item);
      var run: OpenRun;
      if k in open {
        run := open[k];
        order := Without(order, k) + [k];
      } else {
        if |order| >= cfg.maxOpen {
          var failed := EvictOldest(commits);
          if failed { return true; }
        }
        run := Loaded(cfg.capacity, cfg.score(k), RowOf(View(), k), TableFor(View(), k), o);
        order := order + [k];
      }
      open := open[k := Counted(cfg.capacity, cfg.score(k), run, o)];
      raised := false;
    }

    /** Flush the run at position `i`, if it has something pending. */
    method FlushAt(i: nat, commits: bool) returns (counted: bool, raised: bool)
      requires Valid() && i < |order|
      modifies this`rows, this`samples, this`open
      ensures counted <==> old(View()).open[order[i]].pending > 0 && !raised
      ensures raised <==> old(View()).open[order[i]].pending > 0 && !commits
      ensures View() == if counted then Committed(old(View()), order[i]) else old(View())
    {
      CommittedOrder(View(), order[i]);
      var k := order[i];
      assert k in open;
      hide Flushed, Lists;
      var run := open[k];
      if run.pending == 0 { return false, false; }
      var after, failed := FlushOne(k, run, commits);
      if failed { return false, true; }
      open := open[k := after];
      return true, false;
    }

    /** Flush every open run, oldest first, until a transaction fails. */
    method Flush(budget: nat) returns (flushed: nat, raised: bool)
      requires Valid()
      modifies this`rows, this`samples, this`open
      ensures Valid() && View() == FlushedFrom(old(View()), 0, budget)
      ensures raised <==> !AllFlushed(View())
      ensures flushed <= budget
    {
      hide FlushedFrom, Committed, Lists;
      ghost var start := View();
      FlushedOrder(start, 0, budget);
      flushed, raised := 0, false;
      for i := 0 to |order|
        invariant order == start.order && closed == start.closed && Valid()
        invariant flushed <= budget
        invariant FlushedFrom(start, 0, budget) == FlushedFrom(View(), i, budget - flushed)
        invariant FlushedUpTo(View(), i)
      {
        FlushTurn(View(), i, budget - flushed);
        StillFlushed(View(), i);
        var counted, failed := FlushAt(i, flushed < budget);
        if failed { return flushed, true; }
        if counted { flushed := flushed + 1; }
      }
      FlushEnds(View(), budget - flushed);
    }

    method Close(budget: nat) returns (raised: bool)
      requires Valid()
      modifies this
      ensures Valid() && View() == Closed(old(View()), budget)
      ensures raised <==> !closed
    {
      if closed { return false; }
      var _, failed := Flush(budget);
      if failed { return true; }
      open, order, closed := map[], [], true;
      raised := false;
    }
  }
}
