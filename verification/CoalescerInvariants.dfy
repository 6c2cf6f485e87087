/** What every run of the coalescer keeps, key by key: which observations of a key
    survive, and how the committed row, its exemplars and the open run describe them. */
module CoalescerInvariants {
  import opened Wrappers
  import opened Sampling
  import opened SamplingRestore
  import opened Coalescer

  /** Everything the coalescer holds about one key. */
  datatype Slot = Slot(row: Option<RunRow>, table: SampleTable, run: Option<OpenRun>)

  function SlotOf(s: State, k: Key): Slot {
    Slot(RowOf(s, k), TableFor(s, k), if k in s.open then Some(s.open[k]) else None)
  }

  /** The history of one key: the observations that survive, in order; how many of them
      its first commit covered; and how many accepted ones are gone. */
  datatype Trace = Trace(kept: seq<Observation>, first: nat, lost: nat)

  const NoTrace: Trace := Trace([], 0, 0)

  function MaxLevel(h: seq<Observation>): Level {
    if h == [] then Debug else HigherLevel(MaxLevel(h[..|h| - 1]), h[|h| - 1].severity)
  }

  lemma {:induction false} MaxLevelMeaning(h: seq<Observation>)
    ensures forall i | 0 <= i < |h| :: LevelRank(h[i].severity) <= LevelRank(MaxLevel(h))
    ensures h != [] ==> exists i :: 0 <= i < |h| && h[i].severity == MaxLevel(h)
  {
    if h != [] {
      MaxLevelMeaning(h[..|h| - 1]);
      assert h == h[..|h| - 1] + [h[|h| - 1]];
      if |h| > 1 {
        var i :| 0 <= i < |h| - 1 && h[..|h| - 1][i].severity == MaxLevel(h[..|h| - 1]);
        assert h[i].severity == MaxLevel(h[..|h| - 1]);
      }
    }
  }

  function CountOf(row: Option<RunRow>): nat {
    if row.Some? then row.value.count else 0
  }

  function PendingOf(run: Option<OpenRun>): nat {
    if run.Some? then run.value.pending else 0
  }

  predicate AtLeastWarning(l: Level) {
    LevelRank(l) >= LevelRank(Warning)
  }

  /** The level the table holds after committing `h`, the first batch being h[..first]:
      below WARNING it stays what the first batch made it. */
  function StoredLevel(h: seq<Observation>, first: nat): Level {
    if AtLeastWarning(MaxLevel(h)) || |h| < first then MaxLevel(h) else MaxLevel(h[..first])
  }

  ghost predicate RowOk(capacity: nat, score: nat -> nat, row: RunRow, table: SampleTable, h: seq<Observation>,
      first: nat) {
    && row.count == |h| && 0 < first <= |h|
    && row.firstSeen == h[0].at
    && h[|h| - 1].at <= row.lastSeen && (exists i :: 0 <= i < |h| && h[i].at == row.lastSeen)
    && row.severity == StoredLevel(h, first)
    && table == TableOf(Samples(Fed(capacity, score, h)))
  }

  ghost predicate RunOk(capacity: nat, score: nat -> nat, run: OpenRun, h: seq<Observation>, committed: nat) {
    && h != [] && committed <= |h| && |h| == committed + run.pending
    && run.firstSeen == h[0].at
    && (run.pending > 0 ==> run.lastSeen == h[|h| - 1].at)
    && LevelRank(run.severity) <= LevelRank(MaxLevel(h))
    && (committed == 0 || AtLeastWarning(MaxLevel(h)) ==> run.severity == MaxLevel(h))
    && run.sampler == Fed(capacity, score, h)
  }

  ghost predicate SlotOk(capacity: nat, score: nat -> nat, slot: Slot, t: Trace) {
    var c := CountOf(slot.row);
    && c <= |t.kept|
    && (slot.row.None? && slot.run.None? ==> t.kept == [])
    && (slot.run.None? ==> c == |t.kept|)
    && (slot.row.Some? ==> RowOk(capacity, score, slot.row.value, slot.table, t.kept[..c], t.first))
    && (slot.run.Some? ==> RunOk(capacity, score, slot.run.value, t.kept, c))
  }

  // ----------------------------------------------------------- one key, one step

  function SlotLoaded(capacity: nat, score: nat -> nat, slot: Slot, o: Observation): OpenRun {
    if slot.run.Some? then slot.run.value else Loaded(capacity, score, slot.row, slot.table, o)
  }

  function SlotAdded(capacity: nat, score: nat -> nat, slot: Slot, o: Observation): Slot {
    slot.(run := Some(Counted(capacity, score, SlotLoaded(capacity, score, slot, o), o)))
  }

  function SlotCommitted(slot: Slot): Slot {
    if PendingOf(slot.run) == 0 then slot else
      Slot(Some(UpsertRow(slot.row, slot.run.value)), TableOf(Samples(slot.run.value.sampler)),
           Some(slot.run.value.(pending := 0)))
  }

  function SlotDropped(slot: Slot): Slot {
    slot.(run := None)
  }

  function TraceAdded(t: Trace, o: Observation): Trace {
    t.(kept := t.kept + [o])
  }

  /** A commit covers everything kept so far; the first one fixes `first`. */
  function TraceCommitted(t: Trace, slot: Slot): Trace {
    if slot.row.None? && PendingOf(slot.run) > 0 then t.(first := |t.kept|) else t
  }

  /** What was pending is gone. */
  function TraceDropped(t: Trace, slot: Slot): Trace {
    var c := CountOf(slot.row);
    if c <= |t.kept| then Trace(t.kept[..c], t.first, t.lost + (|t.kept| - c)) else t
  }

  lemma MaxLevelGrows(h: seq<Observation>, o: Observation)
    ensures MaxLevel(h + [o]) == HigherLevel(MaxLevel(h), o.severity)
  {
    assert (h + [o])[..|h|] == h;
  }

  lemma {:induction false} MaxLevelPrefix(h: seq<Observation>, n: nat)
    requires n <= |h|
    ensures LevelRank(MaxLevel(h[..n])) <= LevelRank(MaxLevel(h))
  {
    if n < |h| {
      var front := h[..|h| - 1];
      MaxLevelPrefix(front, n);
      assert front[..n] == h[..n];
    } else {
      assert h[..n] == h;
    }
  }

  lemma RankInjective(a: Level, b: Level)
    ensures LevelRank(a) == LevelRank(b) ==> a == b
  {
  }

  lemma LoadSampler(capacity: nat, score: nat -> nat, slot: Slot, t: Trace)
    requires SlotOk(capacity, score, slot, t) && slot.run.None? && slot.row.Some?
    ensures Restored(capacity, score, slot.row.value.count, SelectRows(slot.table, slot.row.value.count))
            == Fed(capacity, score, t.kept)
  {
    assert t.kept[..slot.row.value.count] == t.kept;
    FedRepresents(capacity, score, t.kept);
    hide Represents, Restored, TableOf, Fed, SelectRows, MaxLevel;
    SaveRestore(capacity, score, Fed(capacity, score, t.kept), t.kept);
  }

  lemma LoadLevel(stored: Level, h: seq<Observation>, first: nat, o: Observation)
    requires 0 < first <= |h| && stored == StoredLevel(h, first)
    ensures var l := HigherLevel(stored, o.severity);
            && LevelRank(l) <= LevelRank(MaxLevel(h + [o]))
            && (AtLeastWarning(MaxLevel(h + [o])) ==> l == MaxLevel(h + [o]))
  {
    MaxLevelGrows(h, o);
    MaxLevelPrefix(h, first);
    hide MaxLevel;
    RankInjective(MaxLevel(h), o.severity);
  }

  /** A run read back from its row stands where the evicted one stood. */
  lemma LoadKeeps(capacity: nat, score: nat -> nat, slot: Slot, t: Trace, o: Observation)
    requires SlotOk(capacity, score, slot, t) && slot.run.None?
    ensures var run := Loaded(capacity, score, slot.row, slot.table, o);
            && run.pending == 0
            && run.sampler == Fed(capacity, score, t.kept)
            && run.firstSeen == (if t.kept == [] then o.at else t.kept[0].at)
            && LevelRank(run.severity) <= LevelRank(MaxLevel(t.kept + [o]))
            && LevelRank(run.severity) >= LevelRank(o.severity)
            && (slot.row.None? || AtLeastWarning(MaxLevel(t.kept + [o])) ==> run.severity == MaxLevel(t.kept + [o]))
  {
    MaxLevelGrows(t.kept, o);
    if slot.row.Some? {
      assert t.kept[..slot.row.value.count] == t.kept;
      LoadSampler(capacity, score, slot, t);
      hide MaxLevel, Restored, TableOf, Fed, SelectRows;
      LoadLevel(slot.row.value.severity, t.kept, t.first, o);
    }
  }

  lemma FedGrows(capacity: nat, score: nat -> nat, h: seq<Observation>, o: Observation)
    ensures Fed(capacity, score, h + [o]) == Updated(capacity, score, Fed(capacity, score, h), o)
  {
    assert (h + [o])[..|h|] == h;
  }

  /** Counting an observation into a run that stands at `base`, the run of `h`. */
  lemma CountKeeps(capacity: nat, score: nat -> nat, run: OpenRun, h: seq<Observation>, c: nat, o: Observation)
    requires RunOk(capacity, score, run, h, c)
    ensures RunOk(capacity, score, Counted(capacity, score, run, o), h + [o], c)
  {
    FedGrows(capacity, score, h, o);
    MaxLevelGrows(h, o);
    hide Fed, Updated, MaxLevel;
    RankInjective(run.severity, MaxLevel(h));
    RankInjective(o.severity, MaxLevel(h));
  }

  lemma FirstCountKeeps(capacity: nat, score: nat -> nat, slot: Slot, t: Trace, o: Observation)
    requires SlotOk(capacity, score, slot, t) && slot.run.None?
    ensures RunOk(capacity, score, SlotAdded(capacity, score, slot, o).run.value, t.kept + [o], CountOf(slot.row))
  {
    LoadKeeps(capacity, score, slot, t, o);
    FedGrows(capacity, score, t.kept, o);
    MaxLevelGrows(t.kept, o);
    var run, h := SlotLoaded(capacity, score, slot, o), t.kept + [o];
    assert CountOf(slot.row) == |t.kept|;
    FirstCounted(capacity, score, run, h, CountOf(slot.row), o);
  }

  lemma FirstCounted(capacity: nat, score: nat -> nat, run: OpenRun, h: seq<Observation>, c: nat, o: Observation)
    requires |h| == c + 1 && h[c] == o && run.pending == 0
    requires Fed(capacity, score, h) == Updated(capacity, score, run.sampler, o)
    requires run.firstSeen == h[0].at
    requires LevelRank(o.severity) <= LevelRank(run.severity) <= LevelRank(MaxLevel(h))
    requires c == 0 || AtLeastWarning(MaxLevel(h)) ==> run.severity == MaxLevel(h)
    ensures RunOk(capacity, score, Counted(capacity, score, run, o), h, c)
  {
    hide Fed, Updated, MaxLevel;
  }

  lemma AddKeeps(capacity: nat, score: nat -> nat, slot: Slot, t: Trace, o: Observation)
    requires SlotOk(capacity, score, slot, t)
    ensures SlotOk(capacity, score, SlotAdded(capacity, score, slot, o), TraceAdded(t, o))
  {
    var c := CountOf(slot.row);
    assert (t.kept + [o])[..c] == t.kept[..c];
    if slot.run.None? {
      FirstCountKeeps(capacity, score, slot, t, o);
    } else {
      CountKeeps(capacity, score, slot.run.value, t.kept, c, o);
    }
    hide Fed, Updated, MaxLevel, Loaded, RowOk, RunOk, Counted;
  }

  lemma CommitLevel(row: RunRow, run: OpenRun, h: seq<Observation>, c: nat, first: nat)
    requires c < |h| && 0 < first <= c && row.severity == StoredLevel(h[..c], first)
    requires LevelRank(run.severity) <= LevelRank(MaxLevel(h))
    requires AtLeastWarning(MaxLevel(h)) ==> run.severity == MaxLevel(h)
    ensures UpsertSeverity(row.severity, run.severity) == StoredLevel(h, first)
  {
    MaxLevelPrefix(h, c);
    assert h[..c][..first] == h[..first];
    MaxLevelPrefix(h[..c], first);
    hide MaxLevel;
    RankInjective(row.severity, MaxLevel(h));
  }

  lemma CommitKeeps(capacity: nat, score: nat -> nat, slot: Slot, t: Trace)
    requires SlotOk(capacity, score, slot, t)
    ensures SlotOk(capacity, score, SlotCommitted(slot), TraceCommitted(t, slot))
    ensures PendingOf(slot.run) > 0 ==> CountOf(SlotCommitted(slot).row) == |t.kept|
  {
    if PendingOf(slot.run) > 0 {
      var c, h, run := CountOf(slot.row), t.kept, slot.run.value;
      var after := SlotCommitted(slot);
      assert h[..|h|] == h;
      if slot.row.Some? {
        CommitLevel(slot.row.value, run, h, c, t.first);
        assert h[..c][0] == h[0];
        if after.row.value.lastSeen == slot.row.value.lastSeen {
          var i :| 0 <= i < c && h[..c][i].at == slot.row.value.lastSeen;
          assert h[i].at == after.row.value.lastSeen;
        } else {
          assert h[|h| - 1].at == after.row.value.lastSeen;
        }
      } else {
        assert h[|h| - 1].at == after.row.value.lastSeen;
      }
      hide Fed, TableOf, MaxLevel;
      assert RowOk(capacity, score, after.row.value, after.table, h, TraceCommitted(t, slot).first);
    }
  }

  lemma DropKeeps(capacity: nat, score: nat -> nat, slot: Slot, t: Trace)
    requires SlotOk(capacity, score, slot, t)
    ensures SlotOk(capacity, score, SlotDropped(slot), TraceDropped(t, slot))
    ensures PendingOf(slot.run) == 0 ==> TraceDropped(t, slot) == t
  {
    var c := CountOf(slot.row);
    assert t.kept[..c][..c] == t.kept[..c];
    hide Fed, TableOf, MaxLevel;
    if PendingOf(slot.run) == 0 { assert t.kept[..c] == t.kept; }
  }
}
