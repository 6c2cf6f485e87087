/** Whole runs of the sketch tiers: any interleaving of updates, maintenance passes and
    crashes, one transaction at a time. */
module SketchTiersTheorems {
  import opened Wrappers
  import opened Buckets
  import HD = HybridDistinct
  import opened SketchTiers
  import opened SketchTiersInvariants
  import opened SketchTiersPass

  ghost predicate IsRun(p: Plan, steps: seq<Step>)
    decreases |steps|, 0
  {
    steps == [] || (IsRun(p, steps[..|steps| - 1]) && Enabled(p, After(p, steps[..|steps| - 1]), steps[|steps| - 1]))
  }

  ghost function After(p: Plan, steps: seq<Step>): State
    requires IsRun(p, steps)
    decreases |steps|, 1
  {
    if steps == [] then Start0 else Apply(p, After(p, steps[..|steps| - 1]), steps[|steps| - 1])
  }

  /** The accepted updates of a run, and the parents it recorded. */
  ghost function LogAfter(p: Plan, steps: seq<Step>): Log
    requires IsRun(p, steps)
  {
    if steps == [] then Log([], {}, {}) else
      var front := steps[..|steps| - 1];
      Logged(p, After(p, front), LogAfter(p, front), steps[|steps| - 1])
  }

  /** The state before the m-th step. */
  ghost function StateAt(p: Plan, steps: seq<Step>, m: nat): State
    requires m <= |steps|
  {
    if IsRun(p, steps[..m]) then After(p, steps[..m]) else Start0
  }

  /** Every accepted update but possibly the j-th step is in time. */
  ghost predicate TimelyExcept(p: Plan, steps: seq<Step>, j: nat) {
    forall m | 0 <= m < |steps| && m != j :: StepTimely(p, StateAt(p, steps, m), steps[m])
  }

  ghost predicate IsTimely(p: Plan, steps: seq<Step>) {
    TimelyExcept(p, steps, |steps|)
  }

  lemma LastState(p: Plan, steps: seq<Step>, n: nat)
    requires IsRun(p, steps) && |steps| == n + 1
    ensures IsRun(p, steps[..n]) && StateAt(p, steps, n) == After(p, steps[..n])
  {
  }

  lemma TimelyFront(p: Plan, steps: seq<Step>, n: nat, j: nat)
    requires TimelyExcept(p, steps, j) && n <= |steps|
    ensures TimelyExcept(p, steps[..n], j)
  {
    hide IsRun, After, StepTimely;
    forall m | 0 <= m < n && m != j ensures StepTimely(p, StateAt(p, steps[..n], m), steps[..n][m]) {
      assert steps[..n][..m] == steps[..m];
      assert StepTimely(p, StateAt(p, steps, m), steps[m]);
    }
  }

  lemma {:induction false} RunKeeps(p: Plan, steps: seq<Step>)
    requires p.Valid() && IsRun(p, steps) && IsTimely(p, steps)
    ensures Inv(p, After(p, steps), LogAfter(p, steps))
  {
    if steps != [] {
      var n := |steps| - 1;
      LastState(p, steps, n);
      TimelyFront(p, steps, n, n + 1);
      assert StepTimely(p, StateAt(p, steps, n), steps[n]);
      assert TimelyExcept(p, steps[..n], n);
      RunKeeps(p, steps[..n]);
      StepKeeps(p, After(p, steps[..n]), LogAfter(p, steps[..n]), steps[n]);
      hide Inv, Apply, Logged, Enabled, StateAt, TimelyExcept, StepTimely;
    }
  }

  /** A retained bucket that covers the instant and stands for exactly the updates of its
      window. */
  ghost predicate Retained(p: Plan, s: State, h: seq<Entry>, t: Tier, e: Entry) {
    var k := KeyAt(p, t, e.at);
    && k in s.rows && k.start <= e.at < EndOf(p, k)
    && e.digest in DigestsIn(h, k.start, EndOf(p, k))
    && s.rows[k].sketch == Whole(p, h, k.start, EndOf(p, k))
  }

  /** Three-tier conservation: if the accepted updates come in time, each of them is in a
      retained hot, warm or cold bucket that stands for exactly the updates of its window,
      until the cold bucket of that time is past the cold retention. */
  lemma UpdatesAreConserved(p: Plan, steps: seq<Step>, i: nat)
    requires p.Valid() && IsRun(p, steps) && IsTimely(p, steps) && i < |LogAfter(p, steps).history|
    ensures var s, h := After(p, steps), LogAfter(p, steps).history;
            || Retained(p, s, h, Hot, h[i])
            || Retained(p, s, h, Warm, h[i])
            || Retained(p, s, h, Cold, h[i])
            || EndOf(p, KeyAt(p, Cold, h[i].at)) + p.coldKeep <= s.clock
  {
    RunKeeps(p, steps);
    var s, g := After(p, steps), LogAfter(p, steps);
    hide IsRun, After, LogAfter, IsTimely;
    Conserved(p, s, g, i);
  }

  lemma Conserved(p: Plan, s: State, g: Log, i: nat)
    requires p.Valid() && Inv(p, s, g) && i < |g.history|
    ensures var h := g.history;
            || Retained(p, s, h, Hot, h[i])
            || Retained(p, s, h, Warm, h[i])
            || Retained(p, s, h, Cold, h[i])
            || EndOf(p, KeyAt(p, Cold, h[i].at)) + p.coldKeep <= s.clock
  {
    var at := g.history[i].at;
    var hot, warm, cold := KeyAt(p, Hot, at), KeyAt(p, Warm, at), KeyAt(p, Cold, at);
    KeyAtNests(p, Hot, at);
    KeyAtNests(p, Warm, at);
    KeyAtNests(p, Cold, at);
    HotIn(p, s, g, i);
    if hot in s.rows {
      HotNotStale(p, s, g, hot);
      PresentRetained(p, s, g, Hot, i);
    } else {
      MarkIn(p, s, g, warm);
      CleanNotStale(p, s, g, warm);
      if warm in s.rows {
        PresentRetained(p, s, g, Warm, i);
      } else {
        MarkIn(p, s, g, cold);
        HotNotStale(p, s, g, cold);
        if cold in s.rows { PresentRetained(p, s, g, Cold, i); }
      }
    }
    hide Inv, Retained, KeyAt, ParentOf;
  }

  lemma CleanNotStale(p: Plan, s: State, g: Log, w: Key)
    requires Inv(p, s, g) && Clean(p, s.rows, w)
    ensures w !in g.stale
  {
  }

  lemma PresentRetained(p: Plan, s: State, g: Log, t: Tier, i: nat)
    requires p.Valid() && Inv(p, s, g) && i < |g.history|
    requires KeyAt(p, t, g.history[i].at) in s.rows && KeyAt(p, t, g.history[i].at) !in g.stale
    ensures Retained(p, s, g.history, t, g.history[i])
  {
    var k := KeyAt(p, t, g.history[i].at);
    KeyAtNests(p, t, g.history[i].at);
    RowAt(p, s, g, k);
    EntryCounted(g.history, k.start, EndOf(p, k), i);
  }

  /** Every retained bucket, of any tier, counts exactly the accepted updates of its window
      and is exact if and only if their distinct digests fit; except a warm bucket that a
      late update has made stale, below which a hot bucket is then left to roll up. */
  lemma BucketsAreComplete(p: Plan, steps: seq<Step>, k: Key)
    requires p.Valid() && IsRun(p, steps) && IsTimely(p, steps) && k in After(p, steps).rows
    ensures var s, g := After(p, steps), LogAfter(p, steps);
            if k in g.stale then k.tier == Warm && !Clean(p, s.rows, k)
            else
              var sketch, h := s.rows[k].sketch, g.history;
              && sketch.updates == CountIn(h, k.start, EndOf(p, k))
              && sketch.members == DigestsIn(h, k.start, EndOf(p, k))
              && (sketch.mode == HD.EXACT <==> HD.Fits(p.sketch, DigestsIn(h, k.start, EndOf(p, k))))
  {
    RunKeeps(p, steps);
    RowAt(p, After(p, steps), LogAfter(p, steps), k);
    hide IsRun, After, LogAfter, IsTimely, DigestsIn, CountIn, Clean;
  }

  /** Every update carries an instant that no pass has passed. */
  ghost predicate IsPunctual(p: Plan, steps: seq<Step>) {
    forall m | 0 <= m < |steps| && steps[m].Update? :: steps[m].at >= StateAt(p, steps, m).clock
  }

  lemma PunctualRunIsTimely(p: Plan, steps: seq<Step>)
    requires p.Valid() && IsPunctual(p, steps)
    ensures IsTimely(p, steps)
  {
    hide IsRun, After, StateAt, Timely, Accepted;
    forall m | 0 <= m < |steps| ensures StepTimely(p, StateAt(p, steps, m), steps[m]) {
      if steps[m].Update? { PunctualIsTimely(p, steps[m].at, StateAt(p, steps, m).clock); }
    }
  }

  /** What a punctual run keeps besides: nothing is stale, and a running pass has sealed
      every bucket that has ended. */
  ghost predicate NothingLate(p: Plan, s: State, g: Log) {
    g.stale == {} && (!s.phase.Idle? ==> forall k | k in s.rows && EndOf(p, k) <= s.clock :: s.rows[k].sealed)
  }

  lemma PunctualUpdate(p: Plan, s: State, g: Log, at: nat, d: HD.Digest)
    requires p.Valid() && Inv(p, s, g) && NothingLate(p, s, g) && at >= s.clock
    ensures NothingLate(p, Updated(p, s, at, d), Logged(p, s, g, Update(at, d)))
  {
    var warm, hot := KeyAt(p, Warm, at), KeyAt(p, Hot, at);
    KeyAtNests(p, Warm, at);
    KeyAtNests(p, Hot, at);
    if warm in s.rows { RowAt(p, s, g, warm); }
    hide HD.Updated, KeyAt, Inv;
  }

  lemma PunctualPersist(p: Plan, s: State, g: Log, parent: Key)
    requires p.Valid() && Inv(p, s, g) && NothingLate(p, s, g) && Enabled(p, s, PersistParent(parent))
    ensures NothingLate(p, Persisted(p, s, parent), RolledLog(p, s, g, parent))
  {
    var k :| Waiting(p, s.rows, s.phase.child, k, s.phase.at) && ParentOf(p, k) == parent;
    WindowAbove(p, s, g, parent, k);
    assert s.phase.at == s.clock;
    if j :| j in s.rows && j.tier == Hot && !s.rows[j].sealed && ParentOf(p, j) == parent {
      RowAt(p, s, g, j);
      ParentContains(p, j);
      assert false;
    }
    hide RolledUp, KeyAt, Inv;
  }

  lemma PunctualStep(p: Plan, s: State, g: Log, step: Step)
    requires p.Valid() && Inv(p, s, g) && NothingLate(p, s, g) && Enabled(p, s, step)
    requires step.Update? ==> step.at >= s.clock
    ensures NothingLate(p, Apply(p, s, step), Logged(p, s, g, step))
  {
    hide Inv, Updated, Persisted, RolledLog;
    match step
    case Update(at, d) => PunctualUpdate(p, s, g, at, d);
    case PersistParent(parent) => PunctualPersist(p, s, g, parent);
    case _ =>
  }

  /** So a punctual run has no stale bucket at all. */
  lemma {:induction false} PunctualNeverStale(p: Plan, steps: seq<Step>)
    requires p.Valid() && IsRun(p, steps) && IsPunctual(p, steps)
    ensures IsTimely(p, steps) && NothingLate(p, After(p, steps), LogAfter(p, steps))
  {
    PunctualRunIsTimely(p, steps);
    if steps != [] {
      var n := |steps| - 1;
      LastState(p, steps, n);
      PunctualFront(p, steps, n);
      PunctualNeverStale(p, steps[..n]);
      RunKeeps(p, steps[..n]);
      PunctualStep(p, After(p, steps[..n]), LogAfter(p, steps[..n]), steps[n]);
      hide Inv, Apply, Logged, Enabled, StateAt, IsTimely, NothingLate;
    }
  }

  lemma PunctualFront(p: Plan, steps: seq<Step>, n: nat)
    requires IsPunctual(p, steps) && n <= |steps|
    ensures IsPunctual(p, steps[..n])
  {
    hide IsRun, After;
    forall m | 0 <= m < n && steps[m].Update? ensures steps[m].at >= StateAt(p, steps[..n], m).clock {
      assert steps[..n][..m] == steps[..m];
    }
  }

  /** No update of the present or later is refused for a sealed bucket; it is accepted
      exactly when the bucket, with its digest, needs no promotion or one that is plausible. */
  lemma UpdatesAreAccepted(p: Plan, steps: seq<Step>, at: nat, d: HD.Digest)
    requires p.Valid() && IsRun(p, steps) && IsTimely(p, steps) && at >= After(p, steps).clock
    ensures var s := After(p, steps);
            var sketch := if KeyAt(p, Hot, at) in s.rows then s.rows[KeyAt(p, Hot, at)].sketch else HD.Empty;
            Accepted(p, s, at, d)
            <==> sketch.mode != HD.EXACT || HD.Fits(p.sketch, sketch.members + {d})
                 || HD.Plausible(p.sketch, sketch.members + {d})
  {
    RunKeeps(p, steps);
    var s := After(p, steps);
    NeverRefused(p, s, LogAfter(p, steps), at);
    hide IsRun, After, LogAfter, KeyAt, HD.Fits, HD.Plausible;
  }

  /** A pass that runs to its end leaves only buckets within their retention, and hot and
      warm ones whose parent window has not ended. */
  lemma PassBoundsTable(p: Plan, steps: seq<Step>, k: Key)
    requires p.Valid() && IsRun(p, steps) && IsTimely(p, steps)
    requires After(p, steps).phase.Expiring? && After(p, steps).phase.tier == Cold
    requires Enabled(p, After(p, steps), NextExpiry) && k in After(p, steps).rows
    ensures var now := After(p, steps).phase.at;
            EndOf(p, k) + Keep(p, k.tier) > now || (k.tier != Cold && EndOf(p, ParentOf(p, k)) > now)
  {
    RunKeeps(p, steps);
    var s, g := After(p, steps), LogAfter(p, steps);
    RowAt(p, s, g, k);
    hide IsRun, After, LogAfter, IsTimely;
    BoundedRow(p, s, g, k);
  }

  lemma BoundedRow(p: Plan, s: State, g: Log, k: Key)
    requires p.Valid() && Inv(p, s, g) && k in s.rows
    requires s.phase.Expiring? && s.phase.tier == Cold && NoneExpirable(p, s, Cold, s.phase.at)
    ensures EndOf(p, k) + Keep(p, k.tier) > s.phase.at || (k.tier != Cold && EndOf(p, ParentOf(p, k)) > s.phase.at)
  {
    var now := s.phase.at;
    RowAt(p, s, g, k);
    assert !Expirable(p, s, k, now);
    if k.tier != Cold {
      assert !Waiting(p, s.rows, k.tier, k, now);
      if s.rows[k].rollup == VerifiedChild {
        var link := (ParentOf(p, k), k);
        ParentContains(p, k);
        RowAt(p, s, g, link.0);
        assert link in s.rollups && link.1 == k && link.0 in s.rows && s.rows[link.0].sealed;
      } else if !s.rows[k].sealed {
        OpenIn(p, s, g, k);
        KeyAtUnique(p, k, k.start);
        NoneExpired(p, k.start, k.start, now);
        KeyAtNests(p, Hot, k.start);
      }
    }
  }
}
