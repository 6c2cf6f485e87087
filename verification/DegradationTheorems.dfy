/** Whole-run results about the degradation engine: every statement is about an
    arbitrary run of legal steps from an empty database. */
module DegradationTheorems {
  import opened Wrappers
  import opened Capabilities
  import opened Degradation
  import opened DegradationInvariants

  /** The time two degradation phrases are kept apart. */
  function Spacing(cfg: Settings): nat {
    cfg.aggregation + cfg.stability + cfg.flap
  }

  /** An episode gets at most one phrase of each kind, and two degradation
      phrases are never created closer together than the three windows add up to. */
  lemma PhrasesAreSpaced(cfg: Settings, run: seq<Tables>, steps: seq<Step>, i: nat, a: nat, b: nat)
    requires IsRun(cfg, run, steps) && i < |run| && a < b < |run[i].outbox|
    ensures run[i].outbox[a].kind == run[i].outbox[b].kind ==> run[i].outbox[a].episode != run[i].outbox[b].episode
    ensures run[i].outbox[a].kind == run[i].outbox[b].kind == DegradationPhrase ==>
              run[i].outbox[b].createdAt - run[i].outbox[a].createdAt >= Spacing(cfg)
  {
    RunStable(cfg, run, steps, i);
    var t := run[i];
    var p, q := t.outbox[a], t.outbox[b];
    assert EpisodeOk(cfg, t, p.episode) && EpisodeOk(cfg, t, q.episode);
  }

  /** At most one episode is open and it is the one that started last; what its
      state claims about the capabilities it requires is true. With a positive
      flap window `status` reports it. */
  lemma OpenEpisode(cfg: Settings, run: seq<Tables>, steps: seq<Step>, i: nat, e: nat)
    requires IsRun(cfg, run, steps) && i < |run| && e < |run[i].episodes| && run[i].episodes[e].state != Nominal
    ensures e == |run[i].episodes| - 1
    ensures run[i].episodes[e].state in {Degrading, Degraded} ==>
              exists c | c in run[i].episodes[e].losses.required :: !IsReady(run[i], c)
    ensures run[i].episodes[e].state == Recovering ==>
              forall c | c in run[i].episodes[e].losses.required :: IsReady(run[i], c)
    ensures cfg.flap > 0 ==> StatusIndex(run[i].episodes) == Some(e)
  {
    RunStable(cfg, run, steps, i);
    var t := run[i];
    ActiveIsLast(cfg, t);
    StatusIsLatest(t.episodes);
    var s := StatusIndex(t.episodes);
    if s.value < e {
      assert EpisodeOk(cfg, t, s.value);
      assert t.episodes[s.value].stamps.recoveredAt.value + cfg.flap <= t.episodes[e].stamps.startedAt;
    }
  }

  /** The cause lists, read in the order the episodes started, are exactly the
      material transitions in the order they were recorded: every material loss
      is charged to one episode and nothing else is. */
  lemma LossesArePartitioned(cfg: Settings, run: seq<Tables>, steps: seq<Step>, i: nat)
    requires IsRun(cfg, run, steps) && i < |run|
    ensures AllCauses(run[i].episodes) == MaterialRows(run[i].transitions, |run[i].transitions|)
    ensures forall e | 0 <= e < |run[i].episodes| :: Explained(run[i].transitions, run[i].episodes[e].losses)
  {
    RunStable(cfg, run, steps, i);
    forall e | 0 <= e < |run[i].episodes| ensures Explained(run[i].transitions, run[i].episodes[e].losses) {
      assert EpisodeOk(cfg, run[i], e);
    }
  }

  // ----------------------------------------------------- how an episode changes

  /** What can become of an episode at time `now`: nothing it has learned is
      forgotten, and it is still or newly recovering. */
  ghost predicate Evolves(e: Episode, d: Episode, now: int) {
    && d.stamps.startedAt == e.stamps.startedAt
    && Rank(e.losses.severity) <= Rank(d.losses.severity)
    && e.losses.lost <= d.losses.lost && e.losses.tasks <= d.losses.tasks && e.losses.required <= d.losses.required
        && e.losses.causes <= d.losses.causes
    && (e.speech.phrase.Some? ==> d.speech.phrase == e.speech.phrase)
    && (d.state == Recovering ==>
          || d.stamps.recoveryStartedMono == Some(now)
          || (e.state == Recovering && d.stamps.recoveryStartedMono == e.stamps.recoveryStartedMono
              && d.losses.required == e.losses.required))
  }

  /** Reacting to transitions never closes an episode except a transient one. */
  ghost predicate Reacts(e: Episode, d: Episode, now: int) {
    && Evolves(e, d, now)
    && (e.state in {Degraded, Recovering} ==> d.state in {Degraded, Recovering})
  }

  lemma ReconcileReacts(t: Tables, e: nat)
    requires e < |t.episodes| && t.episodes[|t.episodes| - 1].state != Nominal
    ensures Reacts(t.episodes[e], Reconcile(t, |t.episodes| - 1).episodes[e], t.now)
  {
    TransactionsEvolve(t, |t.episodes| - 1, e);
    TransactionsMove(t, |t.episodes| - 1);
    hide AllRestored, CancelTransient, StartRecovery, ReturnToDegraded, Evolves;
    assert Evolves(t.episodes[e], t.episodes[e], t.now) by { EvolvesSelf(t.episodes[e], t.now); }
  }

  lemma EvolvesSelf(e: Episode, now: int)
    ensures Evolves(e, e, now)
  {
  }

  lemma TransactionsEvolve(t: Tables, i: nat, e: nat)
    requires i < |t.episodes| && e < |t.episodes|
    ensures Evolves(t.episodes[e], CancelTransient(t, i).episodes[e], t.now)
    ensures t.episodes[i].speech.phrase.None? ==> Evolves(t.episodes[e], EnterDegraded(t, i).episodes[e], t.now)
    ensures Evolves(t.episodes[e], StartRecovery(t, i).episodes[e], t.now)
    ensures Evolves(t.episodes[e], ReturnToDegraded(t, i).episodes[e], t.now)
    ensures Evolves(t.episodes[e], FinishRecovery(t, i).episodes[e], t.now)
  {
    hide InsertOrIgnore;
  }

  lemma AggregateReacts(t: Tables, k: nat, e: nat)
    requires e < |t.episodes| && k < |t.transitions|
    ensures Reacts(t.episodes[e], AggregateLoss(t, |t.episodes| - 1, k).episodes[e], t.now)
  {
  }

  lemma OnTransitionReacts(cfg: Settings, t: Tables, k: nat, e: nat)
    requires Inv(cfg, t, k) && k < |t.transitions| && e < |t.episodes|
    ensures Reacts(t.episodes[e], OnTransition(cfg, t, k).episodes[e], t.now)
  {
    hide Reconcile, AggregateLoss, ActiveIndex, RecentRecovered;
    ActiveIsLast(cfg, t);
    RecentIsLast(cfg, t);
    var row := t.transitions[k];
    if row.current == Ready || !row.material || row.expected {
      if ActiveIndex(t.episodes).Some? { ReconcileReacts(t, e); }
    } else {
      AggregateReacts(t, k, e);
    }
  }

  lemma ReactAllReacts(cfg: Settings, t: Tables, k: nat, e: nat)
    requires Inv(cfg, t, k) && k <= |t.transitions| && e < |t.episodes|
    ensures Reacts(t.episodes[e], ReactAll(cfg, t, k).episodes[e], t.now)
    decreases |t.transitions| - k
  {
    hide OnTransition, Inv;
    if k < |t.transitions| {
      var v := OnTransition(cfg, t, k);
      OnTransitionReacts(cfg, t, k, e);
      OnTransitionKeeps(cfg, t, k);
      ReactAllReacts(cfg, v, k + 1, e);
    }
  }

  /** One step: the episode evolves; unless the step is a tick, it also reacts. */
  lemma StepEvolves(cfg: Settings, t: Tables, step: Step, e: nat)
    requires Stable(cfg, t) && Legal(t, step) && e < |t.episodes|
    ensures var u := Apply(cfg, t, step);
            && |t.episodes| <= |u.episodes|
            && Evolves(t.episodes[e], u.episodes[e], step.at)
            && (!step.Tick? ==> Reacts(t.episodes[e], u.episodes[e], step.at))
  {
    var v := t.(now := step.at);
    LaterKeeps(cfg, t, v);
    if step.Report? {
      ReportReacts(cfg, v, step.updates, e);
    } else if step.Tick? {
      TickEvolves(cfg, v, e);
    }
  }

  lemma ReportReacts(cfg: Settings, v: Tables, updates: seq<Update>, e: nat)
    requires Stable(cfg, v) && e < |v.episodes|
    ensures (forall x | x in updates :: x.capability in v.definitions) ==>
              var u := ReactAll(cfg, RecordAll(v, updates), |v.transitions|);
              |v.episodes| <= |u.episodes| && Reacts(v.episodes[e], u.episodes[e], v.now)
  {
    hide ReactAll;
    if forall x | x in updates :: x.capability in v.definitions {
      RecordAllKeeps(cfg, v, |v.transitions|, updates);
      ReactAllReacts(cfg, RecordAll(v, updates), |v.transitions|, e);
    }
  }

  lemma TickEvolves(cfg: Settings, t: Tables, e: nat)
    requires Stable(cfg, t) && e < |t.episodes|
    ensures var u := Ticked(cfg, t); |t.episodes| <= |u.episodes| && Evolves(t.episodes[e], u.episodes[e], t.now)
  {
    TickChanges(cfg, t);
    EvolvesSelf(t.episodes[e], t.now);
    if ActiveIndex(t.episodes).Some? {
      assert EpisodeOk(cfg, t, ActiveIndex(t.episodes).value);
      TransactionsEvolve(t, ActiveIndex(t.episodes).value, e);
    }
    hide Stable, AllRestored, ActiveIndex, Elapsed, CancelTransient, EnterDegraded, ReturnToDegraded, FinishRecovery,
        Evolves;
  }

  /** Severity, lost, affected and required sets and the cause list only grow, and
      a phrase once chosen stays the episode's phrase. */
  lemma {:induction false} EpisodesOnlyGrow(cfg: Settings, run: seq<Tables>, steps: seq<Step>, i: nat, j: nat, e: nat)
    requires IsRun(cfg, run, steps) && i <= j < |run| && e < |run[i].episodes|
    ensures |run[i].episodes| <= |run[j].episodes|
    ensures var a, b := run[i].episodes[e], run[j].episodes[e];
            && b.stamps.startedAt == a.stamps.startedAt && Rank(a.losses.severity) <= Rank(b.losses.severity)
            && a.losses.lost <= b.losses.lost && a.losses.tasks <= b.losses.tasks
                && a.losses.required <= b.losses.required && a.losses.causes <= b.losses.causes
            && (a.speech.phrase.Some? ==> b.speech.phrase == a.speech.phrase)
  {
    if i < j {
      EpisodesOnlyGrow(cfg, run, steps, i, j - 1, e);
      RunStable(cfg, run, steps, j - 1);
      StepEvolves(cfg, run[j - 1], steps[j - 1], e);
    }
  }

  /** From state `j` to state `i` the episode stayed in the recovery it entered at
      state `j`, with one required set, all of it ready in every state. */
  ghost predicate RecoveringSince(run: seq<Tables>, j: nat, i: nat, e: nat)
    requires j <= i < |run|
  {
    e < |run[i].episodes| && forall m | j <= m <= i ::
      && e < |run[m].episodes|
      && run[m].episodes[e].state == Recovering
      && run[m].episodes[e].stamps.recoveryStartedMono == Some(run[j].now)
      && run[m].episodes[e].losses.required == run[i].episodes[e].losses.required
      && forall c | c in run[i].episodes[e].losses.required :: IsReady(run[m], c)
  }

  lemma {:induction false} RecoveryHistory(cfg: Settings, run: seq<Tables>, steps: seq<Step>, i: nat, e: nat)
      returns (j: nat)
    requires IsRun(cfg, run, steps) && i < |run| && e < |run[i].episodes| && run[i].episodes[e].state == Recovering
    ensures j <= i && RecoveringSince(run, j, i, e)
  {
    OpenEpisode(cfg, run, steps, i, e);
    var d := run[i].episodes[e];
    if d.stamps.recoveryStartedMono == Some(run[i].now) {
      return i;
    }
    RunStable(cfg, run, steps, i - 1);
    var t := run[i - 1];
    if e < |t.episodes| {
      StepEvolves(cfg, t, steps[i - 1], e);
      StepTime(cfg, t, steps[i - 1]);
      j := RecoveryHistory(cfg, run, steps, i - 1, e);
    } else {
      NewEpisodeIsNow(cfg, t, steps[i - 1], e);
      assert false;
    }
  }

  lemma StepTime(cfg: Settings, t: Tables, step: Step)
    requires Stable(cfg, t) && Legal(t, step)
    ensures Apply(cfg, t, step).now == step.at
  {
    if step.Report? && forall x | x in step.updates :: x.capability in t.definitions {
      ReactAllTime(cfg, RecordAll(t.(now := step.at), step.updates), |t.transitions|);
    }
  }

  lemma ReactAllTime(cfg: Settings, t: Tables, k: nat)
    requires k <= |t.transitions|
    ensures ReactAll(cfg, t, k).now == t.now
    decreases |t.transitions| - k
  {
    if k < |t.transitions| {
      ReactAllTime(cfg, OnTransition(cfg, t, k), k + 1);
    }
  }

  /** An episode born in a step can be recovering after it only since that step. */
  lemma NewEpisodeIsNow(cfg: Settings, t: Tables, step: Step, e: nat)
    requires Stable(cfg, t) && Legal(t, step) && |t.episodes| <= e < |Apply(cfg, t, step).episodes|
    ensures var d := Apply(cfg, t, step).episodes[e];
            d.state == Recovering ==> d.stamps.recoveryStartedMono == Some(Apply(cfg, t, step).now)
  {
    StepTime(cfg, t, step);
    var v := t.(now := step.at);
    LaterKeeps(cfg, t, v);
    if step.Report? && forall x | x in step.updates :: x.capability in t.definitions {
      RecordAllKeeps(cfg, v, |v.transitions|, step.updates);
      NewByReaction(cfg, RecordAll(v, step.updates), |v.transitions|, e);
    }
  }

  /** A row the engine appends is DEGRADING. */
  lemma StartsDegrading(cfg: Settings, t: Tables, k: nat, e: nat)
    requires Inv(cfg, t, k) && k < |t.transitions| && |t.episodes| <= e
    ensures e < |OnTransition(cfg, t, k).episodes| ==> OnTransition(cfg, t, k).episodes[e].state == Degrading
  {
  }

  lemma NewByReaction(cfg: Settings, t: Tables, k: nat, e: nat)
    requires Inv(cfg, t, k) && k <= |t.transitions| && |t.episodes| <= e < |ReactAll(cfg, t, k).episodes|
    ensures var d := ReactAll(cfg, t, k).episodes[e];
            d.state == Recovering ==> d.stamps.recoveryStartedMono == Some(t.now)
    decreases |t.transitions| - k
  {
    hide Inv;
    if k < |t.transitions| {
      var v := OnTransition(cfg, t, k);
      OnTransitionKeeps(cfg, t, k);
      StartsDegrading(cfg, t, k, e);
      hide OnTransition;
      if e < |v.episodes| {
        ReactAllReacts(cfg, v, k + 1, e);
      } else {
        NewByReaction(cfg, v, k + 1, e);
      }
    }
  }

  /** An episode is closed in one of two ways: as a transient, still inside its
      aggregation window and without a phrase; or by a tick, after a recovery that
      lasted the stability window with every required capability ready throughout. */
  lemma ClosedOnlyWhenStable(cfg: Settings, run: seq<Tables>, steps: seq<Step>, i: nat, e: nat)
    requires IsRun(cfg, run, steps) && i < |steps| && e < |run[i].episodes| && e < |run[i + 1].episodes|
    requires run[i].episodes[e].state != Nominal && run[i + 1].episodes[e].state == Nominal
    ensures || (run[i].episodes[e].state == Degrading && run[i].episodes[e].speech.phrase.None? && steps[i].Report?)
            || (steps[i].Tick? && exists j: nat | j <= i ::
                  RecoveringSince(run, j, i, e) && run[i + 1].now - run[j].now >= cfg.stability)
  {
    RunStable(cfg, run, steps, i);
    var t, step := run[i], steps[i];
    StepEvolves(cfg, t, step, e);
    OpenEpisode(cfg, run, steps, i, e);
    assert EpisodeOk(cfg, t, e);
    if step.Tick? {
      var v := t.(now := step.at);
      ActiveIsLast(cfg, v);
      if t.episodes[e].state == Degrading {
        assert false;
      }
      var j := RecoveryHistory(cfg, run, steps, i, e);
      StepTime(cfg, t, step);
      assert Elapsed(t.episodes[e].stamps.recoveryStartedMono, t.episodes[e].stamps.recoveryStartedAt,
             step.at) >= cfg.stability;
      assert run[j].episodes[e].stamps.recoveryStartedMono == Some(run[j].now);
      RunTimes(cfg, run, steps, j, i);
    }
  }

  lemma {:induction false} RunTimes(cfg: Settings, run: seq<Tables>, steps: seq<Step>, j: nat, i: nat)
    requires IsRun(cfg, run, steps) && j <= i < |run|
    ensures run[j].now <= run[i].now
  {
    if j < i {
      RunTimes(cfg, run, steps, j, i - 1);
      RunStable(cfg, run, steps, i - 1);
      StepTime(cfg, run[i - 1], steps[i - 1]);
    }
  }

  /** Episode `d` is charged with the loss in row `k`, and waits for all that the loss asks
      for, as the registry `w` stood when the engine was told. */
  predicate WaitsFor(w: Tables, k: nat, d: Episode)
    requires k < |w.transitions|
  {
    var row := w.transitions[k];
    && k in d.losses.causes
    && row.capability in d.losses.lost
    && RequiredSnapshot(w, row.capability, row.task) <= d.losses.required
  }

  /** From any state a run can reach (`RunStable`), every material loss of a batch is
      charged to an episode that names it and waits for every configured required
      capability that was ready when the batch had been recorded, and for all the task
      needs. The episode stands open exactly while something it waits for is not ready;
      so it is closed again within the batch only if the batch restored everything. */
  lemma LossIsWaitedFor(cfg: Settings, before: Tables, at: int, updates: seq<Update>, k: nat) returns (e: nat)
    requires Stable(cfg, before) && Legal(before, Report(at, updates))
    requires forall u | u in updates :: u.capability in before.definitions
    requires |before.transitions| <= k < |before.transitions| + |updates|
    requires RecordAll(before.(now := at), updates).transitions[k].material
    ensures var w, after := RecordAll(before.(now := at), updates), Apply(cfg, before, Report(at, updates));
            && e < |after.episodes|
            && WaitsFor(w, k, after.episodes[e])
            && (after.episodes[e].state in {Degrading, Degraded} <==> !AllRestored(after, after.episodes[e]))
  {
    StepKeeps(cfg, before, Report(at, updates));
    var v := before.(now := at);
    LaterKeeps(cfg, before, v);
    RecordAllKeeps(cfg, v, |v.transitions|, updates);
    hide WaitsFor;
    var w := RecordAll(v, updates);
    e := LossIsCharged(cfg, w, w, |v.transitions|, k);
    assert ReactAll(cfg, w, |v.transitions|) == Apply(cfg, before, Report(at, updates));
  }

  predicate SameRegistry(w: Tables, t: Tables) {
    && t.definitions == w.definitions && t.needs == w.needs && t.current == w.current
    && t.transitions == w.transitions
  }

  lemma OnTransitionRegistry(cfg: Settings, t: Tables, k: nat)
    requires k < |t.transitions|
    ensures SameRegistry(t, OnTransition(cfg, t, k))
  {
  }

  lemma LossIsCharged(cfg: Settings, w: Tables, t: Tables, from: nat, k: nat) returns (e: nat)
    requires Inv(cfg, t, from) && from <= k < |t.transitions| && SameRegistry(w, t) && t.transitions[k].material
    ensures var after := ReactAll(cfg, t, from);
            && e < |after.episodes|
            && WaitsFor(w, k, after.episodes[e])
            && (after.episodes[e].state == Nominal ==> AllRestored(t, after.episodes[e]))
    decreases k - from
  {
    OnTransitionRegistry(cfg, t, from);
    OnTransitionKeeps(cfg, t, from);
    var v := OnTransition(cfg, t, from);
    hide Inv, OnTransition, WaitsFor, AllRestored;
    if from < k {
      e := LossIsCharged(cfg, w, v, from + 1, k);
    } else {
      e := LossIsChargedNow(cfg, w, t, k);
      ChargedStays(cfg, w, v, k + 1, k, e);
    }
    RestoredAsCurrent(t, v, ReactAll(cfg, v, from + 1).episodes[e]);
  }

  lemma LossIsChargedNow(cfg: Settings, w: Tables, t: Tables, k: nat) returns (e: nat)
    requires Inv(cfg, t, k) && k < |t.transitions| && SameRegistry(w, t) && t.transitions[k].material
    ensures var u := OnTransition(cfg, t, k);
            e < |u.episodes| && WaitsFor(w, k, u.episodes[e]) && u.episodes[e].state != Nominal
  {
    LossOpens(cfg, t, k);
    e := |OnTransition(cfg, t, k).episodes| - 1;
    hide Inv, OnTransition;
  }

  lemma RestoredAsCurrent(t: Tables, v: Tables, d: Episode)
    requires t.current == v.current
    ensures AllRestored(t, d) == AllRestored(v, d)
  {
  }

  lemma ChargedStays(cfg: Settings, w: Tables, t: Tables, from: nat, k: nat, e: nat)
    requires Inv(cfg, t, from) && from <= |t.transitions| && SameRegistry(w, t) && k < |t.transitions|
    requires e < |t.episodes| && WaitsFor(w, k, t.episodes[e])
    requires t.episodes[e].state == Nominal ==> AllRestored(t, t.episodes[e])
    ensures var after := ReactAll(cfg, t, from);
            && WaitsFor(w, k, after.episodes[e])
            && (after.episodes[e].state == Nominal ==> AllRestored(t, after.episodes[e]))
    decreases |t.transitions| - from
  {
    if from < |t.transitions| {
      var v := OnTransition(cfg, t, from);
      OnTransitionKeeps(cfg, t, from);
      OnTransitionRegistry(cfg, t, from);
      OnTransitionReacts(cfg, t, from, e);
      assert WaitsFor(w, k, v.episodes[e]);
      NominalIsRestored(cfg, t, from, e);
      hide Inv, OnTransition, WaitsFor, AllRestored;
      RestoredAsCurrent(t, v, v.episodes[e]);
      ChargedStays(cfg, w, v, from + 1, k, e);
      RestoredAsCurrent(t, v, ReactAll(cfg, v, from + 1).episodes[e]);
    }
  }

  /** An episode that a reaction closes, or leaves closed, has everything it waits for. */
  lemma NominalIsRestored(cfg: Settings, t: Tables, k: nat, e: nat)
    requires Inv(cfg, t, k) && k < |t.transitions| && e < |t.episodes|
    requires t.episodes[e].state == Nominal ==> AllRestored(t, t.episodes[e])
    ensures var u := OnTransition(cfg, t, k); u.episodes[e].state == Nominal ==> AllRestored(t, u.episodes[e])
  {
    ActiveIsLast(cfg, t);
    RecentIsLast(cfg, t);
    hide Inv, ActiveIndex, RecentRecovered;
  }

  lemma LossOpens(cfg: Settings, t: Tables, k: nat)
    requires Inv(cfg, t, k) && k < |t.transitions| && t.transitions[k].material
    ensures OnTransition(cfg, t, k).episodes != []
    ensures var e := OnTransition(cfg, t, k).episodes[|OnTransition(cfg, t, k).episodes| - 1];
            && e.state in {Degrading, Degraded}
            && k in e.losses.causes && t.transitions[k].capability in e.losses.lost
            && RequiredSnapshot(t, t.transitions[k].capability, t.transitions[k].task) <= e.losses.required
  {
    ActiveIsLast(cfg, t);
    RecentIsLast(cfg, t);
    assert RowOk(t.transitions[k]);
    hide Inv, ActiveIndex, RecentRecovered, Reconcile, RequiredSnapshot;
  }

  // ----------------------------------------------------------------- progress

  /** The first tick at or after the end of an aggregation window announces the
      episode: it becomes DEGRADED and its one degradation phrase is created then. */
  lemma TickAnnounces(cfg: Settings, run: seq<Tables>, steps: seq<Step>, i: nat, e: nat)
    requires IsRun(cfg, run, steps) && i < |steps| && steps[i].Tick?
    requires e < |run[i].episodes| && run[i].episodes[e].state == Degrading
    ensures steps[i].at - run[i].episodes[e].stamps.startedAt >= cfg.aggregation ==>
              && e < |run[i + 1].episodes| && run[i + 1].episodes[e].state == Degraded
              && run[i + 1].outbox == run[i].outbox + [Phrase(DegradationPhrase, e, steps[i].at)]
    ensures steps[i].at - run[i].episodes[e].stamps.startedAt < cfg.aggregation ==>
              run[i + 1].episodes == run[i].episodes && run[i + 1].outbox == run[i].outbox
  {
    RunStable(cfg, run, steps, i);
    OpenEpisode(cfg, run, steps, i, e);
    var v := run[i].(now := steps[i].at);
    LaterKeeps(cfg, run[i], v);
    ActiveIsLast(cfg, v);
    assert EpisodeOk(cfg, v, e);
    if v.now - v.episodes[e].stamps.startedAt >= cfg.aggregation {
      assert !AllRestored(v, v.episodes[e]);
      EnterOutbox(cfg, v, e);
    }
  }

  /** A tick ends a recovery exactly when it has lasted the stability window, and
      then the episode has its one recovery phrase. */
  lemma TickEndsRecovery(cfg: Settings, run: seq<Tables>, steps: seq<Step>, i: nat, e: nat)
    requires IsRun(cfg, run, steps) && i < |steps| && steps[i].Tick?
    requires e < |run[i].episodes| && run[i].episodes[e].state == Recovering
    ensures e < |run[i + 1].episodes| && run[i].episodes[e].stamps.recoveryStartedMono.Some?
    ensures run[i + 1].episodes[e].state == Nominal <==>
              steps[i].at - run[i].episodes[e].stamps.recoveryStartedMono.value >= cfg.stability
    ensures run[i + 1].episodes[e].state == Nominal ==> HasPhrase(run[i + 1].outbox, RecoveryPhrase, e)
  {
    RunStable(cfg, run, steps, i);
    OpenEpisode(cfg, run, steps, i, e);
    var v := run[i].(now := steps[i].at);
    LaterKeeps(cfg, run[i], v);
    ActiveIsLast(cfg, v);
    assert EpisodeOk(cfg, v, e);
    assert AllRestored(v, v.episodes[e]);
    if v.now - v.episodes[e].stamps.recoveryStartedMono.value >= cfg.stability {
      FinishOutbox(cfg, v, e);
      var u := FinishRecovery(v, e);
      if v.episodes[e].speech.recoveryPhrase.None? {
        assert u.outbox[|v.outbox|] == Phrase(RecoveryPhrase, e, v.now);
      } else {
        assert v.outbox[v.episodes[e].speech.recoveryPhrase.value].kind == RecoveryPhrase;
      }
    }
  }

  // --------------------------------------------- a claim the code does not meet

  /** Step `j` is a tick that finds episode `e` DEGRADING at or after the end of its
      aggregation window. */
  predicate Announces(cfg: Settings, t: Tables, step: Step, e: nat) {
    && step.Tick? && e < |t.episodes| && t.episodes[e].state == Degrading
    && step.at - t.episodes[e].stamps.startedAt >= cfg.aggregation
  }

  /** An episode has a degradation phrase exactly when some tick found it DEGRADING after
      its aggregation window; a loss that is cancelled before and comes back need not. */
  lemma {:induction false} AnnouncedExactlyWhenAggregationClosed(cfg: Settings, run: seq<Tables>, steps: seq<Step>,
      i: nat, e: nat)
    requires IsRun(cfg, run, steps) && i < |run|
    ensures HasPhrase(run[i].outbox, DegradationPhrase, e)
            <==> exists j | 0 <= j < i :: Announces(cfg, run[j], steps[j], e)
  {
    if i > 0 {
      var t := run[i - 1];
      AnnouncedExactlyWhenAggregationClosed(cfg, run, steps, i - 1, e);
      RunStable(cfg, run, steps, i - 1);
      StepAnnounces(cfg, t, steps[i - 1], e);
      hide Announces, HasPhrase, Stable, Legal, Apply;
    }
  }

  lemma StepAnnounces(cfg: Settings, t: Tables, step: Step, e: nat)
    requires Stable(cfg, t) && Legal(t, step)
    ensures HasPhrase(Apply(cfg, t, step).outbox, DegradationPhrase, e)
            <==> HasPhrase(t.outbox, DegradationPhrase, e) || Announces(cfg, t, step, e)
  {
    var v := t.(now := step.at);
    if step.Report? {
      if forall x | x in step.updates :: x.capability in t.definitions {
        ReactionsAreSilent(cfg, RecordAll(v, step.updates), |t.transitions|);
      }
    } else if step.Tick? {
      LaterKeeps(cfg, t, v);
      TickSpeaks(cfg, v, e);
    }
  }

  /** Reacting to transitions writes no phrase. */
  lemma ReactionsAreSilent(cfg: Settings, t: Tables, k: nat)
    requires k <= |t.transitions|
    ensures ReactAll(cfg, t, k).outbox == t.outbox
    decreases |t.transitions| - k
  {
    if k < |t.transitions| {
      ReactionsAreSilent(cfg, OnTransition(cfg, t, k), k + 1);
    }
  }

  lemma OneMore(outbox: seq<Phrase>, p: Phrase, kind: PhraseKind, e: nat)
    ensures HasPhrase(outbox + [p], kind, e) <==> HasPhrase(outbox, kind, e) || (p.kind == kind && p.episode == e)
  {
    var more := outbox + [p];
    forall k | 0 <= k < |outbox| ensures more[k] == outbox[k] {}
    assert more[|outbox|] == p;
  }

  lemma TickSpeaks(cfg: Settings, t: Tables, e: nat)
    requires Stable(cfg, t)
    ensures HasPhrase(Ticked(cfg, t).outbox, DegradationPhrase, e)
            <==> HasPhrase(t.outbox, DegradationPhrase, e) || Announces(cfg, t, Tick(t.now), e)
  {
    ActiveIsLast(cfg, t);
    hide HasPhrase, ActiveIndex, InsertOrIgnore;
    if ActiveIndex(t.episodes).Some? {
      var i := ActiveIndex(t.episodes).value;
      assert EpisodeOk(cfg, t, i);
      if t.episodes[i].state == Degrading {
        EnterOutbox(cfg, t, i);
        OneMore(t.outbox, Phrase(DegradationPhrase, i, t.now), DegradationPhrase, e);
      } else if t.episodes[i].state == Recovering {
        FinishOutbox(cfg, t, i);
        OneMore(t.outbox, Phrase(RecoveryPhrase, i, t.now), DegradationPhrase, e);
      }
    }
  }

  const Reasoning: Definition := Definition(Required, CognitiveClass, true)

  /** A loss, its recovery inside the aggregation window and a second loss inside
      the flap window: the episode is DEGRADED and nothing was ever said about it. */
  lemma SilentDegradation(c: string) returns (cfg: Settings, run: seq<Tables>, steps: seq<Step>)
    ensures IsRun(cfg, run, steps)
    ensures var t := run[|run| - 1]; |t.episodes| == 1 && t.episodes[0].state == Degraded && t.outbox == []
  {
    hide *;
    cfg := Settings(5, 10, 30);
    var down := Update(c, Unavailable, None, false);
    var up := Update(c, Ready, None, false);
    var t1 := Installed(cfg, c);
    var t2 := AfterOne(cfg, t1, 1, down);
    FirstLoss(cfg, t1, t2, c);
    var t3 := AfterOne(cfg, t2, 2, up);
    Restored(cfg, t2, t3, c);
    var t4 := AfterOne(cfg, t3, 3, down);
    LostAgain(cfg, t3, t4, c);
    run := [Empty, t1, t2, t3, t4];
    steps := [Define(0, c, Reasoning), Report(1, [down]), Report(2, [up]), Report(3, [down])];
    FourSteps(cfg, run, steps);
  }

  lemma FourSteps(cfg: Settings, run: seq<Tables>, steps: seq<Step>)
    requires |run| == 5 && |steps| == 4 && run[0] == Empty
    requires Legal(run[0], steps[0]) && run[1] == Apply(cfg, run[0], steps[0])
    requires Legal(run[1], steps[1]) && run[2] == Apply(cfg, run[1], steps[1])
    requires Legal(run[2], steps[2]) && run[3] == Apply(cfg, run[2], steps[2])
    requires Legal(run[3], steps[3]) && run[4] == Apply(cfg, run[3], steps[3])
    ensures IsRun(cfg, run, steps)
  {
    hide Apply, Legal;
  }

  lemma Installed(cfg: Settings, c: string) returns (t: Tables)
    ensures Legal(Empty, Define(0, c, Reasoning)) && t == Apply(cfg, Empty, Define(0, c, Reasoning))
    ensures t.episodes == [] && t.transitions == [] && t.outbox == [] && t.needs == map[]
    ensures t.definitions == map[c := Reasoning] && t.current == map[] && t.now == 0
  {
    t := Apply(cfg, Empty, Define(0, c, Reasoning));
  }

  lemma FirstLoss(cfg: Settings, t: Tables, u: Tables, c: string)
    requires t.episodes == [] && t.transitions == [] && t.outbox == [] && t.needs == map[]
    requires t.definitions == map[c := Reasoning] && t.current == map[]
    requires u == OnTransition(cfg, Recorded(t.(now := 1), c, Unavailable, None, false), |t.transitions|)
    ensures |u.episodes| == 1 && u.episodes[0].state == Degrading && u.episodes[0].losses.required == {c}
    ensures u.outbox == [] && u.definitions == map[c := Reasoning] && u.now == 1
  {
  }

  lemma Restored(cfg: Settings, t: Tables, u: Tables, c: string)
    requires |t.episodes| == 1 && t.episodes[0].state == Degrading && t.episodes[0].losses.required == {c}
    requires t.outbox == [] && t.definitions == map[c := Reasoning]
    requires u == OnTransition(cfg, Recorded(t.(now := 2), c, Ready, None, false), |t.transitions|)
    ensures |u.episodes| == 1 && u.episodes[0].state == Nominal && u.episodes[0].stamps.recoveredAt == Some(2)
    ensures u.outbox == [] && u.definitions == map[c := Reasoning] && u.now == 2
  {
  }

  lemma LostAgain(cfg: Settings, t: Tables, u: Tables, c: string)
    requires |t.episodes| == 1 && t.episodes[0].state == Nominal && t.episodes[0].stamps.recoveredAt == Some(2)
    requires t.outbox == [] && t.definitions == map[c := Reasoning] && cfg.flap == 30
    requires u == OnTransition(cfg, Recorded(t.(now := 3), c, Unavailable, None, false), |t.transitions|)
    ensures |u.episodes| == 1 && u.episodes[0].state == Degraded && u.outbox == []
  {
  }

  /** A report of one update, unfolded. */
  lemma AfterOne(cfg: Settings, t: Tables, at: int, u: Update) returns (r: Tables)
    requires u.capability in t.definitions
    ensures r == Apply(cfg, t, Report(at, [u]))
    ensures t.now <= at ==> Legal(t, Report(at, [u]))
    ensures r == OnTransition(cfg, Recorded(t.(now := at), u.capability, u.target, u.task, u.expected), |t.transitions|)
  {
    var v := t.(now := at);
    var w := Recorded(v, u.capability, u.target, u.task, u.expected);
    assert [u][1..] == [];
    assert RecordAll(w, []) == w;
    assert RecordAll(v, [u]) == w;
    var x := OnTransition(cfg, w, |t.transitions|);
    assert ReactAll(cfg, w, |t.transitions|) == ReactAll(cfg, x, |t.transitions| + 1) == x;
    r := Apply(cfg, t, Report(at, [u]));
  }
}
