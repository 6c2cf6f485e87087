/** What each reaction and each tick does to the episode table, along every run, told by
    the rows of the tables alone. */
module DegradationReactions {
  import opened Wrappers
  import opened Capabilities
  import opened Degradation
  import opened DegradationInvariants
  import opened DegradationTheorems

  // --------------------------------------------------------- one row after the other

  /** The tables when the engine has been told of the rows from `from` below `k`. */
  function ReactedTo(cfg: Settings, t: Tables, from: nat, k: nat): (r: Tables)
    requires from <= k <= |t.transitions|
    ensures r.transitions == t.transitions && r.current == t.current && r.now == t.now
    decreases k
  {
    if k == from then t else OnTransition(cfg, ReactedTo(cfg, t, from, k - 1), k - 1)
  }

  lemma {:induction false} ReactedKeeps(cfg: Settings, t: Tables, from: nat, k: nat)
    requires from <= k <= |t.transitions| && Inv(cfg, t, from)
    ensures Inv(cfg, ReactedTo(cfg, t, from, k), k) && SameRegistry(t, ReactedTo(cfg, t, from, k))
    decreases k
  {
    hide Inv, OnTransition;
    if from < k {
      var r := ReactedTo(cfg, t, from, k - 1);
      ReactedKeeps(cfg, t, from, k - 1);
      OnTransitionKeeps(cfg, r, k - 1);
      OnTransitionRegistry(cfg, r, k - 1);
    }
  }

  lemma {:induction false} ReactedIsAll(cfg: Settings, t: Tables, from: nat, k: nat)
    requires from <= k <= |t.transitions|
    ensures ReactAll(cfg, t, from) == ReactAll(cfg, ReactedTo(cfg, t, from, k), k)
    decreases k
  {
    hide OnTransition;
    if from < k { ReactedIsAll(cfg, t, from, k - 1); }
  }

  /** All that is reported is defined. */
  predicate Reports(t: Tables, step: Step) {
    step.Report? && forall u | u in step.updates :: u.capability in t.definitions
  }

  /** The tables in the middle of a report: the engine has been told of the rows below `k`. */
  function Told(cfg: Settings, t: Tables, step: Step, k: nat): Tables
    requires Reports(t, step) && |t.transitions| <= k <= |t.transitions| + |step.updates|
  {
    ReactedTo(cfg, RecordAll(t.(now := step.at), step.updates), |t.transitions|, k)
  }

  lemma ReportRecorded(cfg: Settings, t: Tables, step: Step)
    requires Stable(cfg, t) && Legal(t, step) && Reports(t, step)
    ensures var w := RecordAll(t.(now := step.at), step.updates);
            && Inv(cfg, w, |t.transitions|) && w.now == step.at && w.outbox == t.outbox && w.episodes == t.episodes
            && |w.transitions| == |t.transitions| + |step.updates|
  {
    hide Inv, RecordAll, Settled;
    var v := t.(now := step.at);
    LaterKeeps(cfg, t, v);
    RecordAllKeeps(cfg, v, |v.transitions|, step.updates);
  }

  /** The report begins with the episodes as they were and ends with the step's result; in
      between, only the episodes change. */
  lemma TellingIsTheStep(cfg: Settings, run: seq<Tables>, steps: seq<Step>, i: nat, k: nat)
    requires IsRun(cfg, run, steps) && i < |steps| && Reports(run[i], steps[i])
    requires |run[i].transitions| <= k <= |run[i].transitions| + |steps[i].updates|
    ensures var t := Told(cfg, run[i], steps[i], k);
            && Inv(cfg, t, k) && t.now == steps[i].at && t.outbox == run[i].outbox
            && SameRegistry(t, run[i + 1])
            && (k == |run[i].transitions| ==> t.episodes == run[i].episodes)
            && (k == |run[i].transitions| + |steps[i].updates| ==> t == run[i + 1])
  {
    hide Inv, RecordAll, SameRegistry, OnTransition, ReactedTo, Stable, Apply, Legal;
    RunStable(cfg, run, steps, i);
    ReportRecorded(cfg, run[i], steps[i]);
    var w, n := RecordAll(run[i].(now := steps[i].at), steps[i].updates), |run[i].transitions|;
    ReportResult(cfg, run[i], steps[i]);
    ReactedKeeps(cfg, w, n, k);
    ReactedKeeps(cfg, w, n, |w.transitions|);
    ReactedSilently(cfg, w, n, k);
    ReactedNone(cfg, w, n);
    SameRegistryMeets(w, ReactedTo(cfg, w, n, k), run[i + 1]);
  }

  lemma ReactedNone(cfg: Settings, t: Tables, from: nat)
    requires from <= |t.transitions|
    ensures ReactedTo(cfg, t, from, from) == t
  {
  }

  lemma ReportResult(cfg: Settings, t: Tables, step: Step)
    requires Reports(t, step)
    ensures var w := RecordAll(t.(now := step.at), step.updates);
            Apply(cfg, t, step) == ReactedTo(cfg, w, |t.transitions|, |w.transitions|)
  {
    hide OnTransition, RecordAll;
    var w := RecordAll(t.(now := step.at), step.updates);
    ReactedIsAll(cfg, w, |t.transitions|, |w.transitions|);
  }

  lemma SameRegistryMeets(w: Tables, t: Tables, u: Tables)
    requires SameRegistry(w, t) && SameRegistry(w, u)
    ensures SameRegistry(t, u)
  {
  }

  lemma {:induction false} ReactedSilently(cfg: Settings, t: Tables, from: nat, k: nat)
    requires from <= k <= |t.transitions|
    ensures ReactedTo(cfg, t, from, k).outbox == t.outbox
    decreases k
  {
    if from < k {
      ReactedSilently(cfg, t, from, k - 1);
      OneSilent(cfg, ReactedTo(cfg, t, from, k - 1), k - 1);
    }
    hide OnTransition;
  }

  lemma OneSilent(cfg: Settings, t: Tables, k: nat)
    requires k < |t.transitions|
    ensures OnTransition(cfg, t, k).outbox == t.outbox
  {
    hide ActiveIndex, RecentRecovered;
  }

  // ------------------------------------------------------------------ material losses

  /** A loss in row `row` makes an episode wait for this capability: the lost one, a
      configured required one that is ready, or one the task needs. */
  predicate Awaited(t: Tables, row: Transition, c: string) {
    || c == row.capability
    || (c in t.definitions && t.definitions[c].configured && t.definitions[c].requirement == Required
        && c in t.current && t.current[c] == Ready)
    || (row.task.Some? && (row.task.value, c) in t.needs && t.needs[(row.task.value, c)].required)
  }

  /** Row `k` has been added to what an episode was about. */
  ghost predicate Charged(t: Tables, k: nat, e: Losses, d: Losses)
    requires k < |t.transitions|
  {
    var row := t.transitions[k];
    && d.causes == e.causes + [k]
    && d.lost == e.lost + {row.capability}
    && (forall x :: x in d.tasks <==> x in e.tasks || row.task == Some(x))
    && (forall c :: c in d.required <==> c in e.required || Awaited(t, row, c))
    && d.severity == (if e.severity == Critical || row.impact == CriticalImpact then Critical else Cognitive)
  }

  /** No episode is open. */
  ghost predicate AllOver(episodes: seq<Episode>) {
    forall e | 0 <= e < |episodes| :: episodes[e].state == Nominal
  }

  /** Every earlier episode ended a flap window ago. */
  ghost predicate AllLongOver(cfg: Settings, t: Tables) {
    forall e | 0 <= e < |t.episodes| ::
      t.episodes[e].stamps.recoveredAt.Some? && t.episodes[e].stamps.recoveredAt.value + cfg.flap <= t.now
  }

  const NoLosses: Losses := Losses(Cosmetic, {}, {}, [], {})

  /** A new episode starts now with this loss. */
  ghost predicate Starts(t: Tables, u: Tables, k: nat)
    requires k < |t.transitions|
  {
    var n := |t.episodes|;
    && |u.episodes| == n + 1 && u.episodes[..n] == t.episodes
    && u.episodes[n].state == Degrading
    && u.episodes[n].stamps == Stamps(t.now, None, None, None)
    && u.episodes[n].speech == Speech(None, None, None)
    && Charged(t, k, NoLosses, u.episodes[n].losses)
  }

  /** The loss is added to the last episode, which is in this state then. */
  ghost predicate Adds(t: Tables, u: Tables, k: nat, state: EpisodeState)
    requires k < |t.transitions|
  {
    var n := |t.episodes| - 1;
    && n >= 0 && |u.episodes| == n + 1 && u.episodes[..n] == t.episodes[..n]
    && u.episodes[n].state == state
    && u.episodes[n].stamps == t.episodes[n].stamps.(recoveryStartedAt := None, recoveredAt := None)
    && u.episodes[n].speech == t.episodes[n].speech
    && Charged(t, k, t.episodes[n].losses, u.episodes[n].losses)
  }

  lemma StartCharges(t: Tables, k: nat)
    requires k < |t.transitions| && Degrades(t.transitions[k].impact)
    ensures Starts(t, StartEpisode(t, k), k)
  {
    var u, n := StartEpisode(t, k), |t.episodes|;
    assert u.episodes[..n] == t.episodes;
  }

  lemma {:induction false} MaterialRowsMaterial(rows: seq<Transition>, k: nat)
    requires k <= |rows|
    ensures forall m | m in MaterialRows(rows, k) :: rows[m].material
  {
    if k > 0 { MaterialRowsMaterial(rows, k - 1); }
  }

  /** Only material losses make an episode, so it is at least cognitive. */
  lemma SeverityIsMaterial(cfg: Settings, t: Tables, k: nat, i: nat)
    requires Inv(cfg, t, k) && i < |t.episodes|
    ensures t.episodes[i].losses.severity in {Cognitive, Critical}
  {
    assert EpisodeOk(cfg, t, i);
    CausesIncluded(t.episodes, i);
    MaterialRowsMaterial(t.transitions, k);
    var l := t.episodes[i].losses;
    var m :| m in l.causes && FromImpact(t.transitions[m].impact) == l.severity;
    assert RowOk(t.transitions[m]);
    hide AllCauses, MaterialRows;
  }

  lemma AddCharges(cfg: Settings, t: Tables, k: nat)
    requires Inv(cfg, t, k) && k < |t.transitions| && t.transitions[k].material && t.episodes != []
    ensures var e := t.episodes[|t.episodes| - 1].state;
            Adds(t, AggregateLoss(t, |t.episodes| - 1, k), k, if e == Degrading then Degrading else Degraded)
  {
    NotAmongCauses(cfg, t, k, |t.episodes| - 1);
    SeverityIsMaterial(cfg, t, k, |t.episodes| - 1);
    assert RowOk(t.transitions[k]);
    hide Inv;
  }

  /** A material loss while no episode is open starts one, exactly when every earlier one
      ended at least a flap window ago; otherwise the last one is open again, DEGRADED.
      While an episode is open, the loss is added to it. */
  lemma LossReaction(cfg: Settings, t: Tables, k: nat)
    requires Inv(cfg, t, k) && k < |t.transitions| && t.transitions[k].material
    ensures var u := OnTransition(cfg, t, k);
            && u == t.(episodes := u.episodes)
            && (Starts(t, u, k) <==> AllOver(t.episodes) && AllLongOver(cfg, t))
            && (AllOver(t.episodes) && !AllLongOver(cfg, t) ==> Adds(t, u, k, Degraded))
            && (!AllOver(t.episodes) ==>
                  Adds(t, u, k, if t.episodes[|t.episodes| - 1].state == Degrading then Degrading else Degraded))
  {
    ActiveIsLast(cfg, t);
    RecentIsLast(cfg, t);
    assert RowOk(t.transitions[k]);
    if AllOver(t.episodes) {
      RecentMeans(cfg, t);
      if AllLongOver(cfg, t) { StartCharges(t, k); } else { AddCharges(cfg, t, k); }
    } else {
      AddCharges(cfg, t, k);
    }
    hide Inv, ActiveIndex, RecentRecovered, Charged, Widened, Chained, EpisodesOk;
  }

  lemma RecentMeans(cfg: Settings, t: Tables)
    requires Chained(cfg, t) && EpisodesOk(cfg, t) && AllOver(t.episodes)
    ensures RecentRecovered(cfg, t).None? <==> AllLongOver(cfg, t)
    ensures RecentRecovered(cfg, t).Some? ==> RecentRecovered(cfg, t).value == |t.episodes| - 1
  {
    RecentIsLast(cfg, t);
    ActiveIsLast(cfg, t);
    RecoveredIsLatest(t.episodes);
    hide ActiveIndex, LastRecovered;
    forall e | 0 <= e < |t.episodes| ensures t.episodes[e].stamps.recoveredAt.Some?
        && t.episodes[e].stamps.recoveredAt.value <= t.now {
      assert EpisodeOk(cfg, t, e);
    }
  }

  /** Along every run, for every material row that a report tells the engine of. */
  lemma LossStartsOrReopens(cfg: Settings, run: seq<Tables>, steps: seq<Step>, i: nat, k: nat)
    requires IsRun(cfg, run, steps) && i < |steps| && Reports(run[i], steps[i])
    requires |run[i].transitions| <= k < |run[i].transitions| + |steps[i].updates|
    requires k < |run[i + 1].transitions| && run[i + 1].transitions[k].material
    ensures var t, u := Told(cfg, run[i], steps[i], k), Told(cfg, run[i], steps[i], k + 1);
            && t.transitions == run[i + 1].transitions
            && (Starts(t, u, k) <==> AllOver(t.episodes) && AllLongOver(cfg, t))
            && (AllOver(t.episodes) && !AllLongOver(cfg, t) ==> Adds(t, u, k, Degraded))
            && (!AllOver(t.episodes) ==>
                  Adds(t, u, k, if t.episodes[|t.episodes| - 1].state == Degrading then Degrading else Degraded))
  {
    TellingIsTheStep(cfg, run, steps, i, k);
    LossReaction(cfg, Told(cfg, run[i], steps[i], k), k);
    hide Inv, OnTransition, Starts, Adds, AllOver, AllLongOver, RecordAll;
  }

  // ------------------------------------------------------------------ other transitions

  /** All that an episode waits for is ready. */
  ghost predicate NothingMissing(t: Tables, e: Episode) {
    forall c | c in e.losses.required :: c in t.current && t.current[c] == Ready
  }

  /** What becomes of the last episode when the engine looks at readiness again. */
  ghost predicate Reconsidered(t: Tables, e: Episode, d: Episode) {
    if e.state == Degrading && NothingMissing(t, e)
    then d == e.(state := Nominal, stamps := e.stamps.(recoveredAt := Some(t.now)))
    else if e.state == Degraded && NothingMissing(t, e)
    then d == e.(state := Recovering,
                 stamps := e.stamps.(recoveryStartedAt := Some(t.now), recoveryStartedMono := Some(t.now)))
    else if e.state == Recovering && !NothingMissing(t, e)
    then d == e.(state := Degraded, stamps := e.stamps.(recoveryStartedAt := None, recoveryStartedMono := None))
    else d == e
  }

  /** The last episode is `d` now, and nothing else has changed. */
  ghost predicate LastBecomes(t: Tables, u: Tables, d: Episode) {
    t.episodes != [] && u.episodes == t.episodes[|t.episodes| - 1 := d]
  }

  lemma OtherReaction(cfg: Settings, t: Tables, k: nat)
    requires Inv(cfg, t, k) && k < |t.transitions| && !t.transitions[k].material
    ensures var u := OnTransition(cfg, t, k);
            && u == t.(episodes := u.episodes)
            && if AllOver(t.episodes) then u == t
               else exists d :: LastBecomes(t, u, d) && Reconsidered(t, t.episodes[|t.episodes| - 1], d)
  {
    ActiveIsLast(cfg, t);
    hide Inv, ActiveIndex, RecentRecovered;
    var u := OnTransition(cfg, t, k);
    if !AllOver(t.episodes) {
      var n := |t.episodes| - 1;
      assert u == Reconcile(t, n);
      assert LastBecomes(t, u, u.episodes[n]);
      assert NothingMissing(t, t.episodes[n]) == AllRestored(t, t.episodes[n]);
    }
  }

  /** Any other row makes the engine only look at readiness again. */
  lemma OtherRowsReconsider(cfg: Settings, run: seq<Tables>, steps: seq<Step>, i: nat, k: nat)
    requires IsRun(cfg, run, steps) && i < |steps| && Reports(run[i], steps[i])
    requires |run[i].transitions| <= k < |run[i].transitions| + |steps[i].updates|
    requires k < |run[i + 1].transitions| && !run[i + 1].transitions[k].material
    ensures var t, u := Told(cfg, run[i], steps[i], k), Told(cfg, run[i], steps[i], k + 1);
            if AllOver(t.episodes) then u == t
            else exists d :: LastBecomes(t, u, d) && Reconsidered(t, t.episodes[|t.episodes| - 1], d)
  {
    hide Inv, OnTransition, Reconsidered, LastBecomes, AllOver, RecordAll;
    TellingIsTheStep(cfg, run, steps, i, k);
    var t := Told(cfg, run[i], steps[i], k);
    OtherReaction(cfg, t, k);
    assert Told(cfg, run[i], steps[i], k + 1) == OnTransition(cfg, t, k);
  }

  // ------------------------------------------------------------------------- ticks

  /** What a tick does: at the end of the aggregation window the open episode is DEGRADED
      and announced by one new phrase; at the end of the stability window the recovery is
      finished, with one new phrase unless the episode has one; otherwise nothing changes
      but the clock. */
  ghost predicate Ticks(cfg: Settings, t: Tables, at: int, u: Tables) {
    var n, m := |t.episodes| - 1, |t.outbox|;
    if n >= 0 && t.episodes[n].state == Degrading && t.episodes[n].stamps.startedAt + cfg.aggregation <= at then
      && LastBecomes(t, u, t.episodes[n].(state := Degraded,
                           speech := t.episodes[n].speech.(aggregationClosedAt := Some(at), phrase := Some(m))))
      && u.outbox == t.outbox + [Phrase(DegradationPhrase, n, at)]
    else if n >= 0 && t.episodes[n].state == Recovering && t.episodes[n].stamps.recoveryStartedMono.Some?
            && t.episodes[n].stamps.recoveryStartedMono.value + cfg.stability <= at then
      var d := t.episodes[n].(state := Nominal, stamps := t.episodes[n].stamps.(recoveredAt := Some(at)));
      if t.episodes[n].speech.recoveryPhrase.Some? then LastBecomes(t, u, d) && u.outbox == t.outbox
      else
        && LastBecomes(t, u, d.(speech := d.speech.(recoveryPhrase := Some(m))))
        && u.outbox == t.outbox + [Phrase(RecoveryPhrase, n, at)]
    else u.episodes == t.episodes && u.outbox == t.outbox
  }

  lemma TickReaction(cfg: Settings, t: Tables)
    requires Stable(cfg, t)
    ensures Ticks(cfg, t, t.now, Ticked(cfg, t))
    ensures Ticked(cfg, t) == t.(episodes := Ticked(cfg, t).episodes, outbox := Ticked(cfg, t).outbox)
  {
    ActiveIsLast(cfg, t);
    hide ActiveIndex, InsertOrIgnore;
    if ActiveIndex(t.episodes).Some? {
      var n := |t.episodes| - 1;
      assert EpisodeOk(cfg, t, n);
      if t.episodes[n].state == Degrading {
        EnterOutbox(cfg, t, n);
      } else if t.episodes[n].state == Recovering {
        FinishOutbox(cfg, t, n);
      }
    }
  }

  lemma TickSpelledOut(cfg: Settings, run: seq<Tables>, steps: seq<Step>, i: nat)
    requires IsRun(cfg, run, steps) && i < |steps| && steps[i].Tick?
    ensures Ticks(cfg, run[i], steps[i].at, run[i + 1])
    ensures run[i + 1] == run[i].(now := steps[i].at, episodes := run[i + 1].episodes, outbox := run[i + 1].outbox)
  {
    RunStable(cfg, run, steps, i);
    var v := run[i].(now := steps[i].at);
    LaterKeeps(cfg, run[i], v);
    hide Stable;
    TickReaction(cfg, v);
    hide Ticked;
  }
}
