/** What every transaction of the degradation engine keeps. */
module DegradationInvariants {
  import opened Wrappers
  import opened Capabilities
  import opened Degradation

  predicate RowOk(row: Transition) {
    row.material ==> !row.expected && IsLoss(row.current) && Degrades(row.impact)
  }

  ghost predicate RowsOk(t: Tables) {
    forall k | 0 <= k < |t.transitions| :: RowOk(t.transitions[k])
  }

  ghost predicate LostExplained(rows: seq<Transition>, l: Losses)
    requires forall k | k in l.causes :: k < |rows|
  {
    && (forall k | k in l.causes :: rows[k].capability in l.lost)
    && (forall c | c in l.lost :: exists k | k in l.causes :: rows[k].capability == c)
  }

  ghost predicate TasksExplained(rows: seq<Transition>, l: Losses)
    requires forall k | k in l.causes :: k < |rows|
  {
    && (forall k | k in l.causes :: TaskSet(rows[k].task) <= l.tasks)
    && (forall x | x in l.tasks :: exists k | k in l.causes :: rows[k].task == Some(x))
  }

  ghost predicate SeverityExplained(rows: seq<Transition>, l: Losses)
    requires forall k | k in l.causes :: k < |rows|
  {
    && (forall k | k in l.causes :: Rank(FromImpact(rows[k].impact)) <= Rank(l.severity))
    && (exists k | k in l.causes :: FromImpact(rows[k].impact) == l.severity)
  }

  /** Lost capabilities, affected tasks and severity of an episode are exactly those
      of the rows that caused it. */
  ghost predicate Explained(rows: seq<Transition>, l: Losses) {
    && l.causes != []
    && (forall k | k in l.causes :: k < |rows|)
    && LostExplained(rows, l) && TasksExplained(rows, l) && SeverityExplained(rows, l)
    && l.lost <= l.required
  }

  /** The phrase row an episode points at is its own, and was created no sooner
      than the aggregation window allows. */
  ghost predicate PhraseOk(cfg: Settings, t: Tables, i: nat)
    requires i < |t.episodes|
  {
    var e := t.episodes[i];
    && (e.speech.phrase.Some? <==> e.speech.aggregationClosedAt.Some?)
    && (e.speech.phrase.Some? ==>
          && e.state != Degrading
          && e.speech.phrase.value < |t.outbox|
          && var p := t.outbox[e.speech.phrase.value];
             && p.kind == DegradationPhrase && p.episode == i
             && e.stamps.startedAt + cfg.aggregation <= p.createdAt
             && (e.state == Recovering && e.stamps.recoveryStartedMono.Some?
                 ==> p.createdAt <= e.stamps.recoveryStartedMono.value)
             && (e.stamps.recoveredAt.Some? ==> p.createdAt + cfg.stability <= e.stamps.recoveredAt.value))
    && (e.speech.recoveryPhrase.Some? ==>
          && e.state != Degrading
          && e.speech.recoveryPhrase.value < |t.outbox|
          && t.outbox[e.speech.recoveryPhrase.value].kind == RecoveryPhrase
          && t.outbox[e.speech.recoveryPhrase.value].episode == i)
  }

  ghost predicate EpisodeOk(cfg: Settings, t: Tables, i: nat)
    requires i < |t.episodes|
  {
    var e := t.episodes[i];
    && e.stamps.startedAt <= t.now
    && (e.state == Nominal <==> e.stamps.recoveredAt.Some?)
    && (e.stamps.recoveredAt.Some? ==> e.stamps.startedAt <= e.stamps.recoveredAt.value <= t.now)
    && (e.state == Recovering ==> e.stamps.recoveryStartedMono.Some? && e.stamps.recoveryStartedMono.value <= t.now)
    && PhraseOk(cfg, t, i)
    && Explained(t.transitions, e.losses)
  }

  ghost predicate EpisodesOk(cfg: Settings, t: Tables) {
    forall i | 0 <= i < |t.episodes| :: EpisodeOk(cfg, t, i)
  }

  /** Every episode but the last is over, and the next began a flap window later. */
  ghost predicate Chained(cfg: Settings, t: Tables) {
    forall i, j | 0 <= i < j < |t.episodes| ::
      && t.episodes[i].state == Nominal && t.episodes[i].stamps.recoveredAt.Some?
      && t.episodes[i].stamps.recoveredAt.value + cfg.flap <= t.episodes[j].stamps.startedAt
  }

  ghost predicate OutboxOk(t: Tables) {
    && (forall a | 0 <= a < |t.outbox| ::
          && t.outbox[a].episode < |t.episodes|
          && t.outbox[a].createdAt <= t.now
          && match t.outbox[a].kind
             case DegradationPhrase => t.episodes[t.outbox[a].episode].speech.phrase == Some(a)
             case RecoveryPhrase => t.episodes[t.outbox[a].episode].speech.recoveryPhrase == Some(a))
    && (forall a, b | 0 <= a < b < |t.outbox| :: t.outbox[a].createdAt <= t.outbox[b].createdAt)
  }

  function AllCauses(episodes: seq<Episode>): seq<nat> {
    if episodes == [] then [] else AllCauses(episodes[..|episodes| - 1]) + episodes[|episodes| - 1].losses.causes
  }

  /** The positions below `k` of the material rows, in order. */
  function MaterialRows(rows: seq<Transition>, k: nat): (r: seq<nat>)
    requires k <= |rows|
    ensures forall m | m in r :: m < k
  {
    if k == 0 then [] else
      MaterialRows(rows, k - 1) + (if rows[k - 1].material then [k - 1] else [])
  }

  /** The invariant when the rows below `k` have been handed to the engine. */
  ghost predicate Inv(cfg: Settings, t: Tables, k: nat) {
    && k <= |t.transitions|
    && RowsOk(t)
    && EpisodesOk(cfg, t)
    && Chained(cfg, t)
    && OutboxOk(t)
    && AllCauses(t.episodes) == MaterialRows(t.transitions, k)
  }

  /** An open episode's state agrees with the readiness of what it requires. */
  ghost predicate Settled(t: Tables) {
    forall i | 0 <= i < |t.episodes| ::
      && (t.episodes[i].state in {Degrading, Degraded} ==> !AllRestored(t, t.episodes[i]))
      && (t.episodes[i].state == Recovering ==> AllRestored(t, t.episodes[i]))
  }

  // ------------------------------------------------------- which row is touched

  lemma ActiveIsLast(cfg: Settings, t: Tables)
    requires Chained(cfg, t)
    ensures ActiveIndex(t.episodes).Some? ==> ActiveIndex(t.episodes).value == |t.episodes| - 1
    ensures ActiveIndex(t.episodes).None? <==> forall i | 0 <= i < |t.episodes| :: t.episodes[i].state == Nominal
  {
    ActiveIsLatest(t.episodes);
  }

  /** For a zero flap window nothing is re-opened; otherwise only the last episode is. */
  lemma RecentIsLast(cfg: Settings, t: Tables)
    requires Chained(cfg, t) && EpisodesOk(cfg, t)
    ensures RecentRecovered(cfg, t).Some? ==> RecentRecovered(cfg, t).value == |t.episodes| - 1
    ensures ActiveIndex(t.episodes).None? && RecentRecovered(cfg, t).None? ==>
              forall i | 0 <= i < |t.episodes| ::
                t.episodes[i].stamps.recoveredAt.Some? && t.episodes[i].stamps.recoveredAt.value + cfg.flap <= t.now
  {
    ActiveIsLatest(t.episodes);
    RecoveredIsLatest(t.episodes);
    hide ActiveIndex, LastRecovered;
    var last := LastRecovered(t.episodes);
    var n := |t.episodes|;
    if n > 0 {
      assert EpisodeOk(cfg, t, n - 1);
      if last.Some? {
        assert EpisodeOk(cfg, t, last.value);
      }
      if ActiveIndex(t.episodes).None? && RecentRecovered(cfg, t).None? {
        assert t.episodes[n - 1].state == Nominal;
        forall i | 0 <= i < n ensures t.episodes[i].stamps.recoveredAt.Some?
            && t.episodes[i].stamps.recoveredAt.value + cfg.flap <= t.now {
          assert EpisodeOk(cfg, t, i);
        }
      }
    }
  }

  // ---------------------------------------------------------- the transactions

  lemma CausesOfReplacedLast(episodes: seq<Episode>, e: Episode)
    requires episodes != []
    ensures AllCauses(episodes[|episodes| - 1 := e]) == AllCauses(episodes[..|episodes| - 1]) + e.losses.causes
  {
    var n := |episodes| - 1;
    assert episodes[n := e][..n] == episodes[..n];
  }

  /** The row touched is the last one, and it keeps its causes and its start. */
  ghost predicate TouchesLast(t: Tables, u: Tables) {
    && t.episodes != [] && |u.episodes| == |t.episodes|
    && u.transitions == t.transitions && u.now == t.now
    && t.outbox <= u.outbox
    && (forall i | 0 <= i < |t.episodes| - 1 :: u.episodes[i] == t.episodes[i])
    && u.episodes[|t.episodes| - 1].losses.causes == t.episodes[|t.episodes| - 1].losses.causes
    && u.episodes[|t.episodes| - 1].stamps.startedAt == t.episodes[|t.episodes| - 1].stamps.startedAt
  }

  lemma TouchKeeps(cfg: Settings, t: Tables, u: Tables, k: nat)
    requires Inv(cfg, t, k) && TouchesLast(t, u)
    requires EpisodeOk(cfg, u, |t.episodes| - 1) && OutboxOk(u)
    ensures Inv(cfg, u, k)
  {
    var n := |t.episodes| - 1;
    assert u.episodes == t.episodes[n := u.episodes[n]];
    CausesOfReplacedLast(t.episodes, u.episodes[n]);
    forall i | 0 <= i < |u.episodes| ensures EpisodeOk(cfg, u, i) {
      assert EpisodeOk(cfg, t, i);
    }
  }

  lemma CancelEpisode(cfg: Settings, t: Tables)
    requires EpisodesOk(cfg, t) && OutboxOk(t) && t.episodes != [] && t.episodes[|t.episodes| - 1].state == Degrading
    ensures EpisodeOk(cfg, CancelTransient(t, |t.episodes| - 1), |t.episodes| - 1)
    ensures OutboxOk(CancelTransient(t, |t.episodes| - 1))
  {
    assert EpisodeOk(cfg, t, |t.episodes| - 1);
  }

  lemma CancelKeeps(cfg: Settings, t: Tables, k: nat)
    requires Inv(cfg, t, k) && t.episodes != [] && t.episodes[|t.episodes| - 1].state == Degrading
    ensures Inv(cfg, CancelTransient(t, |t.episodes| - 1), k)
  {
    CancelEpisode(cfg, t);
    hide Inv, EpisodeOk, OutboxOk;
    TouchKeeps(cfg, t, CancelTransient(t, |t.episodes| - 1), k);
  }

  lemma StartRecoveryEpisode(cfg: Settings, t: Tables)
    requires EpisodesOk(cfg, t) && OutboxOk(t) && t.episodes != [] && t.episodes[|t.episodes| - 1].state == Degraded
    ensures EpisodeOk(cfg, StartRecovery(t, |t.episodes| - 1), |t.episodes| - 1)
    ensures OutboxOk(StartRecovery(t, |t.episodes| - 1))
  {
    assert EpisodeOk(cfg, t, |t.episodes| - 1);
  }

  lemma StartRecoveryKeeps(cfg: Settings, t: Tables, k: nat)
    requires Inv(cfg, t, k) && t.episodes != [] && t.episodes[|t.episodes| - 1].state == Degraded
    ensures Inv(cfg, StartRecovery(t, |t.episodes| - 1), k)
  {
    StartRecoveryEpisode(cfg, t);
    hide Inv, EpisodeOk, OutboxOk;
    TouchKeeps(cfg, t, StartRecovery(t, |t.episodes| - 1), k);
  }

  lemma ReturnEpisode(cfg: Settings, t: Tables)
    requires EpisodesOk(cfg, t) && OutboxOk(t) && t.episodes != [] && t.episodes[|t.episodes| - 1].state == Recovering
    ensures EpisodeOk(cfg, ReturnToDegraded(t, |t.episodes| - 1), |t.episodes| - 1)
    ensures OutboxOk(ReturnToDegraded(t, |t.episodes| - 1))
  {
    assert EpisodeOk(cfg, t, |t.episodes| - 1);
  }

  lemma ReturnKeeps(cfg: Settings, t: Tables, k: nat)
    requires Inv(cfg, t, k) && t.episodes != [] && t.episodes[|t.episodes| - 1].state == Recovering
    ensures Inv(cfg, ReturnToDegraded(t, |t.episodes| - 1), k)
  {
    ReturnEpisode(cfg, t);
    hide Inv, EpisodeOk, OutboxOk;
    TouchKeeps(cfg, t, ReturnToDegraded(t, |t.episodes| - 1), k);
  }

  /** Closing the aggregation window adds the episode's one degradation phrase. */
  lemma EnterOutbox(cfg: Settings, t: Tables, i: nat)
    requires OutboxOk(t) && EpisodesOk(cfg, t) && i < |t.episodes| && t.episodes[i].state == Degrading
    ensures EnterDegraded(t, i).outbox == t.outbox + [Phrase(DegradationPhrase, i, t.now)]
    ensures t.episodes[i].speech.phrase.None?
  {
    assert EpisodeOk(cfg, t, i);
    assert !HasPhrase(t.outbox, DegradationPhrase, i);
  }

  lemma EnterEpisode(cfg: Settings, t: Tables)
    requires EpisodesOk(cfg, t) && OutboxOk(t) && t.episodes != [] && t.episodes[|t.episodes| - 1].state == Degrading
    requires t.now - t.episodes[|t.episodes| - 1].stamps.startedAt >= cfg.aggregation
    ensures EpisodeOk(cfg, EnterDegraded(t, |t.episodes| - 1), |t.episodes| - 1)
    ensures OutboxOk(EnterDegraded(t, |t.episodes| - 1))
  {
    var n := |t.episodes| - 1;
    EnterOutbox(cfg, t, n);
    assert EpisodeOk(cfg, t, n);
    var u := EnterDegraded(t, n);
    forall a | 0 <= a < |t.outbox| ensures u.outbox[a] == t.outbox[a] {}
  }

  lemma EnterKeeps(cfg: Settings, t: Tables, k: nat)
    requires Inv(cfg, t, k) && t.episodes != [] && t.episodes[|t.episodes| - 1].state == Degrading
    requires t.now - t.episodes[|t.episodes| - 1].stamps.startedAt >= cfg.aggregation
    ensures Inv(cfg, EnterDegraded(t, |t.episodes| - 1), k)
  {
    EnterEpisode(cfg, t);
    hide Inv, EpisodeOk, OutboxOk;
    TouchKeeps(cfg, t, EnterDegraded(t, |t.episodes| - 1), k);
  }

  /** Finishing adds a recovery phrase exactly when the episode has none yet. */
  lemma FinishOutbox(cfg: Settings, t: Tables, i: nat)
    requires OutboxOk(t) && EpisodesOk(cfg, t) && i < |t.episodes|
    ensures FinishRecovery(t, i).outbox ==
            if t.episodes[i].speech.recoveryPhrase.Some? then t.outbox
                else t.outbox + [Phrase(RecoveryPhrase, i, t.now)]
  {
    assert EpisodeOk(cfg, t, i);
    if t.episodes[i].speech.recoveryPhrase.Some? {
      var a := t.episodes[i].speech.recoveryPhrase.value;
      assert t.outbox[a].kind == RecoveryPhrase && t.outbox[a].episode == i;
    }
  }

  lemma FinishEpisode(cfg: Settings, t: Tables)
    requires EpisodesOk(cfg, t) && OutboxOk(t) && t.episodes != [] && t.episodes[|t.episodes| - 1].state == Recovering
    requires Elapsed(t.episodes[|t.episodes| - 1].stamps.recoveryStartedMono,
             t.episodes[|t.episodes| - 1].stamps.recoveryStartedAt, t.now) >= cfg.stability
    ensures EpisodeOk(cfg, FinishRecovery(t, |t.episodes| - 1), |t.episodes| - 1)
    ensures OutboxOk(FinishRecovery(t, |t.episodes| - 1))
  {
    var n := |t.episodes| - 1;
    FinishOutbox(cfg, t, n);
    FinishedOutboxOk(cfg, t, n);
    assert EpisodeOk(cfg, t, n);
    var u := FinishRecovery(t, n);
    if t.episodes[n].speech.phrase.Some? {
      assert u.outbox[t.episodes[n].speech.phrase.value] == t.outbox[t.episodes[n].speech.phrase.value];
    }
    hide OutboxOk, Explained, InsertOrIgnore, EpisodesOk;
  }

  lemma FinishedOutboxOk(cfg: Settings, t: Tables, i: nat)
    requires EpisodesOk(cfg, t) && OutboxOk(t) && i < |t.episodes|
    ensures OutboxOk(FinishRecovery(t, i))
  {
    FinishOutbox(cfg, t, i);
    hide EpisodesOk, InsertOrIgnore;
    var u := FinishRecovery(t, i);
    forall a | 0 <= a < |t.outbox| ensures u.outbox[a] == t.outbox[a] {}
  }

  lemma FinishKeeps(cfg: Settings, t: Tables, k: nat)
    requires Inv(cfg, t, k) && t.episodes != [] && t.episodes[|t.episodes| - 1].state == Recovering
    requires Elapsed(t.episodes[|t.episodes| - 1].stamps.recoveryStartedMono,
             t.episodes[|t.episodes| - 1].stamps.recoveryStartedAt, t.now) >= cfg.stability
    ensures Inv(cfg, FinishRecovery(t, |t.episodes| - 1), k)
  {
    FinishEpisode(cfg, t);
    hide Inv, EpisodeOk, OutboxOk;
    TouchKeeps(cfg, t, FinishRecovery(t, |t.episodes| - 1), k);
  }

  lemma ReconcileKeeps(cfg: Settings, t: Tables, k: nat)
    requires Inv(cfg, t, k) && t.episodes != [] && t.episodes[|t.episodes| - 1].state != Nominal
    ensures Inv(cfg, Reconcile(t, |t.episodes| - 1), k)
    ensures Settled(Reconcile(t, |t.episodes| - 1))
  {
    var n := |t.episodes| - 1;
    if !AllRestored(t, t.episodes[n]) {
      if t.episodes[n].state == Recovering { ReturnKeeps(cfg, t, k); }
    } else if t.episodes[n].state == Degrading { CancelKeeps(cfg, t, k); }
    else if t.episodes[n].state == Degraded { StartRecoveryKeeps(cfg, t, k); }
    var u := Reconcile(t, n);
    forall i | 0 <= i < n ensures u.episodes[i].state == Nominal {
      assert t.episodes[i].state == Nominal;
    }
    assert u.episodes[n].losses.required == t.episodes[n].losses.required && u.current == t.current;
    assert AllRestored(u, u.episodes[n]) <==> AllRestored(t, t.episodes[n]);
  }

  lemma NotAmongCauses(cfg: Settings, t: Tables, k: nat, i: nat)
    requires Inv(cfg, t, k) && i < |t.episodes|
    ensures k !in t.episodes[i].losses.causes
  {
    CausesIncluded(t.episodes, i);
  }

  lemma CausesIncluded(episodes: seq<Episode>, i: nat)
    requires i < |episodes|
    ensures forall m | m in episodes[i].losses.causes :: m in AllCauses(episodes)
  {
    var n := |episodes| - 1;
    if i < n {
      assert episodes[..n][i] == episodes[i];
      CausesIncluded(episodes[..n], i);
    }
  }

  /** What a new row leaves as it was. */
  lemma StartFields(t: Tables, k: nat)
    requires k < |t.transitions|
    ensures var u, n := StartEpisode(t, k), |t.episodes|;
            && |u.episodes| == n + 1 && u.episodes[..n] == t.episodes
            && (forall i | 0 <= i < n :: u.episodes[i] == t.episodes[i])
            && u.now == t.now && u.outbox == t.outbox && u.transitions == t.transitions
            && u.episodes[n].losses.causes == [k] && u.episodes[n].stamps.startedAt == t.now
  {
    hide RequiredSnapshot;
  }

  lemma StartEpisodeOk(cfg: Settings, t: Tables, k: nat)
    requires k < |t.transitions|
    ensures EpisodeOk(cfg, StartEpisode(t, k), |t.episodes|)
  {
    hide NominallyRequired, TaskRequirements;
    var u, n := StartEpisode(t, k), |t.episodes|;
    assert k in u.episodes[n].losses.causes;
  }

  lemma StartChained(cfg: Settings, t: Tables, k: nat)
    requires Chained(cfg, t) && EpisodesOk(cfg, t) && k < |t.transitions|
    requires ActiveIndex(t.episodes).None? && RecentRecovered(cfg, t).None?
    ensures Chained(cfg, StartEpisode(t, k))
  {
    RecentIsLast(cfg, t);
    ActiveIsLast(cfg, t);
    StartFields(t, k);
    hide EpisodesOk, ActiveIndex, RecentRecovered, StartEpisode;
  }

  lemma StartOutbox(t: Tables, k: nat)
    requires OutboxOk(t) && k < |t.transitions|
    ensures OutboxOk(StartEpisode(t, k))
  {
    StartFields(t, k);
    hide StartEpisode;
  }

  lemma StartKeeps(cfg: Settings, t: Tables, k: nat)
    requires Inv(cfg, t, k) && k < |t.transitions| && t.transitions[k].material
    requires ActiveIndex(t.episodes).None? && RecentRecovered(cfg, t).None?
    ensures Inv(cfg, StartEpisode(t, k), k + 1)
  {
    hide StartEpisode, ActiveIndex, RecentRecovered, Chained, EpisodeOk, OutboxOk, RowOk;
    StartFields(t, k);
    StartEpisodeOk(cfg, t, k);
    StartChained(cfg, t, k);
    StartOutbox(t, k);
    var u, n := StartEpisode(t, k), |t.episodes|;
    forall i | 0 <= i < |u.episodes| ensures EpisodeOk(cfg, u, i) {
      if i < n { EarlierRow(cfg, t, u, i); }
    }
  }

  lemma AggregateCauses(cfg: Settings, t: Tables, k: nat)
    requires Inv(cfg, t, k) && k < |t.transitions| && t.transitions[k].material && t.episodes != []
    ensures AllCauses(AggregateLoss(t, |t.episodes| - 1, k).episodes) == MaterialRows(t.transitions, k + 1)
  {
    var n := |t.episodes| - 1;
    NotAmongCauses(cfg, t, k, n);
    var u := AggregateLoss(t, n, k);
    assert u.episodes[n].losses.causes == t.episodes[n].losses.causes + [k];
    CausesOfReplacedLast(t.episodes, u.episodes[n]);
    assert AllCauses(t.episodes) == AllCauses(t.episodes[..n]) + t.episodes[n].losses.causes;
  }

  lemma AggregateKeeps(cfg: Settings, t: Tables, k: nat)
    requires Inv(cfg, t, k) && k < |t.transitions| && t.transitions[k].material && t.episodes != []
    ensures Inv(cfg, AggregateLoss(t, |t.episodes| - 1, k), k + 1)
  {
    var n := |t.episodes| - 1;
    AggregateCauses(cfg, t, k);
    AggregateEpisode(cfg, t, k);
    AggregateOutbox(cfg, t, k);
    AggregateChained(cfg, t, k);
    var u := AggregateLoss(t, n, k);
    hide AggregateLoss, Chained, EpisodeOk, OutboxOk, AllCauses, MaterialRows, RowOk;
    forall i | 0 <= i < |u.episodes| ensures EpisodeOk(cfg, u, i) {
      if i < n { EarlierRow(cfg, t, u, i); }
    }
  }

  lemma AggregateChained(cfg: Settings, t: Tables, k: nat)
    requires Chained(cfg, t) && k < |t.transitions| && t.episodes != []
    ensures var u := AggregateLoss(t, |t.episodes| - 1, k);
            && Chained(cfg, u) && |u.episodes| == |t.episodes|
            && u.now == t.now && u.outbox == t.outbox && u.transitions == t.transitions
            && forall i | 0 <= i < |t.episodes| - 1 :: u.episodes[i] == t.episodes[i]
  {
    hide Widened;
  }

  lemma EarlierRow(cfg: Settings, t: Tables, u: Tables, i: nat)
    requires EpisodesOk(cfg, t) && i < |t.episodes| && i < |u.episodes| && u.episodes[i] == t.episodes[i]
    requires u.now == t.now && u.outbox == t.outbox && u.transitions == t.transitions
    ensures EpisodeOk(cfg, u, i)
  {
    assert EpisodeOk(cfg, t, i);
  }

  lemma AggregateOutbox(cfg: Settings, t: Tables, k: nat)
    requires OutboxOk(t) && k < |t.transitions| && t.episodes != []
    ensures OutboxOk(AggregateLoss(t, |t.episodes| - 1, k))
  {
  }

  lemma AggregateEpisode(cfg: Settings, t: Tables, k: nat)
    requires EpisodesOk(cfg, t) && k < |t.transitions| && t.episodes != []
    ensures EpisodeOk(cfg, AggregateLoss(t, |t.episodes| - 1, k), |t.episodes| - 1)
  {
    var n := |t.episodes| - 1;
    assert EpisodeOk(cfg, t, n);
    WidenedExplained(t, t.episodes[n].losses, k);
  }

  lemma WidenedLost(t: Tables, l: Losses, k: nat)
    requires k < |t.transitions| && Explained(t.transitions, l)
    ensures LostExplained(t.transitions, Widened(t, l, k))
  {
    hide RequiredSnapshot, FromImpact, TaskSet, Maximum, TasksExplained, SeverityExplained;
    var d := Widened(t, l, k);
    assert k in d.causes;
    forall c | c in l.lost ensures exists m | m in d.causes :: t.transitions[m].capability == c {
      var m :| m in l.causes && t.transitions[m].capability == c;
      assert m in d.causes;
    }
  }

  lemma WidenedTasks(t: Tables, l: Losses, k: nat)
    requires k < |t.transitions| && Explained(t.transitions, l)
    ensures TasksExplained(t.transitions, Widened(t, l, k))
  {
    hide RequiredSnapshot, FromImpact, Maximum, LostExplained, SeverityExplained;
    var d := Widened(t, l, k);
    assert k in d.causes;
    forall x | x in l.tasks ensures exists m | m in d.causes :: t.transitions[m].task == Some(x) {
      var m :| m in l.causes && t.transitions[m].task == Some(x);
      assert m in d.causes;
    }
  }

  lemma WidenedSeverity(t: Tables, l: Losses, k: nat)
    requires k < |t.transitions| && Explained(t.transitions, l)
    ensures SeverityExplained(t.transitions, Widened(t, l, k))
  {
    hide RequiredSnapshot, FromImpact, TaskSet, LostExplained, TasksExplained;
    var d := Widened(t, l, k);
    assert k in d.causes;
    var s :| s in l.causes && FromImpact(t.transitions[s].impact) == l.severity;
    assert s in d.causes;
  }

  lemma WidenedExplained(t: Tables, l: Losses, k: nat)
    requires k < |t.transitions| && Explained(t.transitions, l)
    ensures Explained(t.transitions, Widened(t, l, k))
  {
    hide LostExplained, TasksExplained, SeverityExplained, FromImpact, Maximum, TaskSet, NominallyRequired,
        TaskRequirements;
    WidenedLost(t, l, k);
    WidenedTasks(t, l, k);
    WidenedSeverity(t, l, k);
  }

  lemma OnTransitionKeeps(cfg: Settings, t: Tables, k: nat)
    requires Inv(cfg, t, k) && k < |t.transitions|
    ensures Inv(cfg, OnTransition(cfg, t, k), k + 1)
  {
    ActiveIsLast(cfg, t);
    RecentIsLast(cfg, t);
    var row := t.transitions[k];
    assert RowOk(row);
    var active := ActiveIndex(t.episodes);
    if row.current == Ready || !row.material || row.expected {
      assert !row.material;
      if active.Some? { ReconcileKeeps(cfg, t, k); }
      InvSkips(cfg, OnTransition(cfg, t, k), k);
    } else {
      var target := if active.Some? then active else RecentRecovered(cfg, t);
      if target.None? { StartKeeps(cfg, t, k); } else { AggregateKeeps(cfg, t, k); }
    }
  }

  lemma InvSkips(cfg: Settings, t: Tables, k: nat)
    requires Inv(cfg, t, k) && k < |t.transitions| && !t.transitions[k].material
    ensures Inv(cfg, t, k + 1)
  {
  }

  /** Reacting to the row that set the capability's present state settles the episode. */
  lemma OnTransitionSettles(cfg: Settings, t: Tables, k: nat)
    requires Inv(cfg, t, k) && k < |t.transitions|
    requires t.transitions[k].capability in t.current
             && t.current[t.transitions[k].capability] == t.transitions[k].current
    ensures Settled(OnTransition(cfg, t, k))
  {
    ActiveIsLast(cfg, t);
    RecentIsLast(cfg, t);
    var row := t.transitions[k];
    assert RowOk(row);
    if row.current == Ready || !row.material || row.expected {
      if ActiveIndex(t.episodes).Some? { ReconcileKeeps(cfg, t, k); }
    } else {
      var active := ActiveIndex(t.episodes);
      var target := if active.Some? then active else RecentRecovered(cfg, t);
      if target.None? {
        LossSettles(t, StartEpisode(t, k), k);
      } else {
        LossSettles(t, AggregateLoss(t, |t.episodes| - 1, k), k);
      }
    }
    hide Inv, ActiveIndex, RecentRecovered, Reconcile, Settled;
  }

  /** After a loss is charged, only the last row can be open, and it waits for
      the lost capability. */
  lemma LossSettles(t: Tables, u: Tables, k: nat)
    requires k < |t.transitions| && u.current == t.current && u.episodes != []
    requires t.transitions[k].capability !in t.current || t.current[t.transitions[k].capability] != Ready
    requires t.transitions[k].capability in u.episodes[|u.episodes| - 1].losses.required
    requires u.episodes[|u.episodes| - 1].state in {Degrading, Degraded}
    requires forall i | 0 <= i < |u.episodes| - 1 :: u.episodes[i].state == Nominal
    ensures Settled(u)
  {
    assert !IsReady(u, t.transitions[k].capability);
  }

  lemma TickKeeps(cfg: Settings, t: Tables, k: nat)
    requires Inv(cfg, t, k)
    ensures Inv(cfg, Ticked(cfg, t), k)
    ensures Ticked(cfg, t).transitions == t.transitions
  {
    ActiveIsLast(cfg, t);
    if ActiveIndex(t.episodes).Some? {
      var e := t.episodes[|t.episodes| - 1];
      assert EpisodeOk(cfg, t, |t.episodes| - 1);
      if e.state == Degrading {
        if AllRestored(t, e) { CancelKeeps(cfg, t, k); }
        else if t.now - e.stamps.startedAt >= cfg.aggregation { EnterKeeps(cfg, t, k); }
      } else if e.state == Recovering {
        if !AllRestored(t, e) { ReturnKeeps(cfg, t, k); }
        else if Elapsed(e.stamps.recoveryStartedMono, e.stamps.recoveryStartedAt, t.now) >= cfg.stability {
          FinishKeeps(cfg, t, k);
        }
      }
    }
    hide Inv, ActiveIndex, AllRestored, InsertOrIgnore;
  }

  lemma TickSettled(cfg: Settings, t: Tables, k: nat)
    requires Inv(cfg, t, k) && Settled(t)
    ensures Settled(Ticked(cfg, t))
  {
    ActiveIsLast(cfg, t);
    hide Inv, ActiveIndex;
    TickChanges(cfg, t);
    var u := Ticked(cfg, t);
    hide Ticked;
    forall i | 0 <= i < |t.episodes| ensures AllRestored(u, u.episodes[i]) <==> AllRestored(t, t.episodes[i]) {
      assert u.episodes[i].losses.required == t.episodes[i].losses.required;
    }
  }

  /** One row is touched: its required set stays and its state becomes `state`. */
  ghost predicate Moves(t: Tables, u: Tables, i: nat, state: EpisodeState) {
    && |u.episodes| == |t.episodes| && u.current == t.current && i < |t.episodes|
    && u.episodes[i].losses == t.episodes[i].losses && u.episodes[i].state == state
    && forall j | 0 <= j < |t.episodes| && j != i :: u.episodes[j] == t.episodes[j]
  }

  lemma TransactionsMove(t: Tables, i: nat)
    requires i < |t.episodes|
    ensures Moves(t, CancelTransient(t, i), i, Nominal)
    ensures Moves(t, EnterDegraded(t, i), i, Degraded)
    ensures Moves(t, StartRecovery(t, i), i, Recovering)
    ensures Moves(t, ReturnToDegraded(t, i), i, Degraded)
    ensures Moves(t, FinishRecovery(t, i), i, Nominal)
  {
    hide InsertOrIgnore;
  }

  /** A tick opens or widens nothing, and closes only what is restored. */
  lemma TickChanges(cfg: Settings, t: Tables)
    ensures var u := Ticked(cfg, t);
            && |u.episodes| == |t.episodes| && u.current == t.current
            && forall i | 0 <= i < |t.episodes| ::
                 && u.episodes[i].losses.required == t.episodes[i].losses.required
                 && (u.episodes[i].state == t.episodes[i].state
                     || u.episodes[i].state == Nominal
                     || (u.episodes[i].state == Degraded && !AllRestored(t, t.episodes[i])))
  {
    if ActiveIndex(t.episodes).Some? {
      TransactionsMove(t, ActiveIndex(t.episodes).value);
    }
    hide AllRestored, ActiveIndex, Elapsed, CancelTransient, EnterDegraded, ReturnToDegraded, FinishRecovery;
  }

  // --------------------------------------------------------------- whole steps

  lemma MaterialRowsExtend(rows: seq<Transition>, more: seq<Transition>, k: nat)
    requires k <= |rows| && rows <= more
    ensures MaterialRows(more, k) == MaterialRows(rows, k)
  {
    if k > 0 { MaterialRowsExtend(rows, more, k - 1); }
  }

  lemma RecordKeeps(cfg: Settings, t: Tables, k: nat, u: Update)
    requires Inv(cfg, t, k) && u.capability in t.definitions
    ensures Inv(cfg, Recorded(t, u.capability, u.target, u.task, u.expected), k)
  {
    var v := Recorded(t, u.capability, u.target, u.task, u.expected);
    MaterialRowsExtend(t.transitions, v.transitions, k);
    forall i | 0 <= i < |v.episodes| ensures EpisodeOk(cfg, v, i) {
      assert EpisodeOk(cfg, t, i);
      ExplainedExtends(t.transitions, v.transitions, t.episodes[i].losses);
    }
    assert OutboxOk(v);
  }

  lemma ExplainedExtends(rows: seq<Transition>, more: seq<Transition>, l: Losses)
    requires rows <= more && Explained(rows, l)
    ensures Explained(more, l)
  {
    assert forall m | m in l.causes :: more[m] == rows[m];
    hide FromImpact, TaskSet;
    assert LostExplained(more, l) by {
      forall c | c in l.lost ensures exists k | k in l.causes :: more[k].capability == c {
        var k :| k in l.causes && rows[k].capability == c;
        assert more[k].capability == c;
      }
    }
    assert TasksExplained(more, l) by {
      forall x | x in l.tasks ensures exists k | k in l.causes :: more[k].task == Some(x) {
        var k :| k in l.causes && rows[k].task == Some(x);
        assert more[k].task == Some(x);
      }
    }
  }

  lemma RecordAllKeeps(cfg: Settings, t: Tables, k: nat, updates: seq<Update>)
    requires Inv(cfg, t, k)
    requires forall u | u in updates :: u.capability in t.definitions
    ensures var r := RecordAll(t, updates);
            && Inv(cfg, r, k)
            && t.transitions <= r.transitions
            && (updates != [] ==>
                  var last := r.transitions[|r.transitions| - 1];
                  last.capability in r.current && r.current[last.capability] == last.current)
    decreases |updates|
  {
    hide Inv, NewTransition;
    if updates != [] {
      var u := updates[0];
      assert u in updates;
      RecordKeeps(cfg, t, k, u);
      var v := Recorded(t, u.capability, u.target, u.task, u.expected);
      assert t.transitions <= v.transitions;
      NewIsCurrent(t, u);
      assert RecordAll(t, updates) == RecordAll(v, updates[1..]);
      hide Recorded;
      RecordAllKeeps(cfg, v, k, updates[1..]);
      if updates[1..] == [] { assert RecordAll(v, updates[1..]) == v; }
    }
  }

  lemma NewIsCurrent(t: Tables, u: Update)
    requires u.capability in t.definitions
    ensures var v := Recorded(t, u.capability, u.target, u.task, u.expected);
            && |v.transitions| == |t.transitions| + 1 && v.definitions == t.definitions
            && var last := v.transitions[|t.transitions|];
               last.capability in v.current && v.current[last.capability] == last.current
  {
    hide LossImpact;
  }

  lemma ReactAllKeeps(cfg: Settings, t: Tables, k: nat)
    requires Inv(cfg, t, k) && k <= |t.transitions|
    requires k < |t.transitions| ==>
               var last := t.transitions[|t.transitions| - 1];
               last.capability in t.current && t.current[last.capability] == last.current
    ensures Inv(cfg, ReactAll(cfg, t, k), |t.transitions|)
    ensures k < |t.transitions| ==> Settled(ReactAll(cfg, t, k))
    decreases |t.transitions| - k
  {
    hide OnTransition, Inv, Settled;
    if k < |t.transitions| {
      var u := OnTransition(cfg, t, k);
      OnTransitionKeeps(cfg, t, k);
      if k + 1 == |t.transitions| { OnTransitionSettles(cfg, t, k); }
      ReactAllKeeps(cfg, u, k + 1);
    }
  }

  ghost predicate Stable(cfg: Settings, t: Tables) {
    Inv(cfg, t, |t.transitions|) && Settled(t)
  }

  lemma LaterKeeps(cfg: Settings, t: Tables, u: Tables)
    requires Stable(cfg, t) && t.now <= u.now
    requires u.transitions == t.transitions && u.episodes == t.episodes && u.outbox == t.outbox
             && u.current == t.current
    ensures Stable(cfg, u)
  {
    forall i | 0 <= i < |u.episodes| ensures EpisodeOk(cfg, u, i) {
      assert EpisodeOk(cfg, t, i);
    }
    forall i | 0 <= i < |u.episodes| ensures AllRestored(u, u.episodes[i]) <==> AllRestored(t, t.episodes[i]) {}
    assert OutboxOk(u);
  }

  /** Every legal step keeps the invariant and leaves the episodes settled. */
  lemma StepKeeps(cfg: Settings, t: Tables, step: Step)
    requires Stable(cfg, t) && Legal(t, step)
    ensures Stable(cfg, Apply(cfg, t, step))
  {
    var u := t.(now := step.at);
    LaterKeeps(cfg, t, u);
    hide Inv, Settled, ReactAll, RecordAll, Ticked;
    match step
    case Define(_, c, d) => LaterKeeps(cfg, t, Apply(cfg, t, step));
    case CreateTask(_, _, _) => LaterKeeps(cfg, t, Apply(cfg, t, step));
    case Need(_, _, _, _) => LaterKeeps(cfg, t, Apply(cfg, t, step));
    case Report(_, updates) =>
      if forall x | x in updates :: x.capability in t.definitions {
        ReportKeeps(cfg, u, updates);
      }
    case Tick(_) =>
      TickKeeps(cfg, u, |u.transitions|);
      TickSettled(cfg, u, |u.transitions|);
  }

  lemma ReportKeeps(cfg: Settings, t: Tables, updates: seq<Update>)
    requires Stable(cfg, t) && forall u | u in updates :: u.capability in t.definitions
    ensures Stable(cfg, ReactAll(cfg, RecordAll(t, updates), |t.transitions|))
  {
    hide Inv, Settled, ReactAll, RecordAll;
    RecordAllKeeps(cfg, t, |t.transitions|, updates);
    ReactAllKeeps(cfg, RecordAll(t, updates), |t.transitions|);
    if updates == [] { NothingReported(cfg, t); }
  }

  lemma NothingReported(cfg: Settings, t: Tables)
    ensures ReactAll(cfg, RecordAll(t, []), |t.transitions|) == t
  {
  }

  lemma {:induction false} RunStable(cfg: Settings, run: seq<Tables>, steps: seq<Step>, i: nat)
    requires IsRun(cfg, run, steps) && i < |run|
    ensures Stable(cfg, run[i])
  {
    if i > 0 {
      RunStable(cfg, run, steps, i - 1);
      StepKeeps(cfg, run[i - 1], steps[i - 1]);
    }
  }
}
