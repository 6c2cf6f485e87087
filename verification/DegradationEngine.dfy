/** The registry and the engine as objects over one shared set of tables. */
module DegradationEngine {
  import opened Wrappers
  import opened Capabilities
  import opened Degradation
  import opened DegradationInvariants

  class Store {
    var definitions: map<string, Definition>
    var tasks: set<string>
    var requested: set<(string, string, bool)>
    var needs: map<(string, string), TaskNeed>
    var current: map<string, Lifecycle>
    var transitions: seq<Transition>
    var episodes: seq<Episode>
    var outbox: seq<Phrase>
    var now: int

    constructor ()
      ensures View() == Empty
    {
      definitions, tasks, requested, needs, current := map[], {}, {}, map[], map[];
      transitions, episodes, outbox := [], [], [];
      now := 0;
    }

    function View(): Tables
      reads this
    {
      Tables(definitions, tasks, requested, needs, current, transitions, episodes, outbox, now)
    }

    /** The clock is read at the start of a step and never goes back. */
    method ReadClock(at: int)
      requires now <= at
      modifies this`now
      ensures View() == old(View()).(now := at)
    {
      now := at;
    }
  }

  class CapabilityRegistry {
    const db: Store

    constructor (db: Store)
      ensures this.db == db
    {
      this.db := db;
    }

    method Define(capability: string, definition: Definition)
      modifies db`definitions
      ensures db.View() == old(db.View()).(definitions := old(db.definitions)[capability := definition])
    {
      db.definitions := db.definitions[capability := definition];
    }

    /** Appends the transition row and upserts the current state; an undefined
        capability raises and writes nothing. */
    method RecordTransition(capability: string, target: Lifecycle, task: Option<string>, expected: bool)
        returns (r: Option<nat>)
      modifies db`transitions, db`current
      ensures r.None? <==> capability !in old(db.definitions)
      ensures r.None? ==> db.View() == old(db.View())
      ensures r.Some? ==> r.value == |old(db.transitions)|
                          && db.View() == Recorded(old(db.View()), capability, target, task, expected)
    {
      if capability !in db.definitions {
        return None;
      }
      ghost var t := db.View();
      var previous := if capability in db.current then db.current[capability] else Unknown;
      var need := if task.Some? && (task.value, capability) in db.needs then db.needs[(task.value, capability)]
                  else TaskNeed(false, false);
      var impact := NoImpact;
      if IsLoss(target) {
        impact := ClassifyTaskImpact(db.definitions[capability], need.required, need.unsafeIfLost);
      }
      assert impact == LossImpact(t, capability, target, task);
      hide LossImpact, ClassifyTaskImpact, IsLoss;
      var material := !expected && IsLoss(target) && impact in {CognitiveImpact, CriticalImpact};
      var row := Transition(capability, previous, target, expected, material, impact, task);
      assert row == NewTransition(t, capability, target, task, expected);
      hide NewTransition;
      r := Some(|db.transitions|);
      db.transitions := db.transitions + [row];
      db.current := db.current[capability := target];
    }

    /** Adds the task with its requirements, unless it exists; a requirement on an undefined
        capability raises and rolls back. */
    method NewTask(task: string, requirements: map<string, bool>) returns (ok: bool)
      modifies db`tasks, db`needs
      ensures (db.View(), ok) == TaskCreated(old(db.View()), task, requirements)
      ensures !ok <==> task !in old(db.tasks) && !(requirements.Keys <= old(db.definitions).Keys)
    {
      if task in db.tasks { return true; }
      if exists c | c in requirements :: c !in db.definitions { return false; }
      db.tasks := db.tasks + {task};
      db.needs := db.needs + map c | c in requirements :: (task, c) := TaskNeed(true, requirements[c]);
      assert db.needs == TaskCreated(old(db.View()), task, requirements).0.needs;
      return true;
    }

    /** A requirement never becomes less strict about safety; an unknown task or capability
        raises, and a request made before is recognised by its idempotency key. */
    method SetTaskRequirement(task: string, capability: string, unsafeIfLost: bool) returns (ok: bool)
      modifies db`needs, db`requested
      ensures (db.View(), ok) == Needed(old(db.View()), task, capability, unsafeIfLost)
    {
      if (task, capability, unsafeIfLost) in db.requested { return true; }
      if task !in db.tasks || capability !in db.definitions { return false; }
      var before := if (task, capability) in db.needs then db.needs[(task, capability)].unsafeIfLost else false;
      db.needs := db.needs[(task, capability) := TaskNeed(true, unsafeIfLost || before)];
      db.requested := db.requested + {(task, capability, unsafeIfLost)};
      return true;
    }
  }

  class Engine {
    const db: Store
    const settings: Settings

    constructor (db: Store, settings: Settings)
      ensures this.db == db && this.settings == settings
    {
      this.db := db;
      this.settings := settings;
    }

    /** The capabilities the episode will wait for, gathered row by row. */
    method GatherRequired(lost: string, task: Option<string>) returns (required: set<string>)
      ensures required == RequiredSnapshot(db.View(), lost, task)
    {
      ghost var t := db.View();
      var todo := db.definitions.Keys;
      required := {};
      while todo != {}
        invariant todo <= t.definitions.Keys
        invariant forall c :: c in required <==> c in t.definitions && c !in todo && NominallyRequired(t, c)
        decreases |todo|
      {
        var c :| c in todo;
        if db.definitions[c].configured && db.definitions[c].requirement == Required
           && c in db.current && db.current[c] == Ready {
          required := required + {c};
        }
        todo := todo - {c};
      }
      assert required == set c | c in t.definitions && NominallyRequired(t, c);
      hide NominallyRequired;
      if task.Some? {
        required := required + set k | k in db.needs && k.0 == task.value && db.needs[k].required :: k.1;
      }
      required := required + {lost};
    }

    method Restored(e: Episode) returns (all: bool)
      ensures all <==> AllRestored(db.View(), e)
    {
      var todo := e.losses.required;
      all := true;
      while todo != {}
        invariant todo <= e.losses.required
        invariant all <==> forall c | c in e.losses.required && c !in todo :: IsReady(db.View(), c)
        decreases |todo|
      {
        var c :| c in todo;
        all := all && c in db.current && db.current[c] == Ready;
        todo := todo - {c};
      }
    }

    method Start(k: nat)
      requires k < |db.transitions|
      modifies db`episodes
      ensures db.View() == StartEpisode(old(db.View()), k)
    {
      var row := db.transitions[k];
      var required := GatherRequired(row.capability, row.task);
      var tasks := if row.task.Some? then {row.task.value} else {};
      var losses := Losses(FromImpact(row.impact), {row.capability}, tasks, [k], required);
      db.episodes := db.episodes + [Episode(Degrading, losses, Stamps(db.now, None, None, None),
          Speech(None, None, None))];
    }

    method Aggregate(i: nat, k: nat)
      requires i < |db.episodes| && k < |db.transitions|
      modifies db`episodes
      ensures db.View() == AggregateLoss(old(db.View()), i, k)
    {
      var e, row := db.episodes[i], db.transitions[k];
      var lost := e.losses.lost + {row.capability};
      var causes := e.losses.causes;
      if k !in causes {
        causes := causes + [k];
      }
      var tasks := e.losses.tasks;
      if row.task.Some? {
        tasks := tasks + {row.task.value};
      }
      assert tasks == e.losses.tasks + TaskSet(row.task);
      var snapshot := GatherRequired(row.capability, row.task);
      var severity := Maximum(e.losses.severity, FromImpact(row.impact));
      var state := if e.state == Recovering || e.state == Nominal then Degraded else e.state;
      db.episodes := db.episodes[i :=
          Episode(state, Losses(severity, lost, tasks, causes, e.losses.required + snapshot),
                                              e.stamps.(recoveryStartedAt := None, recoveredAt := None), e.speech)];
    }

    /** INSERT OR IGNORE on the idempotency key. */
    method InsertPhrase(p: Phrase)
      modifies db`outbox
      ensures db.View() == old(db.View()).(outbox := InsertOrIgnore(old(db.outbox), p))
    {
      var k := 0;
      while k < |db.outbox|
        invariant k <= |db.outbox| && db.outbox == old(db.outbox)
        invariant forall j | 0 <= j < k :: !(db.outbox[j].kind == p.kind && db.outbox[j].episode == p.episode)
      {
        if db.outbox[k].kind == p.kind && db.outbox[k].episode == p.episode {
          return;
        }
        k := k + 1;
      }
      db.outbox := db.outbox + [p];
    }

    method CloseAggregation(i: nat)
      requires i < |db.episodes|
      modifies db`episodes, db`outbox
      ensures db.View() == EnterDegraded(old(db.View()), i)
    {
      var e := db.episodes[i];
      var id := |db.outbox|;
      if e.speech.phrase.Some? {
        id := e.speech.phrase.value;
      }
      db.episodes := db.episodes[i := e.(state := Degraded,
                                         speech := e.speech.(aggregationClosedAt := Some(db.now), phrase := Some(id)))];
      InsertPhrase(Phrase(DegradationPhrase, i, db.now));
    }

    method Cancel(i: nat)
      requires i < |db.episodes|
      modifies db`episodes
      ensures db.View() == CancelTransient(old(db.View()), i)
    {
      var e := db.episodes[i];
      db.episodes := db.episodes[i := e.(state := Nominal, stamps := e.stamps.(recoveredAt := Some(db.now)))];
    }

    method BeginRecovery(i: nat)
      requires i < |db.episodes|
      modifies db`episodes
      ensures db.View() == StartRecovery(old(db.View()), i)
    {
      var e := db.episodes[i];
      db.episodes := db.episodes[i := e.(state := Recovering,
                                         stamps := e.stamps.(recoveryStartedAt := Some(db.now),
                                             recoveryStartedMono := Some(db.now)))];
    }

    method FallBack(i: nat)
      requires i < |db.episodes|
      modifies db`episodes
      ensures db.View() == ReturnToDegraded(old(db.View()), i)
    {
      var e := db.episodes[i];
      db.episodes := db.episodes[i := e.(state := Degraded,
                                         stamps := e.stamps.(recoveryStartedAt := None, recoveryStartedMono := None))];
    }

    method Finish(i: nat)
      requires i < |db.episodes|
      modifies db`episodes, db`outbox
      ensures db.View() == FinishRecovery(old(db.View()), i)
    {
      var e := db.episodes[i];
      var id := |db.outbox|;
      if e.speech.recoveryPhrase.Some? {
        id := e.speech.recoveryPhrase.value;
      }
      db.episodes := db.episodes[i := Episode(Nominal, e.losses, e.stamps.(recoveredAt := Some(db.now)),
                                              e.speech.(recoveryPhrase := Some(id)))];
      InsertPhrase(Phrase(RecoveryPhrase, i, db.now));
    }

    method ReconcileRecovery(i: nat)
      requires i < |db.episodes|
      modifies db`episodes
      ensures db.View() == Reconcile(old(db.View()), i)
    {
      var e := db.episodes[i];
      var all := Restored(e);
      if !all {
        if e.state == Recovering {
          FallBack(i);
        }
        return;
      }
      if e.state == Degrading {
        Cancel(i);
      } else if e.state == Degraded {
        BeginRecovery(i);
      }
    }

    method HandleTransition(k: nat)
      requires k < |db.transitions|
      modifies db`episodes
      ensures db.View() == OnTransition(settings, old(db.View()), k)
    {
      var row := db.transitions[k];
      var active := ActiveIndex(db.episodes);
      if row.current == Ready {
        if active.Some? {
          ReconcileRecovery(active.value);
        }
        return;
      }
      if !row.material || row.expected {
        if active.Some? {
          ReconcileRecovery(active.value);
        }
        return;
      }
      if row.impact !in {CognitiveImpact, CriticalImpact} {
        return;
      }
      if active.None? {
        active := RecentRecovered(settings, db.View());
      }
      if active.None? {
        Start(k);
      } else {
        Aggregate(active.value, k);
      }
    }

    method RunTick()
      modifies db`episodes, db`outbox
      ensures db.View() == Ticked(settings, old(db.View()))
    {
      var active := ActiveIndex(db.episodes);
      if active.None? {
        return;
      }
      var i := active.value;
      var e := db.episodes[i];
      if e.state == Degrading {
        if Elapsed(Some(e.stamps.startedAt), Some(e.stamps.startedAt), db.now) >= settings.aggregation {
          var all := Restored(e);
          if all {
            Cancel(i);
          } else {
            CloseAggregation(i);
          }
        }
      } else if e.state == Recovering {
        var all := Restored(e);
        if !all {
          FallBack(i);
        } else if Elapsed(e.stamps.recoveryStartedMono, e.stamps.recoveryStartedAt, db.now) >= settings.stability {
          Finish(i);
        }
      }
    }
  }

  /** Writes the transitions of a batch; an undefined capability raises. */
  method RecordBatch(registry: CapabilityRegistry, updates: seq<Update>) returns (ok: bool)
    requires |updates| > 1 ==> forall u | u in updates :: u.capability in registry.db.definitions
    modifies registry.db`transitions, registry.db`current
    ensures ok <==> forall u | u in updates :: u.capability in old(registry.db.definitions)
    ensures ok ==> registry.db.View() == RecordAll(old(registry.db.View()), updates)
    ensures !ok ==> registry.db.View() == old(registry.db.View())
  {
    hide Recorded;
    var db := registry.db;
    ghost var start := db.View();
    ghost var legal := forall u | u in updates :: u.capability in start.definitions;
    var j := 0;
    while j < |updates|
      invariant j <= |updates|
      invariant j > 0 ==> legal
      invariant db.definitions == start.definitions
      invariant j == 0 ==> db.View() == start
      invariant legal ==> RecordAll(start, updates) == RecordAll(db.View(), updates[j..])
    {
      var u := updates[j];
      assert u in updates;
      var row := registry.RecordTransition(u.capability, u.target, u.task, u.expected);
      if row.None? {
        return false;
      }
      assert updates[j..][0] == u && updates[j..][1..] == updates[j + 1..];
      assert |updates| == 1 ==> forall x | x in updates :: x == u;
      j := j + 1;
    }
    assert updates[j..] == [];
    if updates == [] {
      assert RecordAll(start, updates) == start;
    }
    ok := true;
  }

  /** Hands the transitions from `first` on to the engine. */
  method ReactFrom(engine: Engine, first: nat)
    requires first <= |engine.db.transitions|
    modifies engine.db`episodes
    ensures engine.db.View() == ReactAll(engine.settings, old(engine.db.View()), first)
  {
    hide OnTransition;
    ghost var recorded := engine.db.View();
    var k := first;
    while k < |engine.db.transitions|
      invariant first <= k <= |engine.db.transitions|
      invariant ReactAll(engine.settings, recorded, first) == ReactAll(engine.settings, engine.db.View(), k)
    {
      engine.HandleTransition(k);
      k := k + 1;
    }
  }

  /** A report: write every transition of the batch, then let the engine see them. */
  method ReportBatch(registry: CapabilityRegistry, engine: Engine, at: int, updates: seq<Update>)
    requires registry.db == engine.db && Legal(engine.db.View(), Report(at, updates))
    requires Stable(engine.settings, engine.db.View())
    modifies engine.db
    ensures engine.db.View() == Apply(engine.settings, old(engine.db.View()), Report(at, updates))
    ensures Stable(engine.settings, engine.db.View())
  {
    StepKeeps(engine.settings, engine.db.View(), Report(at, updates));
    hide Stable, RecordAll, ReactAll;
    engine.db.ReadClock(at);
    var first := |engine.db.transitions|;
    var ok := RecordBatch(registry, updates);
    if ok {
      ReactFrom(engine, first);
    }
  }

  method TickStep(engine: Engine, at: int)
    requires Legal(engine.db.View(), Tick(at)) && Stable(engine.settings, engine.db.View())
    modifies engine.db
    ensures engine.db.View() == Apply(engine.settings, old(engine.db.View()), Tick(at))
    ensures Stable(engine.settings, engine.db.View())
  {
    StepKeeps(engine.settings, engine.db.View(), Tick(at));
    engine.db.ReadClock(at);
    engine.RunTick();
  }
}
