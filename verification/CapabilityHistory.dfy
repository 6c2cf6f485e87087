/** What the registry tables say after a run, read off the steps of the run: the rows of a
    report, the present state of each capability, and what each task needs. */
module CapabilityHistory {
  import opened Wrappers
  import opened Capabilities
  import opened Degradation
  import opened DegradationInvariants

  // -------------------------------------------------------------------- transitions

  /** The state a capability is in after some rows. */
  function StateAfter(rows: seq<Transition>, c: string): Lifecycle {
    if rows == [] then Unknown
    else if rows[|rows| - 1].capability == c then rows[|rows| - 1].current
    else StateAfter(rows[..|rows| - 1], c)
  }

  /** The task of the row needs the capability, and with which strictness. */
  predicate NeededBy(t: Tables, task: Option<string>, c: string, strictly: bool) {
    task.Some? && (task.value, c) in t.needs && t.needs[(task.value, c)].required
    && (strictly ==> t.needs[(task.value, c)].unsafeIfLost)
  }

  /** The states that count as a loss. */
  predicate Lost(state: Lifecycle) {
    || state == Impaired || state == Unreliable || state == Denied || state == Unavailable
    || state == Disconnected || state == Failed || state == Stale
  }

  /** The row that the registry, as it stands in `t`, writes for an update. */
  predicate RowFor(t: Tables, u: Update, row: Transition)
    requires u.capability in t.definitions
  {
    var d := t.definitions[u.capability];
    var needed, unsafely := NeededBy(t, u.task, u.capability, false), NeededBy(t, u.task, u.capability, true);
    && row.capability == u.capability && row.current == u.target && row.task == u.task && row.expected == u.expected
    && (row.impact == CriticalImpact <==> Lost(u.target) && unsafely)
    && (row.impact == CognitiveImpact <==>
          Lost(u.target) && !unsafely
          && (needed
              || (d.requirement == Required && (d.material == CognitiveClass || d.material == OperationalClass))))
    && (row.impact == CosmeticImpact <==> Lost(u.target) && !needed && d.material == CosmeticClass)
    && (row.impact == PeripheralImpact <==>
          && Lost(u.target) && !needed && d.requirement == Optional && d.material != CosmeticClass)
    && (row.material <==> !u.expected && (row.impact == CriticalImpact || row.impact == CognitiveImpact))
  }

  predicate Defined(t: Tables, updates: seq<Update>) {
    forall u | u in updates :: u.capability in t.definitions
  }

  /** The present state of every capability is that of its last row. */
  ghost predicate CurrentOk(t: Tables) {
    forall c :: PriorState(t, c) == StateAfter(t.transitions, c)
  }

  lemma NewRow(t: Tables, u: Update)
    requires u.capability in t.definitions
    ensures RowFor(t, u, NewTransition(t, u.capability, u.target, u.task, u.expected))
  {
  }

  lemma OneRecorded(t: Tables, u: Update)
    requires u.capability in t.definitions && CurrentOk(t)
    ensures var r := Recorded(t, u.capability, u.target, u.task, u.expected);
            && CurrentOk(r) && Continues(t, r, 1)
            && RowFor(t, u, r.transitions[|t.transitions|])
            && r.transitions[|t.transitions|].previous == StateAfter(t.transitions, u.capability)
  {
    var r := Recorded(t, u.capability, u.target, u.task, u.expected);
    NewRow(t, u);
    assert r.transitions[..|t.transitions|] == t.transitions;
    hide RowFor, LossImpact;
    forall c ensures PriorState(r, c) == StateAfter(r.transitions, c) {
      assert PriorState(t, c) == StateAfter(t.transitions, c);
    }
  }

  /** `r` continues the rows of `t` with `n` more. */
  ghost predicate Continues(t: Tables, r: Tables, n: nat) {
    && r.definitions == t.definitions && r.needs == t.needs && r.tasks == t.tasks && r.requested == t.requested
    && |r.transitions| == |t.transitions| + n && r.transitions[..|t.transitions|] == t.transitions
  }

  lemma ContinuesFurther(t: Tables, v: Tables, r: Tables, n: nat)
    requires Continues(t, v, 1) && Continues(v, r, n)
    ensures Continues(t, r, n + 1) && r.transitions[|t.transitions|] == v.transitions[|t.transitions|]
  {
    assert r.transitions[..|t.transitions|] == v.transitions[..|t.transitions|];
  }

  lemma {:induction false} AllRecorded(t: Tables, updates: seq<Update>)
    requires CurrentOk(t) && forall u | u in updates :: u.capability in t.definitions
    ensures CurrentOk(RecordAll(t, updates)) && Continues(t, RecordAll(t, updates), |updates|)
    decreases |updates|
  {
    if updates == [] {
      assert t.transitions[..|t.transitions|] == t.transitions;
    } else {
      var u := updates[0];
      assert u in updates;
      var v := Recorded(t, u.capability, u.target, u.task, u.expected);
      assert RecordAll(t, updates) == RecordAll(v, updates[1..]);
      OneRecorded(t, u);
      hide CurrentOk, Recorded, StateAfter, RecordAll, RowFor;
      AllRecorded(v, updates[1..]);
      ContinuesFurther(t, v, RecordAll(t, updates), |updates| - 1);
    }
  }

  /** The row at a position is that for this update, and has the state its capability was in. */
  ghost predicate RowAt(t: Tables, u: Update, r: Tables, pos: nat)
    requires u.capability in t.definitions
  {
    && pos < |r.transitions| && RowFor(t, u, r.transitions[pos])
    && r.transitions[pos].previous == StateAfter(r.transitions[..pos], u.capability)
  }

  lemma FirstRow(t: Tables, u: Update, v: Tables, r: Tables, n: nat)
    requires u.capability in t.definitions && CurrentOk(t) && Continues(v, r, n)
    requires v == Recorded(t, u.capability, u.target, u.task, u.expected)
    ensures RowAt(t, u, r, |t.transitions|)
  {
    OneRecorded(t, u);
    ContinuesFurther(t, v, r, n);
    hide RowFor, StateAfter, CurrentOk, Recorded;
  }

  /** The first update recorded, and what is left. */
  lemma RecordFirst(t: Tables, updates: seq<Update>)
    requires CurrentOk(t) && Defined(t, updates) && updates != []
    ensures updates[0] in updates
    ensures var u := updates[0];
            var v := Recorded(t, u.capability, u.target, u.task, u.expected);
            && v.definitions == t.definitions && v.needs == t.needs && |v.transitions| == |t.transitions| + 1
            && CurrentOk(v) && Defined(v, updates[1..])
            && RecordAll(t, updates) == RecordAll(v, updates[1..])
            && Continues(v, RecordAll(t, updates), |updates| - 1)
  {
    var u := updates[0];
    assert u in updates;
    OneRecorded(t, u);
    AllRecorded(Recorded(t, u.capability, u.target, u.task, u.expected), updates[1..]);
    hide CurrentOk, RowFor;
  }

  lemma {:induction false} RowRecorded(t: Tables, updates: seq<Update>, m: nat)
    requires CurrentOk(t) && Defined(t, updates) && m < |updates|
    ensures updates[m] in updates && RowAt(t, updates[m], RecordAll(t, updates), |t.transitions| + m)
    decreases |updates|
  {
    hide CurrentOk, Recorded, RowAt, RecordAll, RowFor, Continues;
    RecordFirst(t, updates);
    var u := updates[0];
    var v := Recorded(t, u.capability, u.target, u.task, u.expected);
    if m == 0 {
      FirstRow(t, u, v, RecordAll(t, updates), |updates| - 1);
    } else {
      assert updates[1..][m - 1] == updates[m];
      RowRecorded(v, updates[1..], m - 1);
      SameRowAt(t, v, updates[m], RecordAll(t, updates), |t.transitions| + m);
    }
  }

  lemma SameRowAt(t: Tables, v: Tables, u: Update, r: Tables, pos: nat)
    requires v.definitions == t.definitions && v.needs == t.needs
    requires u.capability in t.definitions && RowAt(v, u, r, pos)
    ensures RowAt(t, u, r, pos)
  {
    SameRow(t, v, u, r.transitions[pos]);
    hide RowFor;
  }

  lemma SameRow(t: Tables, v: Tables, u: Update, row: Transition)
    requires v.definitions == t.definitions && v.needs == t.needs && u.capability in t.definitions && RowFor(v, u, row)
    ensures RowFor(t, u, row)
  {
  }

  /** The same registry tables. */
  predicate SameTables(t: Tables, r: Tables) {
    && r.definitions == t.definitions && r.needs == t.needs && r.tasks == t.tasks && r.requested == t.requested
    && r.current == t.current && r.transitions == t.transitions
  }

  lemma OneReaction(cfg: Settings, t: Tables, k: nat)
    requires k < |t.transitions|
    ensures SameTables(t, OnTransition(cfg, t, k))
  {
    hide ActiveIndex, RecentRecovered;
  }

  /** The engine leaves the registry tables alone. */
  lemma {:induction false} ReactionsKeepRegistry(cfg: Settings, t: Tables, k: nat)
    requires k <= |t.transitions|
    ensures SameTables(t, ReactAll(cfg, t, k))
    decreases |t.transitions| - k
  {
    hide OnTransition;
    if k < |t.transitions| {
      OneReaction(cfg, t, k);
      ReactionsKeepRegistry(cfg, OnTransition(cfg, t, k), k + 1);
    }
  }

  lemma StepKeepsCurrent(cfg: Settings, t: Tables, step: Step)
    requires CurrentOk(t)
    ensures CurrentOk(Apply(cfg, t, step))
  {
    hide StateAfter, ReactAll, RecordAll, RowFor;
    var v := t.(now := step.at);
    assert CurrentOk(v);
    if step.Report? && Defined(v, step.updates) {
      AllRecorded(v, step.updates);
      ReactionsKeepRegistry(cfg, RecordAll(v, step.updates), |v.transitions|);
    }
  }

  lemma {:induction false} CurrentIsLastRow(cfg: Settings, run: seq<Tables>, steps: seq<Step>, i: nat)
    requires IsRun(cfg, run, steps) && i < |run|
    ensures forall c :: (if c in run[i].current then run[i].current[c] else Unknown)
                        == StateAfter(run[i].transitions, c)
  {
    RunCurrent(cfg, run, steps, i);
  }

  lemma {:induction false} RunCurrent(cfg: Settings, run: seq<Tables>, steps: seq<Step>, i: nat)
    requires IsRun(cfg, run, steps) && i < |run|
    ensures CurrentOk(run[i])
  {
    if i > 0 {
      RunCurrent(cfg, run, steps, i - 1);
      StepKeepsCurrent(cfg, run[i - 1], steps[i - 1]);
      hide CurrentOk, Apply;
    }
  }

  /** A report appends one row an update, in order, or, naming an undefined capability,
      changes nothing but the clock. Each row has the state its capability was in, the
      impact that the definition and the task's needs give, and is material exactly when it
      is an unexpected loss of cognitive or critical impact. */
  lemma ReportedRows(cfg: Settings, run: seq<Tables>, steps: seq<Step>, i: nat, m: nat)
    requires IsRun(cfg, run, steps) && i < |steps| && steps[i].Report?
    ensures var t, r, updates := run[i], run[i + 1], steps[i].updates;
            if Defined(t, updates) then
              && |r.transitions| == |t.transitions| + |updates| && r.transitions[..|t.transitions|] == t.transitions
              && (m < |updates| ==> updates[m] in updates && RowAt(t, updates[m], r, |t.transitions| + m))
            else r == t.(now := steps[i].at)
  {
    RunCurrent(cfg, run, steps, i);
    var v, updates := run[i].(now := steps[i].at), steps[i].updates;
    assert CurrentOk(v);
    hide ReactAll, RecordAll, StateAfter, CurrentOk, RowFor;
    assert run[i + 1] == Apply(cfg, run[i], steps[i]);
    if Defined(v, updates) {
      AllRecorded(v, updates);
      ReactionsKeepRegistry(cfg, RecordAll(v, updates), |v.transitions|);
      if m < |updates| {
        RowRecorded(v, updates, m);
        SameRowAt(run[i], v, updates[m], RecordAll(v, updates), |v.transitions| + m);
      }
    }
  }

  /** The definition of a capability after some steps: the last one given. */
  function DefinitionAfter(steps: seq<Step>, c: string): Option<Definition> {
    if steps == [] then None
    else
      var step := steps[|steps| - 1];
      if step.Define? && step.capability == c then Some(step.definition)
      else DefinitionAfter(steps[..|steps| - 1], c)
  }

  lemma StepDefines(cfg: Settings, t: Tables, step: Step)
    ensures Apply(cfg, t, step).definitions
            == if step.Define? then t.definitions[step.capability := step.definition] else t.definitions
  {
    hide ReactAll, RecordAll, Ticked;
    var v := t.(now := step.at);
    TickKeepsNeeds(cfg, v);
    if step.Report? && Defined(v, step.updates) {
      NeedsRecorded(v, step.updates);
      ReactionsKeepRegistry(cfg, RecordAll(v, step.updates), |v.transitions|);
    }
  }

  /** On any run, a capability has the definition it was last given. */
  lemma {:induction false} DefinitionIsLastGiven(cfg: Settings, run: seq<Tables>, steps: seq<Step>, i: nat, c: string)
    requires IsRun(cfg, run, steps) && i < |run|
    ensures DefinitionAfter(steps[..i], c)
            == if c in run[i].definitions then Some(run[i].definitions[c]) else None
  {
    if i > 0 {
      DefinitionIsLastGiven(cfg, run, steps, i - 1, c);
      StepDefines(cfg, run[i - 1], steps[i - 1]);
      assert steps[..i][..i - 1] == steps[..i - 1];
      hide Apply, Legal;
    }
  }

  // ------------------------------------------------------------------------ needs

  /** The step is an accepted request that a task need a capability, with this strictness:
      a new task none of whose requirements is undefined, or a requirement of a known task
      on a defined capability. */
  predicate Asks(t: Tables, step: Step, task: string, c: string, strictly: bool) {
    match step
    case CreateTask(_, created, requirements) =>
      && created == task && task !in t.tasks && (forall x | x in requirements :: x in t.definitions)
      && c in requirements && requirements[c] == strictly
    case Need(_, named, needed, unsafeIfLost) =>
      named == task && needed == c && unsafeIfLost == strictly && task in t.tasks && c in t.definitions
    case _ => false
  }

  ghost predicate AskedBefore(run: seq<Tables>, steps: seq<Step>, i: nat, task: string, c: string, strictly: bool)
    requires i <= |steps| && i < |run|
  {
    exists j | 0 <= j < i :: Asks(run[j], steps[j], task, c, strictly)
  }

  /** A recorded request stands in the needs. */
  ghost predicate RequestsOk(t: Tables) {
    && (forall r | r in t.requested ::
          (r.0, r.1) in t.needs && r.0 in t.tasks && r.1 in t.definitions && (r.2 ==> t.needs[(r.0, r.1)].unsafeIfLost))
    && (forall k | k in t.needs :: t.needs[k].required && k.0 in t.tasks && k.1 in t.definitions)
  }

  /** What a step makes of the need of `task` for `c`. */
  ghost predicate NeedGrows(t: Tables, step: Step, r: Tables, task: string, c: string) {
    && ((task, c) in r.needs
        <==> (task, c) in t.needs || Asks(t, step, task, c, true) || Asks(t, step, task, c, false))
    && ((task, c) in r.needs ==>
          && r.needs[(task, c)].required
          && (r.needs[(task, c)].unsafeIfLost
              <==> ((task, c) in t.needs && t.needs[(task, c)].unsafeIfLost) || Asks(t, step, task, c, true)))
  }

  lemma StepNeeds(cfg: Settings, t: Tables, step: Step, task: string, c: string)
    requires RequestsOk(t)
    ensures RequestsOk(Apply(cfg, t, step)) && NeedGrows(t, step, Apply(cfg, t, step), task, c)
  {
    if step.Need? || step.CreateTask? {
      RequestNeeds(cfg, t, step, task, c);
    } else {
      hide ReactAll, RecordAll, Ticked;
      var v := t.(now := step.at);
      if step.Report? && Defined(v, step.updates) {
        NeedsRecorded(v, step.updates);
        ReactionsKeepRegistry(cfg, RecordAll(v, step.updates), |v.transitions|);
      }
      TickKeepsNeeds(cfg, v);
    }
  }

  lemma RequestNeeds(cfg: Settings, t: Tables, step: Step, task: string, c: string)
    requires RequestsOk(t) && (step.Need? || step.CreateTask?)
    ensures RequestsOk(Apply(cfg, t, step)) && NeedGrows(t, step, Apply(cfg, t, step), task, c)
  {
    RequestStaysOk(cfg, t, step);
    hide *;
    if step.Need? { NeedNeeds(cfg, t, step, task, c); } else { TaskNeedsThem(cfg, t, step, task, c); }
  }

  lemma RequestStaysOk(cfg: Settings, t: Tables, step: Step)
    requires RequestsOk(t) && (step.Need? || step.CreateTask?)
    ensures RequestsOk(Apply(cfg, t, step))
  {
    var v := t.(now := step.at);
    assert RequestsOk(v);
    hide RequestsOk, Needed, TaskCreated, ReactAll, RecordAll, Ticked;
    if step.Need? {
      NeedRequests(v, step.task, step.capability, step.unsafeIfLost);
    } else {
      TaskRequests(v, step.task, step.requirements);
    }
  }

  lemma TaskNeedsThem(cfg: Settings, t: Tables, step: Step, task: string, c: string)
    requires RequestsOk(t) && step.CreateTask?
    ensures NeedGrows(t, step, Apply(cfg, t, step), task, c)
  {
    assert (task, c) in t.needs ==> t.needs[(task, c)].required && task in t.tasks;
    hide RequestsOk;
  }

  lemma NeedRequests(t: Tables, task: string, c: string, unsafeIfLost: bool)
    requires RequestsOk(t)
    ensures RequestsOk(Needed(t, task, c, unsafeIfLost).0)
  {
  }

  lemma NeedNeeds(cfg: Settings, t: Tables, step: Step, task: string, c: string)
    requires RequestsOk(t) && step.Need?
    ensures NeedGrows(t, step, Apply(cfg, t, step), task, c)
  {
    var r := (step.task, step.capability, step.unsafeIfLost);
    assert r in t.requested ==> r.0 == step.task && r.1 == step.capability && r.2 == step.unsafeIfLost;
  }

  lemma TaskRequests(t: Tables, task: string, requirements: map<string, bool>)
    requires RequestsOk(t)
    ensures RequestsOk(TaskCreated(t, task, requirements).0)
  {
  }

  lemma TickKeepsNeeds(cfg: Settings, t: Tables)
    ensures SameTables(t, Ticked(cfg, t))
  {
    hide ActiveIndex, AllRestored, Elapsed, InsertOrIgnore;
  }

  lemma {:induction false} NeedsRecorded(t: Tables, updates: seq<Update>)
    requires Defined(t, updates)
    ensures var r := RecordAll(t, updates);
            r.definitions == t.definitions && r.needs == t.needs && r.tasks == t.tasks && r.requested == t.requested
    decreases |updates|
  {
    if updates != [] {
      var u := updates[0];
      assert u in updates;
      NeedsRecorded(Recorded(t, u.capability, u.target, u.task, u.expected), updates[1..]);
      hide NewTransition;
    }
  }

  /** A task needs a capability exactly when an accepted request has ever said so, and its
      loss is unsafe exactly when one of them has said that; no request takes it back. */
  lemma {:induction false} NeedsAreWhatWasAsked(cfg: Settings, run: seq<Tables>, steps: seq<Step>, i: nat,
      task: string, c: string)
    requires IsRun(cfg, run, steps) && i < |run|
    ensures RequestsOk(run[i])
    ensures (task, c) in run[i].needs
            <==> AskedBefore(run, steps, i, task, c, true) || AskedBefore(run, steps, i, task, c, false)
    ensures (task, c) in run[i].needs ==>
              && run[i].needs[(task, c)].required
              && (run[i].needs[(task, c)].unsafeIfLost <==> AskedBefore(run, steps, i, task, c, true))
  {
    if i > 0 {
      NeedsAreWhatWasAsked(cfg, run, steps, i - 1, task, c);
      StepNeeds(cfg, run[i - 1], steps[i - 1], task, c);
      OneMoreStep(run, steps, i, task, c, true);
      OneMoreStep(run, steps, i, task, c, false);
      hide AskedBefore, Asks, Apply, RequestsOk;
    }
  }

  lemma OneMoreStep(run: seq<Tables>, steps: seq<Step>, i: nat, task: string, c: string, strictly: bool)
    requires 0 < i <= |steps| && i < |run|
    ensures AskedBefore(run, steps, i, task, c, strictly)
            <==> AskedBefore(run, steps, i - 1, task, c, strictly)
                 || Asks(run[i - 1], steps[i - 1], task, c, strictly)
  {
    hide Asks;
  }
}
