/** The tables the degradation engine and the capability registry share, and what
    each of their transactions does to them. Time is one non-decreasing clock in
    nanoseconds, of a single boot. */
module Degradation {
  import opened Wrappers
  import opened Capabilities

  /** The three windows of the configuration, in the clock's unit. */
  datatype Settings = Settings(aggregation: nat, stability: nat, flap: nat)

  datatype EpisodeState = Nominal | Degrading | Degraded | Recovering

  /** What an episode is about; `causes` are positions in the transition table. */
  datatype Losses = Losses(
    severity: Severity, lost: set<string>, tasks: set<string>, causes: seq<nat>, required: set<string>)

  datatype Stamps = Stamps(
    startedAt: int, recoveryStartedAt: Option<int>, recoveryStartedMono: Option<int>, recoveredAt: Option<int>)

  /** What was said about it; the phrases are positions in the outbox. */
  datatype Speech = Speech(aggregationClosedAt: Option<int>, phrase: Option<nat>, recoveryPhrase: Option<nat>)

  /** A row of the episode table. */
  datatype Episode = Episode(state: EpisodeState, losses: Losses, stamps: Stamps, speech: Speech)

  datatype PhraseKind = DegradationPhrase | RecoveryPhrase

  /** An outbox row; (kind, episode) is its idempotency key. */
  datatype Phrase = Phrase(kind: PhraseKind, episode: nat, createdAt: int)

  /** A row of the transition table; its position is the id of its event. */
  datatype Transition = Transition(
    capability: string, previous: Lifecycle, current: Lifecycle,
    expected: bool, material: bool, impact: Impact, task: Option<string>)

  /** `requested` holds the idempotency keys of the task requirements recorded so far. */
  datatype Tables = Tables(
    definitions: map<string, Definition>,
    tasks: set<string>,
    requested: set<(string, string, bool)>,
    needs: map<(string, string), TaskNeed>,
    current: map<string, Lifecycle>,
    transitions: seq<Transition>,
    episodes: seq<Episode>,
    outbox: seq<Phrase>,
    now: int)

  // ---------------------------------------------------------------- registry

  function PriorState(t: Tables, capability: string): Lifecycle {
    if capability in t.current then t.current[capability] else Unknown
  }

  function TaskNeeds(t: Tables, task: Option<string>, capability: string): TaskNeed {
    if task.Some? && (task.value, capability) in t.needs then t.needs[(task.value, capability)]
    else TaskNeed(false, false)
  }

  function LossImpact(t: Tables, capability: string, target: Lifecycle, task: Option<string>): Impact
    requires capability in t.definitions
  {
    if IsLoss(target) then
      var need := TaskNeeds(t, task, capability);
      ClassifyTaskImpact(t.definitions[capability], need.required, need.unsafeIfLost)
    else NoImpact
  }

  function NewTransition(t: Tables, capability: string, target: Lifecycle, task: Option<string>,
      expected: bool): Transition
    requires capability in t.definitions
  {
    var impact := LossImpact(t, capability, target, task);
    Transition(capability, PriorState(t, capability), target, expected,
               !expected && IsLoss(target) && Degrades(impact), impact, task)
  }

  /** registry.transition for a defined capability: one appended row, one upserted state. */
  function Recorded(t: Tables, capability: string, target: Lifecycle, task: Option<string>, expected: bool): Tables
    requires capability in t.definitions
  {
    t.(transitions := t.transitions + [NewTransition(t, capability, target, task, expected)],
       current := t.current[capability := target])
  }

  predicate IsReady(t: Tables, capability: string) {
    capability in t.current && t.current[capability] == Ready
  }

  predicate AllRestored(t: Tables, e: Episode) {
    forall c | c in e.losses.required :: IsReady(t, c)
  }

  /** create_task, and whether it returned: a task that exists is not created again, and a
      requirement on an undefined capability violates its foreign key, which writes nothing. */
  function TaskCreated(t: Tables, task: string, requirements: map<string, bool>): (Tables, bool) {
    if task in t.tasks then (t, true)
    else if exists c | c in requirements :: c !in t.definitions then (t, false)
    else
      (t.(tasks := t.tasks + {task},
          needs := t.needs + map c | c in requirements :: (task, c) := TaskNeed(true, requirements[c])), true)
  }

  /** What set_task_requirement's projection writes: a need never becomes less strict. */
  function WithNeed(t: Tables, task: string, capability: string, unsafeIfLost: bool): Tables {
    t.(needs := t.needs[(task, capability) :=
         TaskNeed(true, unsafeIfLost || TaskNeeds(t, Some(task), capability).unsafeIfLost)])
  }

  /** set_task_requirement, and whether it returned: a recorded request is replayed without
      its projection, and an unknown task or capability raises. */
  function Needed(t: Tables, task: string, capability: string, unsafeIfLost: bool): (Tables, bool) {
    if (task, capability, unsafeIfLost) in t.requested then (t, true)
    else if task !in t.tasks || capability !in t.definitions then (t, false)
    else (WithNeed(t, task, capability, unsafeIfLost)
            .(requested := t.requested + {(task, capability, unsafeIfLost)}), true)
  }

  // ----------------------------------------------------------------- queries

  /** The non-nominal row that started last. */
  function ActiveIndex(episodes: seq<Episode>): (r: Option<nat>)
    ensures r.Some? ==> r.value < |episodes| && episodes[r.value].state != Nominal
  {
    if episodes == [] then None else
      var n := |episodes| - 1;
      var rest := ActiveIndex(episodes[..n]);
      if episodes[n].state == Nominal then rest
      else if rest.Some? && episodes[rest.value].stamps.startedAt > episodes[n].stamps.startedAt then rest
      else Some(n)
  }

  /** The nominal row that recovered last. */
  function LastRecovered(episodes: seq<Episode>): (r: Option<nat>)
    ensures r.Some? ==>
              && r.value < |episodes| && episodes[r.value].state == Nominal
              && episodes[r.value].stamps.recoveredAt.Some?
  {
    if episodes == [] then None else
      var n := |episodes| - 1;
      var rest := LastRecovered(episodes[..n]);
      var e := episodes[n];
      if e.state != Nominal || e.stamps.recoveredAt.None? then rest
      else if rest.Some? && episodes[rest.value].stamps.recoveredAt.value > e.stamps.recoveredAt.value then rest
      else Some(n)
  }

  /** The row `status` reports: the one that started last, whatever its state. */
  function StatusIndex(episodes: seq<Episode>): (r: Option<nat>)
    ensures r.None? <==> episodes == []
    ensures r.Some? ==> r.value < |episodes|
  {
    if episodes == [] then None else
      var n := |episodes| - 1;
      var rest := StatusIndex(episodes[..n]);
      if rest.Some? && episodes[rest.value].stamps.startedAt > episodes[n].stamps.startedAt then rest else Some(n)
  }

  /** The three queries select what their ORDER BY clauses say. */
  lemma {:induction false} ActiveIsLatest(episodes: seq<Episode>)
    ensures var r := ActiveIndex(episodes);
            && (r.None? ==> forall j | 0 <= j < |episodes| :: episodes[j].state == Nominal)
            && (r.Some? ==> forall j | 0 <= j < |episodes| && episodes[j].state != Nominal ::
                  episodes[j].stamps.startedAt <= episodes[r.value].stamps.startedAt)
  {
    if episodes != [] {
      ActiveIsLatest(episodes[..|episodes| - 1]);
    }
  }

  lemma {:induction false} RecoveredIsLatest(episodes: seq<Episode>)
    ensures var r := LastRecovered(episodes);
            && (r.None? ==> forall j | 0 <= j < |episodes| && episodes[j].state == Nominal ::
                episodes[j].stamps.recoveredAt.None?)
            && (r.Some? ==> forall j | 0 <= j < |episodes| && episodes[j].state == Nominal
                && episodes[j].stamps.recoveredAt.Some? ::
                  episodes[j].stamps.recoveredAt.value <= episodes[r.value].stamps.recoveredAt.value)
  {
    if episodes != [] {
      RecoveredIsLatest(episodes[..|episodes| - 1]);
    }
  }

  lemma {:induction false} StatusIsLatest(episodes: seq<Episode>)
    ensures var r := StatusIndex(episodes);
            r.Some? ==> forall j | 0 <= j < |episodes| ::
                episodes[j].stamps.startedAt <= episodes[r.value].stamps.startedAt
  {
    if episodes != [] {
      StatusIsLatest(episodes[..|episodes| - 1]);
    }
  }

  /** Elapsed time within the boot: from the monotonic stamp if there is one,
      else from the wall stamp, else zero; never negative. */
  function Elapsed(mono: Option<int>, wall: Option<int>, now: int): nat {
    var d := if mono.Some? then now - mono.value else if wall.Some? then now - wall.value else 0;
    if d < 0 then 0 else d
  }

  function RecentRecovered(cfg: Settings, t: Tables): (r: Option<nat>)
    ensures r.Some? ==> r.value < |t.episodes| && t.episodes[r.value].state == Nominal
  {
    var last := LastRecovered(t.episodes);
    if last.Some? && Elapsed(t.episodes[last.value].stamps.recoveredAt, t.episodes[last.value].stamps.recoveredAt,
        t.now) < cfg.flap
    then last else None
  }

  predicate NominallyRequired(t: Tables, c: string) {
    c in t.definitions && t.definitions[c].configured && t.definitions[c].requirement == Required && IsReady(t, c)
  }

  function TaskRequirements(t: Tables, task: Option<string>): set<string> {
    if task.Some? then set k | k in t.needs && k.0 == task.value && t.needs[k].required :: k.1 else {}
  }

  /** The ready required capabilities, those the task needs, and the lost one. */
  function RequiredSnapshot(t: Tables, lost: string, task: Option<string>): set<string> {
    (set c | c in t.definitions && NominallyRequired(t, c)) + TaskRequirements(t, task) + {lost}
  }

  function TaskSet(task: Option<string>): set<string> {
    if task.Some? then {task.value} else {}
  }

  // ------------------------------------------------------ engine transactions

  function Replaced(t: Tables, i: nat, e: Episode): Tables
    requires i < |t.episodes|
  {
    t.(episodes := t.episodes[i := e])
  }

  predicate HasPhrase(outbox: seq<Phrase>, kind: PhraseKind, episode: nat) {
    exists k | 0 <= k < |outbox| :: outbox[k].kind == kind && outbox[k].episode == episode
  }

  function InsertOrIgnore(outbox: seq<Phrase>, p: Phrase): seq<Phrase> {
    if HasPhrase(outbox, p.kind, p.episode) then outbox else outbox + [p]
  }

  function StartEpisode(t: Tables, k: nat): Tables
    requires k < |t.transitions|
  {
    var row := t.transitions[k];
    var losses := Losses(FromImpact(row.impact), {row.capability}, TaskSet(row.task), [k],
                         RequiredSnapshot(t, row.capability, row.task));
    t.(episodes := t.episodes + [Episode(Degrading, losses, Stamps(t.now, None, None, None), Speech(None, None, None))])
  }

  function Widened(t: Tables, l: Losses, k: nat): Losses
    requires k < |t.transitions|
  {
    var row := t.transitions[k];
    Losses(Maximum(l.severity, FromImpact(row.impact)),
           l.lost + {row.capability},
           l.tasks + TaskSet(row.task),
           if k in l.causes then l.causes else l.causes + [k],
           l.required + RequiredSnapshot(t, row.capability, row.task))
  }

  function AggregateLoss(t: Tables, i: nat, k: nat): Tables
    requires i < |t.episodes| && k < |t.transitions|
  {
    var e := t.episodes[i];
    Replaced(t, i, Episode(
      if e.state in {Recovering, Nominal} then Degraded else e.state,
      Widened(t, e.losses, k),
      e.stamps.(recoveryStartedAt := None, recoveredAt := None),
      e.speech))
  }

  function EnterDegraded(t: Tables, i: nat): Tables
    requires i < |t.episodes|
  {
    var e := t.episodes[i];
    var id := if e.speech.phrase.Some? then e.speech.phrase.value else |t.outbox|;
    Replaced(t, i, e.(state := Degraded, speech := e.speech.(aggregationClosedAt := Some(t.now), phrase := Some(id))))
      .(outbox := InsertOrIgnore(t.outbox, Phrase(DegradationPhrase, i, t.now)))
  }

  function CancelTransient(t: Tables, i: nat): Tables
    requires i < |t.episodes|
  {
    var e := t.episodes[i];
    Replaced(t, i, e.(state := Nominal, stamps := e.stamps.(recoveredAt := Some(t.now))))
  }

  function StartRecovery(t: Tables, i: nat): Tables
    requires i < |t.episodes|
  {
    var e := t.episodes[i];
    Replaced(t, i, e.(state := Recovering,
                      stamps := e.stamps.(recoveryStartedAt := Some(t.now), recoveryStartedMono := Some(t.now))))
  }

  function ReturnToDegraded(t: Tables, i: nat): Tables
    requires i < |t.episodes|
  {
    var e := t.episodes[i];
    Replaced(t, i, e.(state := Degraded, stamps := e.stamps.(recoveryStartedAt := None, recoveryStartedMono := None)))
  }

  function FinishRecovery(t: Tables, i: nat): Tables
    requires i < |t.episodes|
  {
    var e := t.episodes[i];
    var id := if e.speech.recoveryPhrase.Some? then e.speech.recoveryPhrase.value else |t.outbox|;
    Replaced(t, i, Episode(Nominal, e.losses, e.stamps.(recoveredAt := Some(t.now)),
        e.speech.(recoveryPhrase := Some(id))))
      .(outbox := InsertOrIgnore(t.outbox, Phrase(RecoveryPhrase, i, t.now)))
  }

  function Reconcile(t: Tables, i: nat): Tables
    requires i < |t.episodes|
  {
    var e := t.episodes[i];
    if !AllRestored(t, e) then
      if e.state == Recovering then ReturnToDegraded(t, i) else t
    else if e.state == Degrading then CancelTransient(t, i)
    else if e.state == Degraded then StartRecovery(t, i)
    else t
  }

  /** on_transition for the transition row `k`. */
  function OnTransition(cfg: Settings, t: Tables, k: nat): (r: Tables)
    requires k < |t.transitions|
    ensures r.transitions == t.transitions && r.current == t.current && r.now == t.now
    ensures |t.episodes| <= |r.episodes|
  {
    var row := t.transitions[k];
    var active := ActiveIndex(t.episodes);
    if row.current == Ready || !row.material || row.expected then
      if active.Some? then Reconcile(t, active.value) else t
    else if !Degrades(row.impact) then t
    else
      var target := if active.Some? then active else RecentRecovered(cfg, t);
      if target.None? then StartEpisode(t, k) else AggregateLoss(t, target.value, k)
  }

  /** tick. */
  function Ticked(cfg: Settings, t: Tables): Tables {
    var active := ActiveIndex(t.episodes);
    if active.None? then t else
      var i := active.value;
      var e := t.episodes[i];
      match e.state
      case Degrading =>
        if Elapsed(Some(e.stamps.startedAt), Some(e.stamps.startedAt), t.now) >= cfg.aggregation then
          if AllRestored(t, e) then CancelTransient(t, i) else EnterDegraded(t, i)
        else t
      case Recovering =>
        if !AllRestored(t, e) then ReturnToDegraded(t, i)
        else if Elapsed(e.stamps.recoveryStartedMono, e.stamps.recoveryStartedAt, t.now) >= cfg.stability
            then FinishRecovery(t, i)
        else t
      case Degraded => t
      case Nominal => t
  }

  // -------------------------------------------------------------------- steps

  datatype Update = Update(capability: string, target: Lifecycle, task: Option<string>, expected: bool)

  /** What the service does to these tables. A report writes one or more
      registry transitions and then hands each of them to the engine, in order. */
  datatype Step =
    | Define(at: int, capability: string, definition: Definition)
    | CreateTask(at: int, task: string, requirements: map<string, bool>)
    | Need(at: int, task: string, capability: string, unsafeIfLost: bool)
    | Report(at: int, updates: seq<Update>)
    | Tick(at: int)

  function RecordAll(t: Tables, updates: seq<Update>): (r: Tables)
    requires forall u | u in updates :: u.capability in t.definitions
    ensures r.definitions == t.definitions && r.episodes == t.episodes && r.outbox == t.outbox && r.now == t.now
    ensures |r.transitions| == |t.transitions| + |updates|
    decreases |updates|
  {
    if updates == [] then t else
      var u := updates[0];
      assert u in updates;
      RecordAll(Recorded(t, u.capability, u.target, u.task, u.expected), updates[1..])
  }

  /** Hand the transition rows from `k` on to the engine. */
  function ReactAll(cfg: Settings, t: Tables, k: nat): (r: Tables)
    requires k <= |t.transitions|
    ensures r.transitions == t.transitions && r.current == t.current && r.now == t.now
    ensures |t.episodes| <= |r.episodes|
    decreases |t.transitions| - k
  {
    if k == |t.transitions| then t else ReactAll(cfg, OnTransition(cfg, t, k), k + 1)
  }

  function Apply(cfg: Settings, before: Tables, step: Step): Tables {
    var t := before.(now := step.at);
    match step
    case Define(_, c, d) => t.(definitions := t.definitions[c := d])
    case CreateTask(_, task, requirements) => TaskCreated(t, task, requirements).0
    case Need(_, task, c, unsafeIfLost) => Needed(t, task, c, unsafeIfLost).0
    case Report(_, updates) =>
      if exists u | u in updates :: u.capability !in t.definitions then t
      else ReactAll(cfg, RecordAll(t, updates), |t.transitions|)
    case Tick(_) => Ticked(cfg, t)
  }

  /** An undefined capability makes registry.transition raise before it writes.
      Batches of more than one update name only installed capabilities. */
  predicate Legal(t: Tables, step: Step) {
    && t.now <= step.at
    && (step.Report? && |step.updates| > 1 ==> forall u | u in step.updates :: u.capability in t.definitions)
  }

  const Empty: Tables := Tables(map[], {}, {}, map[], map[], [], [], [], 0)

  /** `run[0]` is the state of a fresh database, `run[i+1]` the state after `steps[i]`. */
  ghost predicate IsRun(cfg: Settings, run: seq<Tables>, steps: seq<Step>) {
    && |run| == |steps| + 1
    && run[0] == Empty
    && forall i | 0 <= i < |steps| :: Legal(run[i], steps[i]) && run[i + 1] == Apply(cfg, run[i], steps[i])
  }
}
