/** The prompt queue and the session-preference workflow of the Hermes service. A prompt
    waits, one at a time, until the session exists and its model and reasoning effort have
    been applied; each attempt to apply them is a generation. */
module PromptWorkflow {
  import opened Wrappers

  type Prompt = nat

  type RequestId = nat

  /** A config.set request: whose generation it is, and whether its failure may be passed
      over because the route is only desired for this turn. */
  datatype Preference = Preference(generation: nat, persist: bool, fallback: bool)

  /** What became of a prompt. */
  datatype Fate =
    | Submitted(prompt: Prompt)
    | Undelivered(prompt: Prompt)
    | Refused(prompt: Prompt)
    | Merged(prompt: Prompt)

  /** The route that is wanted: `route` stands for provider, model and reasoning effort. */
  datatype Desired = Desired(route: nat, hasModel: bool, hasReasoning: bool, persist: bool, fallback: bool)

  datatype Phase = Unconfigured | Applying | Ready | Retryable | FailedRoute

  /** `dead` holds the ids of requests that were answered with an error while they were
      being issued, the link being down; no further answer will come. */
  datatype State = State(
    session: bool, connected: bool, pending: bool, failed: bool, queued: Option<Prompt>, generation: nat,
    phase: Phase, desired: Desired, models: map<RequestId, Preference>, efforts: map<RequestId, Preference>,
        nextId: RequestId,
    dead: set<RequestId>, fates: seq<Fate>)

  const Initial: State :=
    State(false, false, false, false, None, 0, Unconfigured, Desired(0, false, false, true, true), map[], map[], 0,
        {}, [])

  datatype Step =
    | SendPrompt(prompt: Prompt)
    | Cancel
    | Stop
    | LinkChanged(connected: bool)
    | SessionReady(named: bool)
    | SessionLost
    | SwitchModel(desired: Desired)
    | EnsureRoute(desired: Desired)
    | SetReasoning(valid: bool, route: nat)
    | ModelReply(id: RequestId, applied: bool)
    | EffortReply(id: RequestId, applied: bool)

  // ---------------------------------------------------------------------- prompts

  function Logged(s: State, f: Fate): State {
    s.(fates := s.fates + [f])
  }

  /** sendPrompt with a prompt that is not blank. */
  function Sent(s: State, p: Prompt): State {
    if s.failed then Logged(s, Refused(p))
    else if !s.session || s.pending then
      if s.queued.None? then s.(queued := Some(p))
      else if s.queued.value == p then Logged(s, Merged(p))
      else Logged(s, Undelivered(s.queued.value)).(queued := Some(p))
    else Logged(s, Submitted(p))
  }

  function Dropped(s: State): State {
    if s.queued.None? then s else Logged(s, Undelivered(s.queued.value)).(queued := None)
  }

  // ------------------------------------------------------------------ the workflow

  /** How a workflow ends. */
  datatype Ending = Delivering | Retrying | Failing

  function Ended(s: State, ending: Ending): State {
    s.(pending := false, failed := ending == Failing,
       phase := match ending case Delivering => Ready case Retrying => Retryable case Failing => FailedRoute)
  }

  /** _finish_session_preferences: only the current generation may end the workflow. */
  function Finished(s: State, generation: nat, ending: Ending): State {
    if generation != s.generation then s
    else
      var t := Ended(s, ending);
      if t.queued.None? then t
      else if ending != Failing then Sent(t.(queued := None), t.queued.value)
      else Dropped(t)
  }

  function PreferenceOf(s: State): Preference {
    Preference(s.generation, s.desired.persist, s.desired.fallback)
  }

  function ModelRequested(s: State): State {
    s.(models := s.models[s.nextId := PreferenceOf(s)], nextId := s.nextId + 1)
  }

  function EffortRequested(s: State): State {
    s.(efforts := s.efforts[s.nextId := PreferenceOf(s)], nextId := s.nextId + 1,
       dead := if s.connected then s.dead else s.dead + {s.nextId})
  }

  function Begun(s: State): State {
    var t := s.(generation := s.generation + 1, pending := true, failed := false, phase := Applying);
    if !t.session || !t.connected then Finished(t, t.generation, Failing)
    else if t.desired.hasModel then ModelRequested(t)
    else if t.desired.hasReasoning then EffortRequested(t)
    else Finished(t, t.generation, Delivering)
  }

  /** A preference could not be applied: fatal, unless the route may fall back. */
  function Refusal(s: State, p: Preference): State {
    Finished(s, p.generation, if p.persist || !p.fallback then Failing else Retrying)
  }

  /** A reply to the model request: replies of an older generation are dropped. */
  function ModelReplied(s: State, id: RequestId, applied: bool): State {
    if id !in s.models || id in s.dead then s
    else
      var p := s.models[id];
      var t := s.(models := s.models - {id});
      if p.generation != t.generation then t
      else if !applied then Refusal(t, p)
      else if t.desired.hasReasoning then EffortRequested(t)
      else Finished(t, p.generation, Delivering)
  }

  function EffortReplied(s: State, id: RequestId, applied: bool): State {
    if id !in s.efforts || id in s.dead then s
    else
      var p := s.efforts[id];
      var t := s.(efforts := s.efforts - {id});
      if p.generation != t.generation then t
      else if !applied then Refusal(t, p)
      else Finished(t, p.generation, Delivering)
  }

  predicate SameRoute(s: State, d: Desired) {
    d.route == s.desired.route && d.fallback == s.desired.fallback && (s.phase == Ready || s.phase == Applying)
  }

  /** A new generation with no preferences and no requests. */
  function Cleared(s: State): State {
    s.(generation := s.generation + 1, pending := false, failed := false, phase := Unconfigured, models := map[],
        efforts := map[])
  }

  function Stopped(s: State): State {
    Dropped(Cleared(s)).(connected := false)
  }

  function Apply(s: State, step: Step): State {
    match step
    case SendPrompt(p) => Sent(s, p)
    case Cancel => Dropped(s)
    case Stop => Stopped(s)
    case LinkChanged(connected) => s.(connected := connected)
    case SessionReady(named) => Begun(s.(session := named))
    case SessionLost => s.(session := false)
    case SwitchModel(d) =>
      if s.session && s.connected && d.hasModel
          then Begun(s.(desired := d.(persist := true, fallback := s.desired.fallback))) else s
    case EnsureRoute(d) =>
      if !d.hasModel || SameRoute(s, d) then s
      else
        var t := s.(desired := d.(persist := false));
        if t.session && t.connected then Begun(t) else t
    case SetReasoning(valid, route) =>
      if !valid then
        var t := s.(generation := s.generation + 1);
        Finished(t, t.generation, Failing)
      else if s.session && s.connected then Begun(s.(desired := s.desired.(route := route, hasReasoning := true)))
          else s
    case ModelReply(id, applied) => ModelReplied(s, id, applied)
    case EffortReply(id, applied) => EffortReplied(s, id, applied)
  }

  function After(steps: seq<Step>): State {
    if steps == [] then Initial else Apply(After(steps[..|steps| - 1]), steps[|steps| - 1])
  }

  // ------------------------------------------------------------------- accounting

  function Sends(steps: seq<Step>, p: Prompt): nat {
    if steps == [] then 0 else Sends(steps[..|steps| - 1], p) + if steps[|steps| - 1] == SendPrompt(p) then 1 else 0
  }

  function Fates(fates: seq<Fate>, p: Prompt): nat {
    if fates == [] then 0 else Fates(fates[..|fates| - 1], p) + if fates[|fates| - 1].prompt == p then 1 else 0
  }

  function Waiting(s: State, p: Prompt): nat {
    if s.queued == Some(p) then 1 else 0
  }

  /** What is known of a prompt: its fates, and whether it is the queued one. */
  function Known(s: State, p: Prompt): nat {
    Fates(s.fates, p) + Waiting(s, p)
  }

  lemma FatesGrow(fates: seq<Fate>, f: Fate, p: Prompt)
    ensures Fates(fates + [f], p) == Fates(fates, p) + if f.prompt == p then 1 else 0
  {
    assert (fates + [f])[..|fates|] == fates;
  }

  lemma SentCounts(s: State, q: Prompt, p: Prompt)
    ensures Known(Sent(s, q), p) == Known(s, p) + if p == q then 1 else 0
  {
    FatesGrow(s.fates, Refused(q), p);
    FatesGrow(s.fates, Merged(q), p);
    FatesGrow(s.fates, Submitted(q), p);
    if s.queued.Some? { FatesGrow(s.fates, Undelivered(s.queued.value), p); }
    hide Fates;
  }

  lemma DroppedCounts(s: State, p: Prompt)
    ensures Known(Dropped(s), p) == Known(s, p)
  {
    if s.queued.Some? { FatesGrow(s.fates, Undelivered(s.queued.value), p); }
    hide Fates;
  }

  lemma FinishedCounts(s: State, generation: nat, ending: Ending, p: Prompt)
    ensures Known(Finished(s, generation, ending), p) == Known(s, p)
  {
    var t := Ended(s, ending);
    DroppedCounts(t, p);
    if t.queued.Some? { SentCounts(t.(queued := None), t.queued.value, p); }
    hide Sent, Dropped, Fates;
  }

  lemma BegunCounts(s: State, p: Prompt)
    ensures Known(Begun(s), p) == Known(s, p)
  {
    var t := s.(generation := s.generation + 1, pending := true, failed := false, phase := Applying);
    FinishedCounts(t, t.generation, Failing, p);
    FinishedCounts(t, t.generation, Delivering, p);
    hide Finished, Fates;
  }

  lemma RepliedCounts(s: State, id: RequestId, applied: bool, p: Prompt)
    ensures Known(ModelReplied(s, id, applied), p) == Known(s, p)
            && Known(EffortReplied(s, id, applied), p) == Known(s, p)
  {
    forall t: State, generation, ending | t.fates == s.fates && t.queued == s.queued
      ensures Known(Finished(t, generation, ending), p) == Known(s, p)
    {
      FinishedCounts(t, generation, ending, p);
    }
    hide Finished, Fates;
  }

  lemma StepCounts(s: State, step: Step, p: Prompt)
    ensures Known(Apply(s, step), p) == Known(s, p) + if step == SendPrompt(p) then 1 else 0
  {
    hide Sent, Dropped, Finished, Fates, Begun, ModelReplied, EffortReplied;
    match step
    case SendPrompt(q) => SentCounts(s, q, p);
    case Cancel => DroppedCounts(s, p);
    case Stop =>
      DroppedCounts(Cleared(s), p);
    case LinkChanged(connected) =>
    case SessionReady(named) => BegunCounts(s.(session := named), p);
    case SessionLost =>
    case SwitchModel(d) => BegunCounts(s.(desired := d.(persist := true, fallback := s.desired.fallback)), p);
    case EnsureRoute(d) => BegunCounts(s.(desired := d.(persist := false)), p);
    case SetReasoning(valid, route) =>
      BegunCounts(s.(desired := s.desired.(route := route, hasReasoning := true)), p);
      FinishedCounts(s.(generation := s.generation + 1), s.generation + 1, Failing, p);
    case ModelReply(id, applied) => RepliedCounts(s, id, applied, p);
    case EffortReply(id, applied) => RepliedCounts(s, id, applied, p);
  }

  /** Every prompt that was sent is exactly one of: submitted, reported undelivered,
      refused, merged with an identical waiting one, or the one that is waiting. */
  lemma {:induction false} PromptsAreAccountedFor(steps: seq<Step>, p: Prompt)
    ensures Sends(steps, p) == Fates(After(steps).fates, p) + Waiting(After(steps), p)
  {
    if steps != [] {
      PromptsAreAccountedFor(steps[..|steps| - 1], p);
      StepCounts(After(steps[..|steps| - 1]), steps[|steps| - 1], p);
      hide Apply, Fates;
    }
  }

  // ------------------------------------------------------------------ generations

  /** A request of the current generation is outstanding under this id. */
  predicate IsCurrent(s: State, id: RequestId) {
    (id in s.models && s.models[id].generation == s.generation)
        || (id in s.efforts && s.efforts[id].generation == s.generation)
  }

  ghost predicate NoneCurrent(s: State) {
    forall id :: !IsCurrent(s, id)
  }

  ghost predicate OnlyCurrent(s: State, id: RequestId) {
    IsCurrent(s, id) && forall other :: IsCurrent(s, other) ==> other == id
  }

  ghost predicate TablesOk(s: State) {
    && (forall id | id in s.models :: id < s.nextId && s.models[id].generation <= s.generation && id !in s.efforts)
    && (forall id | id in s.efforts :: id < s.nextId && s.efforts[id].generation <= s.generation)
  }

  /** While preferences are pending, exactly one request of the current generation is out;
      otherwise none is. */
  ghost predicate Inv(s: State) {
    TablesOk(s) && if s.pending then exists id :: OnlyCurrent(s, id) else NoneCurrent(s)
  }

  /** The fields the generations depend on. */
  predicate SameRequests(s: State, t: State) {
    t.models == s.models && t.efforts == s.efforts && t.generation == s.generation && t.nextId == s.nextId
  }

  lemma SameRequestsKeeps(s: State, t: State)
    requires SameRequests(s, t)
    ensures TablesOk(s) ==> TablesOk(t)
    ensures NoneCurrent(s) ==> NoneCurrent(t)
    ensures forall id :: OnlyCurrent(s, id) ==> OnlyCurrent(t, id)
  {
    assert forall id :: IsCurrent(s, id) <==> IsCurrent(t, id);
    hide IsCurrent;
  }

  lemma SentKeeps(s: State, p: Prompt)
    ensures SameRequests(s, Sent(s, p)) && Sent(s, p).pending == s.pending
  {
  }

  lemma FinishedKeeps(s: State, generation: nat, ending: Ending)
    ensures SameRequests(s, Finished(s, generation, ending))
    ensures generation == s.generation ==> !Finished(s, generation, ending).pending
  {
  }

  lemma FinishedInv(s: State, ending: Ending)
    requires TablesOk(s) && NoneCurrent(s)
    ensures Inv(Finished(s, s.generation, ending))
  {
    FinishedKeeps(s, s.generation, ending);
    SameRequestsKeeps(s, Finished(s, s.generation, ending));
    hide Finished, TablesOk, NoneCurrent;
  }

  lemma NewGeneration(s: State, t: State)
    requires TablesOk(s) && t.models == s.models && t.efforts == s.efforts && t.nextId == s.nextId
             && t.generation == s.generation + 1
    ensures TablesOk(t) && NoneCurrent(t)
  {
  }

  lemma RequestedKeeps(s: State, t: State)
    requires TablesOk(s) && NoneCurrent(s) && (t == ModelRequested(s) || t == EffortRequested(s))
    ensures TablesOk(t) && OnlyCurrent(t, s.nextId)
  {
    forall id | id != s.nextId ensures !IsCurrent(t, id) {
      assert !IsCurrent(s, id);
    }
  }

  lemma PendingInv(s: State, id: RequestId)
    requires TablesOk(s) && OnlyCurrent(s, id) && s.pending
    ensures Inv(s)
  {
  }

  lemma BegunKeeps(s: State)
    requires TablesOk(s)
    ensures Inv(Begun(s))
  {
    hide Finished, TablesOk, NoneCurrent, OnlyCurrent, Inv;
    var t := s.(generation := s.generation + 1, pending := true, failed := false, phase := Applying);
    NewGeneration(s, t);
    if !t.session || !t.connected {
      FinishedInv(t, Failing);
    } else if t.desired.hasModel {
      RequestedKeeps(t, ModelRequested(t));
      PendingInv(ModelRequested(t), t.nextId);
    } else if t.desired.hasReasoning {
      RequestedKeeps(t, EffortRequested(t));
      PendingInv(EffortRequested(t), t.nextId);
    } else {
      FinishedInv(t, Delivering);
    }
  }

  /** Beginning a workflow after other fields have changed. */
  lemma BegunFrom(s: State, t: State)
    requires Inv(s) && SameRequests(s, t)
    ensures Inv(Begun(t))
  {
    assert TablesOk(s);
    hide TablesOk, Begun, Inv;
    SameRequestsKeeps(s, t);
    BegunKeeps(t);
  }

  /** Taking the one request of the current generation away leaves none. */
  lemma Popped(s: State, id: RequestId, t: State, p: Preference)
    requires Inv(s)
    requires || (id in s.models && p == s.models[id] && t == s.(models := s.models - {id}))
             || (id in s.efforts && p == s.efforts[id] && t == s.(efforts := s.efforts - {id}))
    ensures if p.generation == s.generation then s.pending && TablesOk(t) && NoneCurrent(t) else Inv(t)
  {
    if p.generation == s.generation {
      assert IsCurrent(s, id);
      assert s.pending;
      assert OnlyCurrent(s, id);
      forall other ensures !IsCurrent(t, other) {
        assert IsCurrent(s, other) ==> other == id;
      }
    } else {
      assert forall other :: IsCurrent(t, other) <==> IsCurrent(s, other);
      if s.pending {
        var one :| OnlyCurrent(s, one);
        assert OnlyCurrent(t, one);
      }
    }
  }

  lemma RefusalInv(s: State, p: Preference)
    requires TablesOk(s) && NoneCurrent(s) && p.generation == s.generation
    ensures Inv(Refusal(s, p))
  {
    FinishedInv(s, Failing);
    FinishedInv(s, Retrying);
    hide Finished, TablesOk, NoneCurrent, Inv;
  }

  lemma ModelReplyKeeps(s: State, id: RequestId, applied: bool)
    requires Inv(s)
    ensures Inv(ModelReplied(s, id, applied))
  {
    if id in s.models && id !in s.dead {
      var t, p := s.(models := s.models - {id}), s.models[id];
      Popped(s, id, t, p);
      if p.generation == s.generation {
        RefusalInv(t, p);
        FinishedInv(t, Delivering);
        RequestedKeeps(t, EffortRequested(t));
      }
      hide Finished, Refusal, TablesOk, NoneCurrent, OnlyCurrent;
    }
  }

  lemma EffortReplyKeeps(s: State, id: RequestId, applied: bool)
    requires Inv(s)
    ensures Inv(EffortReplied(s, id, applied))
  {
    if id in s.efforts && id !in s.dead {
      var t, p := s.(efforts := s.efforts - {id}), s.efforts[id];
      Popped(s, id, t, p);
      if p.generation == s.generation {
        RefusalInv(t, p);
        FinishedInv(t, Delivering);
      }
      hide Finished, Refusal, TablesOk, NoneCurrent, OnlyCurrent;
    }
  }

  lemma PromptKeeps(s: State, t: State)
    requires Inv(s) && SameRequests(s, t) && t.pending == s.pending
    ensures Inv(t)
  {
    SameRequestsKeeps(s, t);
    hide TablesOk, NoneCurrent, OnlyCurrent;
  }

  lemma StepKeeps(s: State, step: Step)
    requires Inv(s)
    ensures Inv(Apply(s, step))
  {
    hide Begun, ModelReplied, EffortReplied, Finished, Inv;
    match step
    case SendPrompt(p) =>
      SentKeeps(s, p);
      PromptKeeps(s, Sent(s, p));
    case Cancel => PromptKeeps(s, Dropped(s));
    case Stop => StopKeeps(s);
    case LinkChanged(connected) => PromptKeeps(s, Apply(s, step));
    case SessionReady(named) => BegunFrom(s, s.(session := named));
    case SessionLost => PromptKeeps(s, Apply(s, step));
    case SwitchModel(d) => BegunFrom(s, s.(desired := d.(persist := true, fallback := s.desired.fallback)));
    case EnsureRoute(d) =>
      BegunFrom(s, s.(desired := d.(persist := false)));
      PromptKeeps(s, s.(desired := d.(persist := false)));
    case SetReasoning(valid, route) =>
      BegunFrom(s, s.(desired := s.desired.(route := route, hasReasoning := true)));
      RejectedEffort(s);
    case ModelReply(id, applied) => ModelReplyKeeps(s, id, applied);
    case EffortReply(id, applied) => EffortReplyKeeps(s, id, applied);
  }

  lemma RejectedEffort(s: State)
    requires Inv(s)
    ensures var t := s.(generation := s.generation + 1); Inv(Finished(t, t.generation, Failing))
  {
    var t := s.(generation := s.generation + 1);
    assert TablesOk(s);
    NewGeneration(s, t);
    hide TablesOk, NoneCurrent, Finished, Inv;
    FinishedInv(t, Failing);
  }

  lemma StopKeeps(s: State)
    ensures Inv(Stopped(s))
  {
  }

  lemma {:induction false} RunKeeps(steps: seq<Step>)
    ensures Inv(After(steps))
  {
    if steps != [] {
      RunKeeps(steps[..|steps| - 1]);
      StepKeeps(After(steps[..|steps| - 1]), steps[|steps| - 1]);
      hide Inv, Apply;
    }
  }

  /** A waiting prompt is not forgotten: while preferences are pending exactly one request
      of the current generation is in the tables; its answer ends the workflow or asks for
      the next preference. */
  lemma PendingHasOneRequest(steps: seq<Step>)
    ensures var s := After(steps); if s.pending then exists id :: OnlyCurrent(s, id) else NoneCurrent(s)
  {
    RunKeeps(steps);
    hide After, OnlyCurrent, NoneCurrent;
  }

  // ---------------------------------------------------------- what ends a workflow

  /** The request a step answers. */
  function Answers(step: Step): Option<RequestId> {
    if step.ModelReply? || step.EffortReply? then Some(step.id) else None
  }

  /** Does the step answer a request of the current generation that can still be answered? */
  predicate AnswersCurrent(s: State, step: Step) {
    match step
    case ModelReply(id, _) => id in s.models && id !in s.dead && s.models[id].generation == s.generation
    case EffortReply(id, _) => id in s.efforts && id !in s.dead && s.efforts[id].generation == s.generation
    case _ => false
  }

  /** The state a step begins a workflow in, if it does. */
  function Begins(s: State, step: Step): Option<State> {
    match step
    case SessionReady(named) => Some(s.(session := named))
    case SwitchModel(d) =>
      if s.session && s.connected && d.hasModel
          then Some(s.(desired := d.(persist := true, fallback := s.desired.fallback))) else None
    case EnsureRoute(d) =>
      if d.hasModel && !SameRoute(s, d) && s.session && s.connected then Some(s.(desired := d.(persist := false)))
          else None
    case SetReasoning(valid, route) =>
      if valid && s.session && s.connected then Some(s.(desired := s.desired.(route := route, hasReasoning := true)))
          else None
    case _ => None
  }

  /** A workflow that has nothing to ask, or nobody to ask, ends as it begins. */
  predicate EndsAtOnce(s: State) {
    !s.session || !s.connected || (!s.desired.hasModel && !s.desired.hasReasoning)
  }

  lemma BegunPending(s: State)
    ensures Begun(s).pending <==> !EndsAtOnce(s)
    ensures Begun(s).generation == s.generation + 1
  {
    var t := s.(generation := s.generation + 1, pending := true, failed := false, phase := Applying);
    FinishedKeeps(t, t.generation, Failing);
    FinishedKeeps(t, t.generation, Delivering);
    hide Finished;
  }

  /** A reply ends the current workflow if and only if it answers the one request that is
      out, unless it is a model applied and the reasoning effort is asked for next; any other
      reply changes nothing but its own table. */
  lemma ReplyEnds(s: State, step: Step)
    requires Answers(step).Some? && Inv(s)
    ensures var t := Apply(s, step);
            if AnswersCurrent(s, step) then
              && s.pending && OnlyCurrent(s, step.id)
              && (t.pending <==> step.ModelReply? && step.applied && s.desired.hasReasoning)
              && t.generation == s.generation
            else t == s.(models := t.models, efforts := t.efforts)
                 && t.models.Keys >= s.models.Keys - {step.id} && t.efforts.Keys >= s.efforts.Keys - {step.id}
                 && (forall id | id in t.models :: id in s.models && t.models[id] == s.models[id])
                 && (forall id | id in t.efforts :: id in s.efforts && t.efforts[id] == s.efforts[id])
  {
    if AnswersCurrent(s, step) {
      assert IsCurrent(s, step.id);
      forall u: State, ending ensures SameRequests(u, Finished(u, u.generation, ending))
          && !Finished(u, u.generation, ending).pending {
        FinishedKeeps(u, u.generation, ending);
      }
    }
    hide Finished, TablesOk;
  }

  /** Along every run, a workflow that is pending ends only by the answer to its one request,
      by a stop, by an effort the service does not know, or when another one begins that
      ends at once. */
  lemma WorkflowEndsOnlyBy(steps: seq<Step>, step: Step)
    requires After(steps).pending && !Apply(After(steps), step).pending
    ensures var s := After(steps);
            || (AnswersCurrent(s, step) && OnlyCurrent(s, step.id))
            || step.Stop?
            || (step.SetReasoning? && !step.valid)
            || (Begins(s, step).Some? && EndsAtOnce(Begins(s, step).value))
  {
    var s := After(steps);
    RunKeeps(steps);
    hide After, Finished, Begun, ModelReplied, EffortReplied, Sent;
    if Answers(step).Some? {
      ReplyEnds(s, step);
    } else if Begins(s, step).Some? {
      BegunPending(Begins(s, step).value);
    } else if step.SendPrompt? {
      SentKeeps(s, step.prompt);
    }
  }

  /** A reply of an older generation, along every run: the workflow, its generation, the
      queued prompt and what became of the others are as before. */
  lemma StaleReplyIsIgnored(steps: seq<Step>, step: Step)
    requires Answers(step).Some? && !AnswersCurrent(After(steps), step)
    ensures var s, t := After(steps), Apply(After(steps), step);
            && t.pending == s.pending && t.generation == s.generation && t.queued == s.queued && t.fates == s.fates
            && t.failed == s.failed && t.phase == s.phase && t.dead == s.dead
            && forall id :: OnlyCurrent(s, id) ==> id == step.id || OnlyCurrent(t, id)
  {
    RunKeeps(steps);
    var s, t := After(steps), Apply(After(steps), step);
    hide After, Finished, TablesOk, EffortReplied, ModelReplied;
    ReplyEnds(s, step);
    forall id | id != step.id ensures IsCurrent(s, id) <==> IsCurrent(t, id) {}
    assert IsCurrent(t, step.id) ==> IsCurrent(s, step.id);
  }

  // ------------------------------------------------------- a request nobody answers

  /** The step reports the model applied, while the link is down and an effort is wanted:
      the effort request gets its error before it is noted. The link can be down with the
      request still out, since connecting anew and a transport error leave it there. */
  predicate AppliedOffline(s: State, step: Step) {
    step.ModelReply? && step.applied && AnswersCurrent(s, step) && s.desired.hasReasoning && !s.connected
  }

  lemma FinishedDead(s: State, generation: nat, ending: Ending)
    ensures Finished(s, generation, ending).dead == s.dead
  {
  }

  lemma DeadSteps(s: State, step: Step)
    ensures Apply(s, step).dead == if AppliedOffline(s, step) then s.dead + {s.nextId} else s.dead
  {
    forall t: State, generation, ending | t.dead == s.dead ensures Finished(t, generation, ending).dead == s.dead {
      FinishedDead(t, generation, ending);
    }
    hide Finished;
  }

  /** The j-th step of a run reports a model applied offline. */
  predicate OfflineAt(steps: seq<Step>, j: nat)
    requires j < |steps|
  {
    AppliedOffline(After(steps[..j]), steps[j])
  }

  lemma OfflineBefore(steps: seq<Step>, n: nat, j: nat)
    requires j < n <= |steps|
    ensures OfflineAt(steps[..n], j) == OfflineAt(steps, j)
  {
    assert steps[..n][..j] == steps[..j];
    hide After, AppliedOffline;
  }

  /** A request is dead exactly when on the way some model was reported applied offline. */
  lemma {:induction false} DeadExactlyWhen(steps: seq<Step>)
    ensures After(steps).dead != {} <==> exists j | 0 <= j < |steps| :: OfflineAt(steps, j)
  {
    if steps != [] {
      var n := |steps| - 1;
      DeadExactlyWhen(steps[..n]);
      DeadSteps(After(steps[..n]), steps[n]);
      assert After(steps) == Apply(After(steps[..n]), steps[n]);
      assert OfflineAt(steps, n) == AppliedOffline(After(steps[..n]), steps[n]);
      hide *;
      forall j | 0 <= j < n ensures OfflineAt(steps[..n], j) == OfflineAt(steps, j) { OfflineBefore(steps, n, j); }
      if j :| 0 <= j < |steps| && OfflineAt(steps, j) {
        assert j == n || OfflineAt(steps[..n], j);
      }
    } else {
      assert After(steps).dead == {};
    }
  }

  /** So when models are reported applied only over a link that is up, every request that
      is out can be answered. */
  lemma NothingIsDead(steps: seq<Step>)
    requires forall j | 0 <= j < |steps| && steps[j].ModelReply? && steps[j].applied :: After(steps[..j]).connected
    ensures After(steps).dead == {}
  {
    DeadExactlyWhen(steps);
    hide After;
  }

  /** Pending on a request that nobody will answer. */
  ghost predicate Stuck(s: State) {
    s.pending && exists id | id in s.dead :: id in s.efforts && s.efforts[id].generation == s.generation
  }

  /** Does the step start a new generation? */
  predicate StartsOver(s: State, step: Step) {
    step.Stop? || (step.SetReasoning? && !step.valid) || Begins(s, step).Some?
  }

  ghost predicate DeadOk(s: State) {
    forall id | id in s.dead :: id < s.nextId
  }

  /** The effort requests of `t` that are older than `n` were there in `s`. */
  ghost predicate NoOlderEfforts(s: State, t: State, n: nat) {
    forall id | id in t.efforts && id < n :: id in s.efforts && t.efforts[id] == s.efforts[id]
  }

  lemma BegunRequests(s: State)
    ensures Begun(s).generation == s.generation + 1 && Begun(s).nextId >= s.nextId
            && NoOlderEfforts(s, Begun(s), s.nextId)
  {
    var t := s.(generation := s.generation + 1, pending := true, failed := false, phase := Applying);
    FinishedKeeps(t, t.generation, Failing);
    FinishedKeeps(t, t.generation, Delivering);
    hide Finished;
  }

  lemma FinishedRequests(s: State, p: Preference)
    ensures SameRequests(s, Refusal(s, p)) && SameRequests(s, Finished(s, p.generation, Delivering))
  {
    FinishedKeeps(s, p.generation, Failing);
    FinishedKeeps(s, p.generation, Retrying);
    FinishedKeeps(s, p.generation, Delivering);
    hide Finished;
  }

  lemma ReplyRequests(s: State, step: Step)
    requires Answers(step).Some?
    ensures Apply(s, step).generation == s.generation && Apply(s, step).nextId >= s.nextId
    ensures NoOlderEfforts(s, Apply(s, step), s.nextId)
  {
    if step.ModelReply? && step.id in s.models {
      FinishedRequests(s.(models := s.models - {step.id}), s.models[step.id]);
    } else if step.EffortReply? && step.id in s.efforts {
      FinishedRequests(s.(efforts := s.efforts - {step.id}), s.efforts[step.id]);
    }
    hide Finished, Refusal;
  }

  lemma StopRequests(s: State)
    ensures Stopped(s).generation == s.generation + 1 && Stopped(s).nextId == s.nextId && Stopped(s).efforts == map[]
  {
  }

  lemma GenerationSteps(s: State, step: Step)
    ensures var t := Apply(s, step);
            && t.generation == s.generation + (if StartsOver(s, step) then 1 else 0)
            && t.nextId >= s.nextId && NoOlderEfforts(s, t, s.nextId)
  {
    hide Begun, Finished, Sent, ModelReplied, EffortReplied, Stopped;
    if Answers(step).Some? {
      ReplyRequests(s, step);
    } else if Begins(s, step).Some? {
      BegunRequests(Begins(s, step).value);
    } else if step.SendPrompt? {
      SentKeeps(s, step.prompt);
    } else if step.Stop? {
      StopRequests(s);
    } else if step.SetReasoning? {
      FinishedKeeps(s.(generation := s.generation + 1), s.generation + 1, Failing);
    }
  }

  lemma {:induction false} DeadWereIssued(steps: seq<Step>)
    ensures DeadOk(After(steps))
  {
    if steps != [] {
      var s := After(steps[..|steps| - 1]);
      DeadWereIssued(steps[..|steps| - 1]);
      DeadSteps(s, steps[|steps| - 1]);
      GenerationSteps(s, steps[|steps| - 1]);
      IssuesNext(s, steps[|steps| - 1]);
      hide After, Apply, AppliedOffline;
    }
  }

  lemma IssuesNext(s: State, step: Step)
    ensures AppliedOffline(s, step) ==> Apply(s, step).nextId == s.nextId + 1
  {
  }

  /** A stuck workflow stays stuck, whatever is answered, sent or cancelled and however the
      link changes, until a step starts a new generation: a stop, an unknown effort, or a
      session, model, route or effort for which a workflow begins. And each of these ends it. */
  lemma StuckExactlyUntil(steps: seq<Step>, step: Step)
    requires Stuck(After(steps))
    ensures Stuck(Apply(After(steps), step)) <==> !StartsOver(After(steps), step)
  {
    var s := After(steps);
    var t := Apply(s, step);
    RunKeeps(steps);
    DeadWereIssued(steps);
    RunKeeps(steps + [step]);
    assert (steps + [step])[..|steps|] == steps;
    assert Inv(t);
    GenerationSteps(s, step);
    DeadSteps(s, step);
    var id :| id in s.dead && id in s.efforts && s.efforts[id].generation == s.generation;
    hide After, Apply;
    if StartsOver(s, step) {
      OlderEffortsStay(s, step);
    } else {
      StuckStays(s, step, id);
    }
  }

  lemma StuckStays(s: State, step: Step, id: RequestId)
    requires Inv(s) && s.pending && id in s.dead && id in s.efforts && s.efforts[id].generation == s.generation
    requires !StartsOver(s, step)
    ensures var t := Apply(s, step); t.pending && id in t.efforts && t.efforts[id] == s.efforts[id]
  {
    assert IsCurrent(s, id);
    if Answers(step).Some? {
      ReplyEnds(s, step);
      if AnswersCurrent(s, step) {
        assert false;
      }
      if step.EffortReply? && step.id == id { assert Apply(s, step) == s; }
    } else {
      OtherStepsKeep(s, step);
    }
    hide Finished, Refusal;
  }

  lemma OtherStepsKeep(s: State, step: Step)
    requires !StartsOver(s, step) && Answers(step).None?
    ensures Apply(s, step).pending == s.pending && Apply(s, step).efforts == s.efforts
  {
    hide Begun, Finished, ModelReplied, EffortReplied, Sent;
    if step.SendPrompt? { SentKeeps(s, step.prompt); }
  }

  /** In a new generation only a new request can be the current one. */
  lemma OlderEffortsStay(s: State, step: Step)
    requires Inv(s) && DeadOk(s) && StartsOver(s, step)
    ensures !AppliedOffline(s, step)
    ensures var t := Apply(s, step);
            forall id | id in t.efforts && id < s.nextId :: t.efforts[id].generation < t.generation
  {
    GenerationSteps(s, step);
    hide Apply, Finished;
  }

  const WithBoth: Desired := Desired(1, true, true, false, true)

  /** And it happens: the session's model is reported applied after the link went down. */
  lemma ReplyIntoDeadLinkSticks()
    ensures Stuck(After([EnsureRoute(WithBoth), LinkChanged(true), SessionReady(true), LinkChanged(false),
            ModelReply(0, true)]))
  {
    var s1 := Initial.(desired := WithBoth);
    var s2 := s1.(connected := true);
    var p := Preference(1, false, true);
    var s3 := s2.(session := true, generation := 1, pending := true, phase := Applying, models := map[0 := p],
        nextId := 1);
    var s4 := s3.(connected := false);
    var s5 := s4.(models := map[], efforts := map[1 := p], nextId := 2, dead := {1});
    assert Apply(Initial, EnsureRoute(WithBoth)) == s1;
    assert Apply(s1, LinkChanged(true)) == s2;
    assert Apply(s2, SessionReady(true)) == s3;
    assert Apply(s3, LinkChanged(false)) == s4;
    assert Apply(s4, ModelReply(0, true)) == s5 by { assert s4.models - {0} == map[]; }
    assert 1 in s5.dead && Stuck(s5);
    hide Apply;
    FiveSteps(EnsureRoute(WithBoth), LinkChanged(true), SessionReady(true), LinkChanged(false), ModelReply(0, true));
  }

  lemma FiveSteps(a: Step, b: Step, c: Step, d: Step, e: Step)
    ensures After([a, b, c, d, e]) == Apply(Apply(Apply(Apply(Apply(Initial, a), b), c), d), e)
  {
    hide Apply;
    assert [a, b, c, d, e][..4] == [a, b, c, d] && [a, b, c, d][..3] == [a, b, c];
    assert [a, b, c][..2] == [a, b] && [a, b][..1] == [a] && [a][..0] == [];
    assert After([a]) == Apply(After([]), a);
    assert After([a, b]) == Apply(After([a]), b);
    assert After([a, b, c]) == Apply(After([a, b]), c);
    assert After([a, b, c, d]) == Apply(After([a, b, c]), d);
  }

  // -------------------------------------------------------------------- the service

  /** The service as an object. Emissions to the user interface are the entries of `fates`. */
  class HermesService {
    var session: bool
    var connected: bool
    var preferencesPending: bool
    var preferencesFailed: bool
    var queuedPrompt: Option<Prompt>
    var generation: nat
    var phase: Phase
    var desired: Desired
    var modelRequests: map<RequestId, Preference>
    var reasoningRequests: map<RequestId, Preference>
    var nextId: RequestId
    var dead: set<RequestId>
    var fates: seq<Fate>

    constructor ()
      ensures View() == Initial
    {
      session, connected, preferencesPending, preferencesFailed, queuedPrompt, generation := false, false, false,
          false, None, 0;
      phase, desired, modelRequests, reasoningRequests := Unconfigured, Desired(0, false, false, true, true), map[],
          map[];
      nextId, dead, fates := 0, {}, [];
    }

    function View(): State
      reads this
    {
      State(session, connected, preferencesPending, preferencesFailed, queuedPrompt, generation, phase, desired,
            modelRequests, reasoningRequests, nextId, dead, fates)
    }

    method EmitUndelivered(p: Prompt)
      modifies this`fates
      ensures fates == old(fates) + [Undelivered(p)]
    {
      fates := fates + [Undelivered(p)];
    }

    method SendPrompt(p: Prompt)
      modifies this`fates, this`queuedPrompt
      ensures View() == Sent(old(View()), p)
    {
      if preferencesFailed {
        fates := fates + [Refused(p)];
        return;
      }
      if !session || preferencesPending {
        if queuedPrompt.Some? {
          if queuedPrompt.value != p { EmitUndelivered(queuedPrompt.value); } else { fates := fates + [Merged(p)]; }
        }
        queuedPrompt := Some(p);
        return;
      }
      fates := fates + [Submitted(p)];
    }

    method Cancel()
      modifies this`fates, this`queuedPrompt
      ensures View() == Dropped(old(View()))
    {
      if queuedPrompt.Some? { EmitUndelivered(queuedPrompt.value); }
      queuedPrompt := None;
    }

    method Stop()
      modifies this
      ensures View() == Stopped(old(View()))
    {
      ghost var start := View();
      generation := generation + 1;
      phase, preferencesPending, preferencesFailed := Unconfigured, false, false;
      modelRequests, reasoningRequests := map[], map[];
      assert View() == Cleared(start);
      hide Dropped, Cleared;
      Cancel();
      ghost var dropped := View();
      connected := false;
      assert View() == dropped.(connected := false);
    }

    method FinishSessionPreferences(active: nat, ending: Ending)
      modifies this`preferencesPending, this`preferencesFailed, this`phase, this`queuedPrompt, this`fates
      ensures View() == Finished(old(View()), active, ending)
    {
      if active != generation { return; }
      preferencesPending, preferencesFailed := false, ending == Failing;
      phase := match ending case Delivering => Ready case Retrying => Retryable case Failing => FailedRoute;
      var queued := queuedPrompt;
      queuedPrompt := None;
      if queued.Some? {
        if ending != Failing { SendPrompt(queued.value); } else { EmitUndelivered(queued.value); }
      }
    }

    method RequestModel()
      modifies this`modelRequests, this`nextId
      ensures View() == ModelRequested(old(View()))
    {
      modelRequests := modelRequests[nextId := Preference(generation, desired.persist, desired.fallback)];
      nextId := nextId + 1;
    }

    /** With the link down the client reports the error before the request is noted. */
    method RequestReasoning()
      modifies this`reasoningRequests, this`nextId, this`dead
      ensures View() == EffortRequested(old(View()))
    {
      if !connected { dead := dead + {nextId}; }
      reasoningRequests := reasoningRequests[nextId := Preference(generation, desired.persist, desired.fallback)];
      nextId := nextId + 1;
    }

    method BeginPreferenceWorkflow()
      modifies this
      ensures View() == Begun(old(View()))
    {
      hide Finished;
      generation := generation + 1;
      preferencesPending, preferencesFailed, phase := true, false, Applying;
      if !session || !connected {
        FinishSessionPreferences(generation, Failing);
      } else if desired.hasModel {
        RequestModel();
      } else if desired.hasReasoning {
        RequestReasoning();
      } else {
        FinishSessionPreferences(generation, Delivering);
      }
    }

    method OnModelReply(id: RequestId, applied: bool)
      modifies this
      ensures View() == ModelReplied(old(View()), id, applied)
    {
      hide Finished;
      if id !in modelRequests || id in dead { return; }
      var request := modelRequests[id];
      modelRequests := modelRequests - {id};
      if request.generation != generation { return; }
      if !applied {
        FinishSessionPreferences(request.generation,
                                 if request.persist || !request.fallback then Failing else Retrying);
      } else if desired.hasReasoning {
        RequestReasoning();
      } else {
        FinishSessionPreferences(request.generation, Delivering);
      }
    }

    method OnReasoningReply(id: RequestId, applied: bool)
      modifies this
      ensures View() == EffortReplied(old(View()), id, applied)
    {
      hide Finished;
      if id !in reasoningRequests || id in dead { return; }
      var request := reasoningRequests[id];
      reasoningRequests := reasoningRequests - {id};
      if request.generation != generation { return; }
      if !applied {
        FinishSessionPreferences(request.generation,
                                 if request.persist || !request.fallback then Failing else Retrying);
      } else {
        FinishSessionPreferences(request.generation, Delivering);
      }
    }
  }
}
