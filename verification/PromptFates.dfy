/** Which fate a prompt gets, when, and how a preference workflow moves: said of every step
    of every run, by the fields of the state before and after it. */
module PromptFates {
  import opened Wrappers
  import opened PromptWorkflow

  /** The answer is to a request of the current generation that is still out. */
  predicate CurrentModel(s: State, id: RequestId) {
    id in s.models && id !in s.dead && s.models[id].generation == s.generation
  }

  predicate CurrentEffort(s: State, id: RequestId) {
    id in s.efforts && id !in s.dead && s.efforts[id].generation == s.generation
  }

  /** A failed preference may be passed over: it was not to be kept, and may fall back. */
  predicate MayFallBack(p: Preference) {
    !p.persist && p.fallback
  }

  /** The step ends the workflow with its preferences applied. */
  predicate AppliesLast(s: State, step: Step) {
    match step
    case ModelReply(id, applied) => CurrentModel(s, id) && applied && !s.desired.hasReasoning
    case EffortReply(id, applied) => CurrentEffort(s, id) && applied
    case SessionReady(named) => named && s.connected && !s.desired.hasModel && !s.desired.hasReasoning
    case _ => false
  }

  /** It ends the workflow with a preference passed over. */
  predicate PassesOver(s: State, step: Step) {
    match step
    case ModelReply(id, applied) => CurrentModel(s, id) && !applied && MayFallBack(s.models[id])
    case EffortReply(id, applied) => CurrentEffort(s, id) && !applied && MayFallBack(s.efforts[id])
    case _ => false
  }

  /** It ends the workflow with a failure. */
  predicate Fails(s: State, step: Step) {
    match step
    case ModelReply(id, applied) => CurrentModel(s, id) && !applied && !MayFallBack(s.models[id])
    case EffortReply(id, applied) => CurrentEffort(s, id) && !applied && !MayFallBack(s.efforts[id])
    case SessionReady(named) => !named || !s.connected
    case SetReasoning(valid, _) => !valid
    case _ => false
  }

  /** It begins a workflow that has something to ask for and somebody to ask. */
  predicate BeginsAsking(s: State, step: Step) {
    match step
    case SessionReady(named) => named && s.connected && (s.desired.hasModel || s.desired.hasReasoning)
    case SwitchModel(d) => s.session && s.connected && d.hasModel
    case EnsureRoute(d) =>
      && s.session && s.connected && d.hasModel
      && !(d.route == s.desired.route && d.fallback == s.desired.fallback && (s.phase == Ready || s.phase == Applying))
    case SetReasoning(valid, _) => valid && s.session && s.connected
    case _ => false
  }

  /** The model is applied and the effort is asked for next. */
  predicate AsksNext(s: State, step: Step) {
    step.ModelReply? && CurrentModel(s, step.id) && step.applied && s.desired.hasReasoning
  }

  /** A prompt waits only for a session or for preferences, and not after a failure. */
  predicate QueueOk(s: State) {
    s.queued.Some? ==> !s.failed && (!s.session || s.pending)
  }

  // -------------------------------------------------------------------- the workflow

  /** What a step makes of the workflow. */
  predicate Moves(s: State, step: Step, t: State) {
    if Fails(s, step) then !t.pending && t.failed && t.phase == FailedRoute
    else if AppliesLast(s, step) then !t.pending && !t.failed && t.phase == Ready
    else if PassesOver(s, step) then !t.pending && !t.failed && t.phase == Retryable
    else if BeginsAsking(s, step) then t.pending && !t.failed && t.phase == Applying
    else if step.Stop? then !t.pending && !t.failed && t.phase == Unconfigured
    else t.pending == s.pending && t.failed == s.failed && t.phase == s.phase
  }

  /** The request a step issues, if it does: of the current generation, with the flags of the
      route wanted now; for the model first, then for the effort. */
  predicate Issues(s: State, step: Step, t: State) {
    var request := Preference(t.generation, t.desired.persist, t.desired.fallback);
    if BeginsAsking(s, step) || AsksNext(s, step) then
      && t.nextId == s.nextId + 1
      && if BeginsAsking(s, step) && t.desired.hasModel
         then t.models == s.models[s.nextId := request] && t.efforts == s.efforts
         else t.efforts == s.efforts[s.nextId := request]
              && t.models == if step.ModelReply? then s.models - {step.id} else s.models
    else
      && t.nextId == s.nextId
      && t.models == (if step.Stop? then map[]
                      else if step.ModelReply? && step.id !in s.dead then s.models - {step.id} else s.models)
      && t.efforts == (if step.Stop? then map[]
                       else if step.EffortReply? && step.id !in s.dead then s.efforts - {step.id} else s.efforts)
  }

  /** The route wanted after a step, and the generation, the session and the link. */
  predicate Wants(s: State, step: Step, t: State) {
    && t.desired == (match step
                     case SwitchModel(d) =>
                       if BeginsAsking(s, step) then d.(persist := true, fallback := s.desired.fallback) else s.desired
                     case EnsureRoute(d) =>
                       if !d.hasModel || (d.route == s.desired.route && d.fallback == s.desired.fallback
                                          && (s.phase == Ready || s.phase == Applying))
                       then s.desired else d.(persist := false)
                     case SetReasoning(_, route) =>
                       if BeginsAsking(s, step) then s.desired.(route := route, hasReasoning := true) else s.desired
                     case _ => s.desired)
    && t.generation == s.generation + (if BeginsAsking(s, step) || step.SessionReady? || step.Stop?
                                         || (step.SetReasoning? && !step.valid) then 1 else 0)
    && t.session == (if step.SessionReady? then step.named else if step.SessionLost? then false else s.session)
    && t.connected == (if step.LinkChanged? then step.connected else if step.Stop? then false else s.connected)
  }

  /** What becomes of the waiting prompt in a step that sends none: it is submitted when the
      workflow ends well and there is a session; it is reported undelivered on a failure, a
      cancel or a stop; and it waits on otherwise. */
  predicate Delivers(s: State, step: Step, t: State) {
    if s.queued.None? then t.queued == None && t.fates == s.fates
    else if (AppliesLast(s, step) || PassesOver(s, step)) && t.session
    then t.queued == None && t.fates == s.fates + [Submitted(s.queued.value)]
    else if Fails(s, step) || step.Cancel? || step.Stop?
    then t.queued == None && t.fates == s.fates + [Undelivered(s.queued.value)]
    else t.queued == s.queued && t.fates == s.fates
  }

  /** What ending the workflow of the current generation leaves. */
  ghost predicate Ends(s: State, ending: Ending, t: State) {
    && t == s.(pending := false, failed := ending == Failing, phase := t.phase, queued := t.queued, fates := t.fates)
    && t.phase == (match ending case Delivering => Ready case Retrying => Retryable case Failing => FailedRoute)
    && if s.queued.None? then t.queued == None && t.fates == s.fates
       else if ending == Failing then t.queued == None && t.fates == s.fates + [Undelivered(s.queued.value)]
       else if s.session then t.queued == None && t.fates == s.fates + [Submitted(s.queued.value)]
       else t.queued == s.queued && t.fates == s.fates
  }

  lemma FinishedEnds(s: State, generation: nat, ending: Ending)
    requires generation == s.generation
    ensures Ends(s, ending, Finished(s, generation, ending))
  {
  }

  lemma ModelReplyMoves(s: State, id: RequestId, applied: bool)
    requires Inv(s) && QueueOk(s)
    ensures var step := ModelReply(id, applied);
            var t := Apply(s, step);
            Moves(s, step, t) && Delivers(s, step, t) && QueueOk(t) && Issues(s, step, t) && Wants(s, step, t)
  {
    hide Finished, TablesOk;
    if id in s.models {
      var u := s.(models := s.models - {id});
      if CurrentModel(s, id) {
        assert IsCurrent(s, id);
        FinishedEnds(u, s.generation, Failing);
        FinishedEnds(u, s.generation, Retrying);
        FinishedEnds(u, s.generation, Delivering);
      }
    } else {
      assert s.models - {id} == s.models;
    }
  }

  lemma EffortReplyMoves(s: State, id: RequestId, applied: bool)
    requires Inv(s) && QueueOk(s)
    ensures var step := EffortReply(id, applied);
            var t := Apply(s, step);
            Moves(s, step, t) && Delivers(s, step, t) && QueueOk(t) && Issues(s, step, t) && Wants(s, step, t)
  {
    hide Finished, TablesOk;
    if id in s.efforts {
      var u := s.(efforts := s.efforts - {id});
      if CurrentEffort(s, id) {
        assert IsCurrent(s, id);
        FinishedEnds(u, s.generation, Failing);
        FinishedEnds(u, s.generation, Retrying);
        FinishedEnds(u, s.generation, Delivering);
      }
    } else {
      assert s.efforts - {id} == s.efforts;
    }
  }

  /** Beginning a workflow: it ends at once, or asks for the model, or for the effort. */
  ghost predicate Starts(s: State, t: State) {
    var u := s.(generation := s.generation + 1, pending := true, failed := false, phase := Applying);
    var request := Preference(u.generation, s.desired.persist, s.desired.fallback);
    if !s.session || !s.connected then Ends(u, Failing, t)
    else if s.desired.hasModel then t == u.(models := s.models[s.nextId := request], nextId := s.nextId + 1)
    else if s.desired.hasReasoning then t == u.(efforts := s.efforts[s.nextId := request], nextId := s.nextId + 1)
    else Ends(u, Delivering, t)
  }

  lemma BegunStarts(s: State)
    ensures Starts(s, Begun(s))
  {
    var u := s.(generation := s.generation + 1, pending := true, failed := false, phase := Applying);
    FinishedEnds(u, u.generation, Failing);
    FinishedEnds(u, u.generation, Delivering);
    hide Finished, Ends;
  }

  lemma SessionMoves(s: State, named: bool)
    requires QueueOk(s)
    ensures var step := SessionReady(named);
            var t := Apply(s, step);
            Moves(s, step, t) && Delivers(s, step, t) && QueueOk(t) && Issues(s, step, t) && Wants(s, step, t)
  {
    BegunStarts(s.(session := named));
    hide Begun;
  }

  lemma SwitchMoves(s: State, d: Desired)
    requires QueueOk(s)
    ensures var step := SwitchModel(d);
            var t := Apply(s, step);
            Moves(s, step, t) && Delivers(s, step, t) && QueueOk(t) && Issues(s, step, t) && Wants(s, step, t)
  {
    BegunStarts(s.(desired := d.(persist := true, fallback := s.desired.fallback)));
    hide Begun;
  }

  lemma RouteMoves(s: State, d: Desired)
    requires QueueOk(s)
    ensures var step := EnsureRoute(d);
            var t := Apply(s, step);
            Moves(s, step, t) && Delivers(s, step, t) && QueueOk(t) && Issues(s, step, t) && Wants(s, step, t)
  {
    BegunStarts(s.(desired := d.(persist := false)));
    hide Begun;
  }

  lemma EffortMoves(s: State, valid: bool, route: nat)
    requires QueueOk(s)
    ensures var step := SetReasoning(valid, route);
            var t := Apply(s, step);
            Moves(s, step, t) && Delivers(s, step, t) && QueueOk(t) && Issues(s, step, t) && Wants(s, step, t)
  {
    BegunStarts(s.(desired := s.desired.(route := route, hasReasoning := true)));
    FinishedEnds(s.(generation := s.generation + 1), s.generation + 1, Failing);
    hide Begun, Finished;
  }

  lemma SendMoves(s: State, p: Prompt)
    requires QueueOk(s)
    ensures var step := SendPrompt(p);
            var t := Apply(s, step);
            Moves(s, step, t) && QueueOk(t) && Issues(s, step, t) && Wants(s, step, t)
  {
  }

  lemma StopMoves(s: State)
    requires QueueOk(s)
    ensures var t := Apply(s, Stop);
            Moves(s, Stop, t) && Delivers(s, Stop, t) && QueueOk(t) && Issues(s, Stop, t) && Wants(s, Stop, t)
  {
  }

  lemma OtherMoves(s: State, step: Step)
    requires QueueOk(s) && (step.Cancel? || step.LinkChanged? || step.SessionLost?)
    ensures var t := Apply(s, step);
            Moves(s, step, t) && Delivers(s, step, t) && QueueOk(t) && Issues(s, step, t) && Wants(s, step, t)
  {
  }

  lemma StepFates(s: State, step: Step)
    requires Inv(s) && QueueOk(s)
    ensures var t := Apply(s, step);
            && Moves(s, step, t) && Issues(s, step, t) && Wants(s, step, t) && QueueOk(t)
            && (!step.SendPrompt? ==> Delivers(s, step, t))
  {
    hide *;
    match step
    case ModelReply(id, applied) => ModelReplyMoves(s, id, applied);
    case EffortReply(id, applied) => EffortReplyMoves(s, id, applied);
    case SessionReady(named) => SessionMoves(s, named);
    case SwitchModel(d) => SwitchMoves(s, d);
    case EnsureRoute(d) => RouteMoves(s, d);
    case SetReasoning(valid, route) => EffortMoves(s, valid, route);
    case SendPrompt(p) => SendMoves(s, p);
    case Stop => StopMoves(s);
    case _ => OtherMoves(s, step);
  }

  lemma {:induction false} RunQueue(steps: seq<Step>)
    ensures Inv(After(steps)) && QueueOk(After(steps))
  {
    hide Inv, Apply, Moves, Issues, Wants, Delivers;
    RunKeeps(steps);
    if steps != [] {
      RunQueue(steps[..|steps| - 1]);
      StepFates(After(steps[..|steps| - 1]), steps[|steps| - 1]);
    }
  }

  // ------------------------------------------------------------------- main results

  /** A prompt that is sent, on any run: refused if and only if preferences have failed;
      otherwise it waits, merging with the same one or replacing another, if and only if
      there is no session or preferences are pending; otherwise it is submitted. */
  lemma SentPromptFate(steps: seq<Step>, p: Prompt)
    ensures var s, t := After(steps), Apply(After(steps), SendPrompt(p));
            if s.failed then s.queued == None && t == s.(fates := s.fates + [Refused(p)])
            else if !s.session || s.pending then
              t == s.(queued := Some(p),
                      fates := s.fates + if s.queued == None then []
                                         else if s.queued == Some(p) then [Merged(p)]
                                         else [Undelivered(s.queued.value)])
            else s.queued == None && t == s.(fates := s.fates + [Submitted(p)])
  {
    RunQueue(steps);
    hide After, Inv;
    assert After(steps).fates + [] == After(steps).fates;
  }

  /** The waiting prompt, on any run and in any step that sends none. */
  lemma QueuedPromptFate(steps: seq<Step>, step: Step)
    requires !step.SendPrompt?
    ensures Delivers(After(steps), step, Apply(After(steps), step))
  {
    RunQueue(steps);
    StepFates(After(steps), step);
    hide After, Apply, Delivers, Moves, Issues, Wants;
  }

  /** A prompt waits only while there is no session or preferences are pending. */
  lemma WaitsForSomething(steps: seq<Step>)
    requires After(steps).queued.Some?
    ensures !After(steps).failed && (!After(steps).session || After(steps).pending)
  {
    RunQueue(steps);
    hide After, Inv;
  }

  /** How each step of any run moves the workflow, what it asks for, and what is wanted. */
  lemma WorkflowMoves(steps: seq<Step>, step: Step)
    ensures var s, t := After(steps), Apply(After(steps), step);
            Moves(s, step, t) && Issues(s, step, t) && Wants(s, step, t)
  {
    RunQueue(steps);
    StepFates(After(steps), step);
    hide After, Apply, Delivers, Moves, Issues, Wants;
  }
}
