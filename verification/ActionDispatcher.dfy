/** The benchmark dispatcher as an object that owns a plan store and an episode state machine. */
module BenchmarkDispatcher {
  import opened Prelude
  import opened ChunkPlanning
  import opened Smoothing
  import opened Plans
  import opened Episodes
  import opened ActivePlanStore
  import opened EpisodeMachine
  import opened Dispatching

  /** Freezing concerns the first context of its generation only. */
  lemma {:induction false} FreezeFirst(contexts: seq<GoalContext>, generation: nat, outcome: Outcome, i: nat)
    requires i <= |contexts| && forall k :: 0 <= k < i ==> contexts[k].generation != generation
    requires i < |contexts| ==> contexts[i].generation == generation
    ensures Freeze(contexts, generation, outcome)
            == if i < |contexts| && contexts[i].outcome.None?
               then contexts[i := contexts[i].(outcome := Some(outcome))] else contexts
  {
    if i > 0 {
      FreezeFirst(contexts[1..], generation, outcome, i - 1);
    }
  }

  class ActionDispatcher {
    const cfg: Config
    const activePlan: ActivePlan
    const machine: EpisodeStateMachine
    var requestGeneration: nat
    var inflightRequest: Option<nat>
    var planLengthAtStart: nat
    var pending: Pending
    // In the order in which the goals were bound.
    var goalContexts: seq<GoalContext>
    var activeHandle: Option<nat>
    var lastAction: Option<Action>
    var readinessDeadline: int

    ghost function Repr(): set<object> {
      {this, machine} + activePlan.Repr()
    }

    ghost function View(): Dispatcher
      reads Repr()
    {
      Dispatcher(activePlan.View(), machine.View(),
                 Requests(requestGeneration, inflightRequest, planLengthAtStart),
                 pending, goalContexts, activeHandle, lastAction, readinessDeadline)
    }

    ghost predicate Valid()
      reads Repr()
    {
      activePlan.Valid() && machine.Valid() && activePlan.settings == cfg.settings
    }

    constructor (cfg: Config, activePlan: ActivePlan, machine: EpisodeStateMachine)
      requires activePlan.Valid() && activePlan.settings == cfg.settings
      requires activePlan.View() == NewPlan(cfg.settings, activePlan.View().enabled)
      requires machine.Valid() && machine.View() == INITIAL
      ensures Valid() && this.cfg == cfg && this.activePlan == activePlan && this.machine == machine
      ensures View() == NewDispatcher(cfg, activePlan.View().enabled)
    {
      this.cfg, this.activePlan, this.machine := cfg, activePlan, machine;
      requestGeneration, inflightRequest, planLengthAtStart := 0, None, 0;
      pending, goalContexts, activeHandle := NOTHING_PENDING, [], None;
      lastAction, readinessDeadline := None, 0;
    }

    // ---- Clearing and closing -------------------------------------------------------------------------

    method InvalidateInference()
      modifies this`requestGeneration, this`inflightRequest
      ensures View() == old(View()).(requests := Invalidate(old(View()).requests))
    {
      requestGeneration := requestGeneration + 1;
      inflightRequest := None;
    }

    method ClearLocalState(invalidateInference: bool)
      requires Valid()
      modifies Repr() - {machine}
      ensures Valid() && View() == ClearLocal(cfg, old(View()), invalidateInference)
    {
      if invalidateInference {
        InvalidateInference();
      }
      activePlan.Clear();
      pending := NOTHING_PENDING;
      lastAction := None;
    }

    /** Search the contexts for this generation; never overwrite an outcome. */
    method FreezeContext(generation: nat, outcome: Outcome)
      modifies this`goalContexts
      ensures goalContexts == Freeze(old(goalContexts), generation, outcome)
    {
      var i := 0;
      while i < |goalContexts| && goalContexts[i].generation != generation
        invariant 0 <= i <= |goalContexts| && goalContexts == old(goalContexts)
        invariant forall k :: 0 <= k < i ==> goalContexts[k].generation != generation
      {
        i := i + 1;
      }
      FreezeFirst(goalContexts, generation, outcome, i);
      if i == |goalContexts| {
        return;
      }
      if goalContexts[i].outcome.Some? {
        return;
      }
      goalContexts := goalContexts[i := goalContexts[i].(outcome := Some(outcome))];
    }

    method EndEpisode(kind: Conclusion, reason: Reason)
      requires Valid()
      modifies Repr()
      ensures Valid() && View() == End(cfg, old(View()), kind, reason)
    {
      var generation := machine.goal.generation;
      var result := machine.TryCloseWithResult(generation, if kind == Aborts then Faulty else Normally, reason);
      if result.None? {
        return;
      }
      ClearAndFreeze(kind != Finishes, generation, Outcome(result.value, reason, StatusOf(kind)));
    }

    method ClearAndFreeze(invalidateInference: bool, generation: nat, outcome: Outcome)
      requires Valid()
      modifies Repr() - {machine}
      ensures Valid()
      ensures View() == ClearLocal(cfg, old(View()), invalidateInference)
                        .(contexts := Freeze(old(goalContexts), generation, outcome))
    {
      ClearLocalState(invalidateInference);
      FreezeContext(generation, outcome);
    }

    // ---- Goals ------------------------------------------------------------------------------------------

    method PrepareEpisode() returns (begun: bool)
      requires Valid()
      modifies Repr()
      ensures Valid() && View() == BeginPrepare(cfg, old(View()))
      ensures begun == old(View()).episode.CanPrepare()
    {
      begun := machine.TryBeginPreparing();
      if begun {
        ClearLocalState(true);
      }
    }

    method FinishPrepare(succeeded: bool) returns (token: Option<nat>)
      requires Valid()
      modifies machine
      ensures Valid() && View() == EndPrepare(old(View()), succeeded)
      ensures token.Some? <==> succeeded && old(View()).episode.phase == Preparing
      ensures token.Some? ==> token.value == View().episode.tokens.current
    {
      if succeeded {
        var issued := machine.CompletePrepare();
        token := if issued.Ok? then Some(issued.value) else None;
      } else {
        var failed := machine.FailPrepare();
        token := None;
      }
    }

    method RunPolicyGoal(spec: GoalSpec) returns (accepted: bool)
      requires Valid()
      modifies machine
      ensures Valid() && View() == RequestGoal(old(View()), spec)
      ensures accepted == old(ValidateGoal(View().episode, spec)).None?
    {
      var error := machine.TryAcceptGoal(spec);
      accepted := error.None?;
    }

    method HandleAccepted(uuid: nat, now: int) returns (bound: bool)
      requires Valid()
      modifies Repr()
      ensures Valid() && View() == BindHandle(old(View()), uuid, now)
    {
      var generation := machine.goal.generation;
      bound := machine.TryBindGoal(generation, now);
      if !bound {
        return;
      }
      goalContexts := goalContexts + [GoalContext(uuid, generation, None)];
      activeHandle := Some(uuid);
      readinessDeadline := machine.deadlines.startup;
    }

    /** Nothing is returned before the goal's own context is frozen. */
    method ExecuteReturn(uuid: nat) returns (outcome: Option<Outcome>)
      requires Valid()
      modifies this`goalContexts, this`activeHandle
      ensures Valid() && View() == Return(old(View()), uuid)
      ensures outcome == old(Awaited(View(), uuid))
    {
      var found := FindContext(goalContexts, uuid);
      if found.None? {
        return None;
      }
      outcome := goalContexts[found.value].outcome;
      if outcome.None? {
        return;
      }
      if activeHandle == Some(uuid) {
        activeHandle := None;
      }
      goalContexts := goalContexts[..found.value] + goalContexts[found.value + 1..];
    }

    // ---- Inference ----------------------------------------------------------------------------------------

    method GateOpen() returns (open: bool)
      ensures open == View().episode.GateOpen()
    {
      open := machine.phase == Starting || machine.phase == Running;
    }

    /** The callbacks of the request will carry what is captured here. */
    method RequestInference(id: nat) returns (sent: Option<Sent>)
      requires Valid()
      modifies this`inflightRequest, this`planLengthAtStart
      ensures Valid() && View() == Request(old(View()), id)
      ensures sent == if old(MayRequest(View())) then Some(Sent(View().requests.generation, View().Generation())) else None
    {
      var open := GateOpen();
      if !open || inflightRequest.Some? {
        return None;
      }
      planLengthAtStart := activePlan.Remaining();
      inflightRequest := Some(id);
      sent := Some(Sent(requestGeneration, machine.goal.generation));
    }

    method CompleteInflightRequest(id: nat)
      modifies this`inflightRequest
      ensures View() == CompleteInflight(old(View()), id)
    {
      if inflightRequest == Some(id) {
        inflightRequest := None;
      }
    }

    method ResultArrived(id: nat, sent: Sent, reply: Reply, now: int)
      requires Valid()
      modifies Repr()
      ensures Valid() && View() == Answer(cfg, old(View()), id, sent, reply, now)
    {
      if sent.requestGeneration != requestGeneration || inflightRequest != Some(id) {
        return;
      }
      var open := GateOpen();
      if activeHandle.None? || !open || sent.goalGeneration != machine.goal.generation {
        CompleteInflightRequest(id);
        return;
      }
      CompleteInflightRequest(id);
      match reply {
        case Undecodable => EndEpisode(Aborts, InferenceFailed);
        case Failed => EndEpisode(Aborts, InferenceFailed);
        case NotReady =>
          if now >= readinessDeadline {
            EndEpisode(Aborts, ObservationStartupTimeout);
          }
        case Predicted(actions, horizon) => AcceptResult(id, sent, actions, horizon);
      }
    }

    method AcceptResult(id: nat, sent: Sent, actions: Chunk, horizon: int)
      requires Valid() && machine.View().GateOpen()
      modifies Repr()
      ensures Valid()
      ensures var accepted := old(AcceptedPlan(cfg, View(), id, sent, actions, horizon));
              View() == if accepted.Err? then End(cfg, old(View()), Aborts, InferenceFailed)
                        else old(View()).(plan := accepted.value,
                                          episode := InferenceSuccess(old(View()).episode, sent.goalGeneration))
    {
      var candidate := PlanResult(actions, horizon);
      if candidate.Err? {
        EndEpisode(Aborts, InferenceFailed);
        return;
      }
      var accepted := activePlan.Accept(candidate.value, PlanSource(id, sent.requestGeneration, 0, 0), cfg.dimension);
      if accepted.Err? {
        EndEpisode(Aborts, InferenceFailed);
        return;
      }
      var applied := machine.TryOnInferenceSuccess(sent.goalGeneration);
    }

    method PlanResult(actions: Chunk, horizon: int) returns (candidate: Result<ChunkPlan, PlanError>)
      requires Valid()
      ensures candidate == Planned(cfg, View(), actions, horizon)
    {
      var remaining := activePlan.Remaining();
      var checked := ValidateExecutionHorizon(Some(horizon), |actions.rows|);
      if checked.Err? {
        return Err(checked.error);
      }
      candidate := PlanChunk(cfg.planner, actions, Max(0, planLengthAtStart - remaining), checked.value);
    }

    method ExpireInferenceRequest()
      modifies this`requestGeneration, this`inflightRequest
      ensures View() == ExpireInference(old(View()))
    {
      if inflightRequest.None? {
        return;
      }
      InvalidateInference();
    }

    // ---- Submitting and committing ------------------------------------------------------------------------

    method AbortIfBound(reason: Reason)
      requires Valid()
      modifies Repr()
      ensures Valid()
      ensures View() == if old(View()).HasGoal() then End(cfg, old(View()), Aborts, reason) else old(View())
    {
      var open := GateOpen();
      if activeHandle.Some? && open {
        EndEpisode(Aborts, reason);
      }
    }

    /** The episode commits the step and the plan gives up the action, or neither does. */
    method CommitReservedAction(c: Completion, now: int)
      requires Valid()
      modifies Repr()
      ensures Valid() && View() == Apply(cfg, old(View()), Commit(c), now)
    {
      if pending.correlation != Some(c.correlation) {
        return;
      }
      if !activePlan.IsCurrent(pending.reservation) {
        pending := pending.(correlation := None);
        AbortIfBound(ExecutionUncertain);
        return;
      }
      var open := GateOpen();
      if activeHandle.None? || !open {
        ConsumeReserved();
        return;
      }
      CommitUnderGoal(c, now);
    }

    method CommitUnderGoal(c: Completion, now: int)
      requires Valid()
      requires pending.correlation == Some(c.correlation) && Plans.IsCurrent(View().plan, pending.reservation)
      modifies Repr()
      ensures Valid()
      ensures old(View()).HasGoal() ==> View() == Apply(cfg, old(View()), Commit(c), now)
    {
      var outcome := machine.TryCommitStep(machine.goal.generation, c.data, now);
      match outcome {
        case Mismatch => EndEpisode(Aborts, IdentityMismatch);
        case Dropped => pending := pending.(correlation := None);
        case Applied(reason) => ConsumeCommitted(c.data, reason, now);
      }
    }

    /** What a committed step entails, down to the end of the episode. */
    method ConsumeCommitted(data: StepData, reason: Option<Reason>, now: int)
      requires Valid() && View().plan.reservation.Some?
      modifies Repr()
      ensures Valid()
      ensures var v := old(View());
              var consumed := v.(plan := Plans.CommitReserved(v.plan), pending := NOTHING_PENDING,
                                 lastAction := v.pending.action,
                                 readinessDeadline :=
                                   if data.observationTimestamp.Some? && data.observationTimestamp.value > 0
                                   then now + Nanoseconds(v.episode.goal.startupTimeout) else v.readinessDeadline);
              View() == if reason.None? then consumed else End(cfg, consumed, Finishes, reason.value)
    {
      ConsumeReserved();
      ExtendReadiness(data, now);
      if reason.Some? {
        EndEpisode(Finishes, reason.value);
      }
    }

    method ConsumeReserved()
      requires Valid() && View().plan.reservation.Some?
      modifies Repr() - {machine}
      ensures Valid()
      ensures View() == old(View()).(plan := Plans.CommitReserved(old(View()).plan), pending := NOTHING_PENDING,
                                     lastAction := old(View()).pending.action)
    {
      activePlan.CommitReserved();
      lastAction := pending.action;
      pending := NOTHING_PENDING;
    }

    method ExtendReadiness(data: StepData, now: int)
      modifies this`readinessDeadline
      ensures View() == old(View()).(readinessDeadline :=
                if data.observationTimestamp.Some? && data.observationTimestamp.value > 0
                then now + Nanoseconds(old(View()).episode.goal.startupTimeout) else old(readinessDeadline))
    {
      if data.observationTimestamp.Some? && data.observationTimestamp.value > 0 {
        readinessDeadline := now + Nanoseconds(machine.goal.startupTimeout);
      }
    }

    method ApplyTransition(t: Transition, now: int)
      requires Valid()
      modifies Repr()
      ensures Valid() && View() == Apply(cfg, old(View()), t, now)
    {
      match t {
        case Ignore =>
        case Commit(c) => CommitReservedAction(c, now);
        case FailClosed(fault) =>
          pending := pending.(correlation := None);
          AbortIfBound(FaultReason(fault));
      }
    }

    method SubmitNextAction(correlation: nat, receipt: Receipt, now: int)
      requires Valid()
      modifies Repr()
      ensures Valid() && View() == Submit(cfg, old(View()), correlation, receipt, now)
    {
      var open := GateOpen();
      if !open || inflightRequest.Some? {
        return;
      }
      var reserved := activePlan.Reserve();
      if reserved.None? {
        return;
      }
      if receipt.Declined? {
        AbortIfBound(ExecutionRejected);
        return;
      }
      pending := Pending(Some(correlation), Some(reserved.value.0), Some(reserved.value.1));
      if receipt.Immediate? {
        ApplyTransition(receipt.transition, now);
      }
    }

    // ---- Ticks and services ---------------------------------------------------------------------------------

    method CancelSeen()
      requires Valid()
      modifies Repr()
      ensures Valid() && View() == CancelRequested(cfg, old(View()))
    {
      var open := GateOpen();
      if open && activeHandle.Some? {
        EndEpisode(Cancels, Canceled);
      }
    }

    method CheckDeadlines(now: int)
      requires Valid()
      modifies Repr()
      ensures Valid() && View() == CheckDuration(cfg, CheckStartup(cfg, old(View()), now), now)
    {
      var open := GateOpen();
      if !open {
        return;
      }
      var late := machine.TryCheckStartupDeadline(machine.goal.generation, now);
      if late.Some? {
        EndEpisode(Aborts, late.value);
        return;
      }
      var over := machine.TryCheckEpisodeDeadline(machine.goal.generation, now);
      if over.Some? {
        EndEpisode(Finishes, over.value);
      }
    }

    method ResetCalled()
      requires Valid()
      modifies Repr()
      ensures Valid() && View() == Reset(cfg, old(View()))
    {
      var active := machine.IsActiveGoal();
      if active {
        EndEpisode(Aborts, ExternalReset);
        return;
      }
      ClearLocalState(true);
      planLengthAtStart := 0;
    }

    method RuntimeRevoked()
      requires Valid()
      modifies Repr() - {machine}
      ensures Valid() && View() == Revoke(cfg, old(View()))
    {
      ClearLocalState(true);
    }

    method ToggleSmoothing(enabled: bool)
      requires Valid()
      modifies activePlan.Repr()
      ensures Valid() && View() == Toggle(cfg, old(View()), enabled)
    {
      activePlan.SetSmoothingEnabled(enabled);
    }
  }
}
