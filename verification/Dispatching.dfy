/**
 The wait-for-feedback dispatcher in benchmark mode: what each of its locked sections does.

 The scheduler and the executor are not modelled. They choose every receipt, decision and completion.
 */
module Dispatching {
  import opened Prelude
  import opened ChunkPlanning
  import opened Smoothing
  import opened Plans
  import opened Episodes

  datatype Config = Config(settings: Settings, planner: Planner, dimension: Option<nat>)

  datatype Status = Succeeded | Aborted | Withdrawn

  /** What the execute callback of a goal returns. */
  datatype Outcome = Outcome(result: EpisodeResult, reason: Reason, status: Status)

  datatype GoalContext = GoalContext(uuid: nat, generation: nat, outcome: Option<Outcome>)

  datatype Requests = Requests(generation: nat, inflight: Option<nat>, lengthAtStart: nat)

  /** The submitted action that awaits its completion. */
  datatype Pending = Pending(correlation: Option<nat>, reservation: Option<PlanReservation>, action: Option<Action>)

  const NOTHING_PENDING := Pending(None, None, None)

  datatype Dispatcher = Dispatcher(
    plan: Plan,
    episode: Episode,
    requests: Requests,
    pending: Pending,
    contexts: seq<GoalContext>,
    activeHandle: Option<nat>,
    lastAction: Option<Action>,
    readinessDeadline: int
  ) {
    function Generation(): nat {
      episode.goal.generation
    }

    /** A goal handle is bound and the gate is open. */
    predicate HasGoal() {
      activeHandle.Some? && episode.GateOpen()
    }
  }

  function NewDispatcher(cfg: Config, smoothing: bool): Dispatcher {
    Dispatcher(NewPlan(cfg.settings, smoothing), INITIAL, Requests(0, None, 0), NOTHING_PENDING, [], None, None, 0)
  }

  // ---- Clearing and closing ---------------------------------------------------------------------------

  function Invalidate(r: Requests): Requests {
    r.(generation := r.generation + 1, inflight := None)
  }

  function ClearLocal(cfg: Config, d: Dispatcher, invalidateInference: bool): Dispatcher {
    d.(plan := Clear(cfg.settings, d.plan),
       requests := if invalidateInference then Invalidate(d.requests) else d.requests,
       pending := NOTHING_PENDING,
       lastAction := None)
  }

  /** The first context of this generation gets the outcome, unless it has one already. */
  function Freeze(contexts: seq<GoalContext>, generation: nat, outcome: Outcome): (r: seq<GoalContext>)
    ensures |r| == |contexts|
  {
    if contexts == [] then []
    else if contexts[0].generation != generation then [contexts[0]] + Freeze(contexts[1..], generation, outcome)
    else if contexts[0].outcome.Some? then contexts
    else [contexts[0].(outcome := Some(outcome))] + contexts[1..]
  }

  datatype Conclusion = Finishes | Aborts | Cancels

  function StatusOf(kind: Conclusion): Status {
    match kind case Finishes => Succeeded case Aborts => Aborted case Cancels => Withdrawn
  }

  /** Close the goal, discard its local state and freeze its context, all in one step. */
  function End(cfg: Config, d: Dispatcher, kind: Conclusion, reason: Reason): Dispatcher {
    var generation := d.Generation();
    var result := CloseResult(d.episode, generation, reason);
    if result.None? then d
    else
      ClearLocal(cfg, d, kind != Finishes)
      .(episode := Close(d.episode, generation, if kind == Aborts then Faulty else Normally, reason),
        contexts := Freeze(d.contexts, generation, Outcome(result.value, reason, StatusOf(kind))))
  }

  // ---- Goals ---------------------------------------------------------------------------------------------

  function BeginPrepare(cfg: Config, d: Dispatcher): Dispatcher {
    if d.episode.CanPrepare()
    then ClearLocal(cfg, d, true).(episode := BeginPreparing(d.episode)) else d
  }

  function EndPrepare(d: Dispatcher, succeeded: bool): Dispatcher {
    d.(episode := if succeeded then CompletePrepare(d.episode) else FailPrepare(d.episode))
  }

  function RequestGoal(d: Dispatcher, spec: GoalSpec): Dispatcher {
    d.(episode := AcceptGoal(d.episode, spec))
  }

  /** Bind the goal, register its context and open the gate; a superseded goal leaves nothing behind. */
  function BindHandle(d: Dispatcher, uuid: nat, now: int): Dispatcher {
    if !CanBind(d.episode, d.Generation()) then d
    else
      var bound := BindGoal(d.episode, d.Generation(), now);
      d.(episode := bound,
         contexts := d.contexts + [GoalContext(uuid, d.Generation(), None)],
         activeHandle := Some(uuid),
         readinessDeadline := bound.deadlines.startup)
  }

  function FindContext(contexts: seq<GoalContext>, uuid: nat): (r: Option<nat>)
    ensures r.Some? ==> r.value < |contexts| && contexts[r.value].uuid == uuid
    ensures r.None? ==> forall i :: 0 <= i < |contexts| ==> contexts[i].uuid != uuid
  {
    if contexts == [] then None
    else if contexts[|contexts| - 1].uuid == uuid then Some(|contexts| - 1)
    else FindContext(contexts[..|contexts| - 1], uuid)
  }

  /** The frozen outcome of a goal, once it has one. */
  function Awaited(d: Dispatcher, uuid: nat): Option<Outcome> {
    var i := FindContext(d.contexts, uuid);
    if i.None? then None else d.contexts[i.value].outcome
  }

  /** The execute callback wakes up, takes its outcome and removes its own context. */
  function Return(d: Dispatcher, uuid: nat): Dispatcher {
    if Awaited(d, uuid).None? then d
    else
      var i := FindContext(d.contexts, uuid).value;
      d.(contexts := d.contexts[..i] + d.contexts[i + 1..],
         activeHandle := if d.activeHandle == Some(uuid) then None else d.activeHandle)
  }

  // ---- Inference -----------------------------------------------------------------------------------------

  /** What a request captured when it was sent. */
  datatype Sent = Sent(requestGeneration: nat, goalGeneration: nat)

  predicate MayRequest(d: Dispatcher) {
    d.episode.GateOpen() && d.requests.inflight.None?
  }

  function Request(d: Dispatcher, id: nat): Dispatcher {
    if !MayRequest(d) then d
    else d.(requests := Requests(d.requests.generation, Some(id), Remaining(d.plan)))
  }

  function CompleteInflight(d: Dispatcher, id: nat): Dispatcher {
    if d.requests.inflight == Some(id) then d.(requests := d.requests.(inflight := None)) else d
  }

  datatype Reply =
    | Undecodable
    | NotReady
    | Failed
    | Predicted(actions: Chunk, horizon: int)

  function Planned(cfg: Config, d: Dispatcher, actions: Chunk, horizon: int): Result<ChunkPlan, PlanError> {
    var checked := ValidateExecutionHorizon(Some(horizon), |actions.rows|);
    if checked.Err? then Err(checked.error)
    else PlanChunk(cfg.planner, actions, Max(0, d.requests.lengthAtStart - Remaining(d.plan)), checked.value)
  }

  function AcceptedPlan(cfg: Config, d: Dispatcher, id: nat, sent: Sent, actions: Chunk, horizon: int)
    : Result<Plan, PlanError>
    requires ValidPlan(cfg.settings, d.plan)
  {
    var planned := Planned(cfg, d, actions, horizon);
    if planned.Err? then Err(planned.error)
    else Accept(cfg.settings, d.plan, planned.value, PlanSource(id, sent.requestGeneration, 0, 0), cfg.dimension)
  }

  predicate CurrentRequest(d: Dispatcher, id: nat, sent: Sent) {
    sent.requestGeneration == d.requests.generation && d.requests.inflight == Some(id)
  }

  /** May this reply still act on the goal that asked for it? */
  predicate CurrentGoal(d: Dispatcher, sent: Sent) {
    d.HasGoal() && sent.goalGeneration == d.Generation()
  }

  predicate Refills(cfg: Config, d: Dispatcher, id: nat, sent: Sent, reply: Reply)
    requires ValidPlan(cfg.settings, d.plan)
  {
    && CurrentRequest(d, id, sent) && CurrentGoal(d, sent) && reply.Predicted?
    && AcceptedPlan(cfg, d, id, sent, reply.actions, reply.horizon).Ok?
  }

  function Answer(cfg: Config, d: Dispatcher, id: nat, sent: Sent, reply: Reply, now: int): Dispatcher
    requires ValidPlan(cfg.settings, d.plan)
  {
    if !CurrentRequest(d, id, sent) then d
    else if !CurrentGoal(d, sent) then CompleteInflight(d, id)
    else
      var done := CompleteInflight(d, id);
      match reply
      case Undecodable => End(cfg, done, Aborts, InferenceFailed)
      case NotReady => if now < d.readinessDeadline then done else End(cfg, done, Aborts, ObservationStartupTimeout)
      case Failed => End(cfg, done, Aborts, InferenceFailed)
      case Predicted(actions, horizon) =>
        var accepted := AcceptedPlan(cfg, done, id, sent, actions, horizon);
        if accepted.Err? then End(cfg, done, Aborts, InferenceFailed)
        else done.(plan := accepted.value, episode := InferenceSuccess(d.episode, sent.goalGeneration))
  }

  // ---- Submitting and committing -------------------------------------------------------------------------

  datatype Fault =
    | TimeoutUncertain | FailedStep | Uncertain | MissingTimestamp | EpisodeIdMismatch | StepIdMismatch
    | Rejected | DoubleSubmission | PlanGenerationMismatch | SubmissionCorrelationMismatch | UnknownFault

  function FaultReason(fault: Fault): Reason {
    match fault
    case FailedStep => ExecutionFailed
    case EpisodeIdMismatch => IdentityMismatch
    case StepIdMismatch => IdentityMismatch
    case Rejected => ExecutionRejected
    case _ => ExecutionUncertain
  }

  datatype Completion = Completion(correlation: nat, data: StepData)

  datatype Transition = Commit(completion: Completion) | FailClosed(fault: Fault) | Ignore

  /** What a commit transition comes to, in the order in which the dispatcher checks. */
  datatype Handling = Unmatched | PlanReplaced | WrongIdentity | Late | Consumes(reason: Option<Reason>) | Ungated

  function Handle(d: Dispatcher, c: Completion, now: int): Handling {
    if d.pending.correlation != Some(c.correlation) then Unmatched
    else if !IsCurrent(d.plan, d.pending.reservation) then PlanReplaced
    else if !d.HasGoal() then Ungated
    else
      match CommitOutcome(d.episode, d.Generation(), c.data, now)
      case Mismatch => WrongIdentity
      case Dropped => Late
      case Applied(reason) => Consumes(reason)
  }

  function Forget(d: Dispatcher): Dispatcher {
    d.(pending := d.pending.(correlation := None))
  }

  /** The step is committed and its action leaves the plan. */
  function Consume(d: Dispatcher, c: Completion, now: int): Dispatcher
    requires Handle(d, c, now).Consumes?
  {
    d.(episode := CommitStep(d.episode, d.Generation(), c.data, now),
       plan := CommitReserved(d.plan),
       pending := NOTHING_PENDING,
       lastAction := d.pending.action,
       readinessDeadline := if c.data.observationTimestamp.Some? && c.data.observationTimestamp.value > 0
                            then now + Nanoseconds(d.episode.goal.startupTimeout) else d.readinessDeadline)
  }

  function Apply(cfg: Config, d: Dispatcher, t: Transition, now: int): Dispatcher {
    match t
    case Ignore => d
    case FailClosed(fault) =>
      if d.HasGoal() then End(cfg, Forget(d), Aborts, FaultReason(fault)) else Forget(d)
    case Commit(c) =>
      match Handle(d, c, now)
      case Unmatched => d
      case PlanReplaced =>
        if d.HasGoal() then End(cfg, Forget(d), Aborts, ExecutionUncertain) else Forget(d)
      case WrongIdentity => End(cfg, d, Aborts, IdentityMismatch)
      case Late => Forget(d)
      case Consumes(reason) =>
        var consumed := Consume(d, c, now);
        if reason.None? then consumed else End(cfg, consumed, Finishes, reason.value)
      case Ungated =>
        d.(plan := CommitReserved(d.plan), pending := NOTHING_PENDING, lastAction := d.pending.action)
  }

  datatype Receipt = Declined | Submitted | Immediate(transition: Transition)

  predicate MaySubmit(d: Dispatcher) {
    d.episode.GateOpen() && d.requests.inflight.None? && |d.plan.store.actions| > 0
  }

  /** Reserve the next action and remember what is waiting for its completion. */
  function Reserved(d: Dispatcher, correlation: nat): Dispatcher
    requires MaySubmit(d)
  {
    var plan := Reserve(d.plan);
    d.(plan := plan, pending := Pending(Some(correlation), plan.reservation, Some(d.plan.store.actions[0])))
  }

  function Submit(cfg: Config, d: Dispatcher, correlation: nat, receipt: Receipt, now: int): Dispatcher {
    if !MaySubmit(d) then d
    else
      match receipt
      case Declined =>
        var kept := d.(plan := Reserve(d.plan));
        if d.HasGoal() then End(cfg, kept, Aborts, ExecutionRejected) else kept
      case Submitted => Reserved(d, correlation)
      case Immediate(t) => Apply(cfg, Reserved(d, correlation), t, now)
  }

  // ---- Ticks and services --------------------------------------------------------------------------------

  function CancelRequested(cfg: Config, d: Dispatcher): Dispatcher {
    if d.HasGoal() then End(cfg, d, Cancels, Canceled) else d
  }

  function CheckStartup(cfg: Config, d: Dispatcher, now: int): Dispatcher {
    var late := StartupDeadline(d.episode, d.Generation(), now);
    if d.episode.GateOpen() && late.Some? then End(cfg, d, Aborts, late.value) else d
  }

  function CheckDuration(cfg: Config, d: Dispatcher, now: int): Dispatcher {
    var late := EpisodeDeadline(d.episode, d.Generation(), now);
    if d.episode.GateOpen() && late.Some? then End(cfg, d, Finishes, late.value) else d
  }

  function ExpireInference(d: Dispatcher): Dispatcher {
    if d.requests.inflight.Some? then d.(requests := Invalidate(d.requests)) else d
  }

  function Reset(cfg: Config, d: Dispatcher): Dispatcher {
    if d.episode.ActiveGoal() then End(cfg, d, Aborts, ExternalReset)
    else
      var cleared := ClearLocal(cfg, d, true);
      cleared.(requests := cleared.requests.(lengthAtStart := 0))
  }

  /** The runtime was lost: everything local goes, the goal stays. */
  function Revoke(cfg: Config, d: Dispatcher): Dispatcher {
    ClearLocal(cfg, d, true)
  }

  function Toggle(cfg: Config, d: Dispatcher, enabled: bool): Dispatcher {
    d.(plan := SetSmoothing(cfg.settings, d.plan, enabled))
  }
}
