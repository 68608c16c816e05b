/** Runs of the dispatcher against any scheduler, executor and inference service, and what they keep. */
module DispatchRuns {
  import opened Prelude
  import opened ChunkPlanning
  import opened Smoothing
  import opened Plans
  import opened Episodes
  import opened Dispatching

  datatype DispatchEvent =
    | PrepareBegins
    | PrepareEnds(succeeded: bool)
    | GoalRequested(spec: GoalSpec, uuid: nat)
    | HandleAccepted(uuid: nat, now: int)
    | RequestSent(id: nat)
    | RequestRefused(id: nat)
    | Answered(id: nat, sent: Sent, reply: Reply, now: int)
    | ActionSubmitted(correlation: nat, receipt: Receipt, now: int)
    | Decided(transition: Transition, now: int)
    | CancelSeen
    | StartupChecked(now: int)
    | DurationChecked(now: int)
    | ResetCalled
    | InferenceExpired
    | RuntimeRevoked
    | ExecuteReturned(uuid: nat)
    | SmoothingToggled(enabled: bool)

  function Next(cfg: Config, d: Dispatcher, ev: DispatchEvent): Dispatcher
    requires ValidPlan(cfg.settings, d.plan)
  {
    match ev
    case PrepareBegins => BeginPrepare(cfg, d)
    case PrepareEnds(succeeded) => EndPrepare(d, succeeded)
    case GoalRequested(spec, _) => RequestGoal(d, spec)
    case HandleAccepted(uuid, now) => BindHandle(d, uuid, now)
    case RequestSent(id) => Request(d, id)
    case RequestRefused(id) => CompleteInflight(d, id)
    case Answered(id, sent, reply, now) => Answer(cfg, d, id, sent, reply, now)
    case ActionSubmitted(correlation, receipt, now) => Submit(cfg, d, correlation, receipt, now)
    case Decided(transition, now) => Apply(cfg, d, transition, now)
    case CancelSeen => CancelRequested(cfg, d)
    case StartupChecked(now) => CheckStartup(cfg, d, now)
    case DurationChecked(now) => CheckDuration(cfg, d, now)
    case ResetCalled => Reset(cfg, d)
    case InferenceExpired => ExpireInference(d)
    case RuntimeRevoked => Revoke(cfg, d)
    case ExecuteReturned(uuid) => Return(d, uuid)
    case SmoothingToggled(enabled) => Toggle(cfg, d, enabled)
  }

  // ---- What an observer writes down --------------------------------------------------------------------

  /** An action that left the plan, and the goals whose requests had filled that plan. */
  datatype Served = Served(action: Action, origins: set<nat>)

  /** What was published for a committed step: its submission and the action that was submitted. */
  datatype Feedback = Feedback(published: nat, step: StepData, correlation: nat, action: Option<Action>)

  /** All that happened under one goal, and how it ended. */
  datatype Closure = Closure(outcome: Outcome, maxActions: int, served: seq<Served>, feedback: seq<Feedback>)

  datatype Returned = Returned(uuid: nat, outcome: Outcome)

  /** `goalOf` gives every accepted goal its generation; `pendingUuid` still waits for its handle. */
  datatype Goals = Goals(goalOf: map<nat, nat>, pendingUuid: Option<nat>, closures: map<nat, Closure>,
                         returned: seq<Returned>)

  datatype Log = Log(origins: set<nat>, served: seq<Served>, feedback: seq<Feedback>)

  datatype Traffic = Traffic(sent: seq<Sent>, submitted: nat)

  datatype Ledger = Ledger(goals: Goals, log: Log, traffic: Traffic)

  const NEW_LEDGER := Ledger(Goals(map[], None, map[], []), Log({}, [], []), Traffic([], 0))

  /** Identifiers are fresh, callbacks carry what their request captured, and a goal's handle arrives
      before another goal is accepted. */
  predicate Enabled(d: Dispatcher, l: Ledger, ev: DispatchEvent) {
    match ev
    case GoalRequested(_, uuid) => uuid !in l.goals.goalOf && l.goals.pendingUuid.None?
    case HandleAccepted(uuid, _) => l.goals.pendingUuid == Some(uuid)
    case RequestSent(id) => id == |l.traffic.sent|
    case Answered(id, sent, _, _) => id < |l.traffic.sent| && l.traffic.sent[id] == sent
    case ActionSubmitted(correlation, _, _) => correlation == l.traffic.submitted
    case _ => true
  }

  /** The commit that an event asks for, and the state in which the dispatcher looks at it. */
  function Asked(d: Dispatcher, ev: DispatchEvent): Option<(Dispatcher, Completion, int)> {
    match ev
    case Decided(Commit(c), now) => Some((d, c, now))
    case ActionSubmitted(correlation, Immediate(Commit(c)), now) =>
      if MaySubmit(d) then Some((Reserved(d, correlation), c, now)) else None
    case _ => None
  }

  /** Every action that a commit takes off the plan is written down; so is every feedback. */
  function LogCommit(d: Dispatcher, log: Log, c: Completion, now: int): Log {
    var served := if Handle(d, c, now).Consumes? || Handle(d, c, now).Ungated?
                  then [Served(d.plan.store.actions[0], log.origins)] else [];
    var published := if Handle(d, c, now).Consumes?
                     then [Feedback(Consume(d, c, now).episode.progress.committed, c.data, c.correlation,
                                    d.pending.action)] else [];
    log.(served := log.served + served, feedback := log.feedback + published)
  }

  /** The plan has been discarded, and with it where it came from. */
  predicate Discards(cfg: Config, d: Dispatcher, ev: DispatchEvent)
    requires ValidPlan(cfg.settings, d.plan)
  {
    Remaining(Next(cfg, d, ev).plan) == 0 && Next(cfg, d, ev).plan.source.None?
  }

  function LogNext(cfg: Config, d: Dispatcher, log: Log, ev: DispatchEvent): Log
    requires ValidPlan(cfg.settings, d.plan)
  {
    var asked := Asked(d, ev);
    var written := if asked.Some? then LogCommit(asked.value.0, log, asked.value.1, asked.value.2) else log;
    var origins := if Discards(cfg, d, ev) then {}
                   else if ev.Answered? && Refills(cfg, d, ev.id, ev.sent, ev.reply)
                   then log.origins + {ev.sent.goalGeneration} else log.origins;
    if ev.GoalRequested? && ValidateGoal(d.episode, ev.spec).None? then Log(origins, [], [])
    else written.(origins := origins)
  }

  predicate Ended(d: Dispatcher, d': Dispatcher) {
    d.episode.ActiveGoal() && !d'.episode.ActiveGoal()
  }

  /** How a goal ended, read off the episode that it leaves behind. */
  function FinalOutcome(e: Episode): Outcome {
    var reason := e.reason.GetOr(ExternalReset);
    Outcome(BuildResult(e), reason,
            if e.phase == Faulted then Status.Aborted
            else if reason == Canceled then Withdrawn else Succeeded)
  }

  function GoalsNext(cfg: Config, d: Dispatcher, l: Ledger, ev: DispatchEvent): Goals
    requires ValidPlan(cfg.settings, d.plan)
  {
    var d' := Next(cfg, d, ev);
    var log := LogNext(cfg, d, l.log, ev);
    var goals :=
      if Ended(d, d') then
        l.goals.(closures :=
          l.goals.closures[d.Generation() := Closure(FinalOutcome(d'.episode), d'.episode.goal.maxActions,
                                                     log.served, log.feedback)])
      else l.goals;
    match ev
    case GoalRequested(spec, uuid) =>
      if ValidateGoal(d.episode, spec).None?
      then goals.(goalOf := goals.goalOf[uuid := d'.Generation()], pendingUuid := Some(uuid)) else goals
    case HandleAccepted(_, _) => goals.(pendingUuid := None)
    case ExecuteReturned(uuid) =>
      if Awaited(d, uuid).Some?
      then goals.(returned := goals.returned + [Returned(uuid, Awaited(d, uuid).value)]) else goals
    case _ => goals
  }

  function TrafficNext(d: Dispatcher, t: Traffic, ev: DispatchEvent): Traffic {
    match ev
    case RequestSent(_) =>
      if MayRequest(d) then t.(sent := t.sent + [Sent(d.requests.generation, d.Generation())]) else t
    case ActionSubmitted(_, _, _) => if MaySubmit(d) then t.(submitted := t.submitted + 1) else t
    case _ => t
  }

  function Record(cfg: Config, d: Dispatcher, l: Ledger, ev: DispatchEvent): Ledger
    requires ValidPlan(cfg.settings, d.plan)
  {
    Ledger(GoalsNext(cfg, d, l, ev), LogNext(cfg, d, l.log, ev), TrafficNext(d, l.traffic, ev))
  }
}
