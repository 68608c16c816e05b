/** DispatchEvent by event, the dispatcher keeps its invariant. */
module DispatchSteps {
  import opened Prelude
  import opened ChunkPlanning
  import opened Smoothing
  import opened Plans
  import opened Episodes
  import opened Dispatching
  import opened DispatchRuns
  import opened DispatchInvariant

  // ---- Steps that leave the goals alone ----------------------------------------------------------------

  /** `d'` differs from `d` at most in its requests, its plan, and in having forgotten what was pending. */
  ghost predicate Carries(cfg: Config, d: Dispatcher, d': Dispatcher) {
    && d'.episode == d.episode && d'.contexts == d.contexts && d'.activeHandle == d.activeHandle
    && ValidPlan(cfg.settings, d'.plan)
    && (Remaining(d.plan) == 0 ==> Remaining(d'.plan) == 0)
    && (d'.pending.correlation.Some? ==> d'.pending.correlation == d.pending.correlation)
    && (PendingOk(d.plan, d.pending) ==> PendingOk(d'.plan, d'.pending))
  }

  lemma CarryKeeps(cfg: Config, d: Dispatcher, d': Dispatcher, goals: Goals, log: Log, origins: set<nat>,
                   submitted: nat, submitted': nat)
    requires Mid(cfg, d, goals, log, submitted) && Carries(cfg, d, d')
    requires origins <= log.origins && submitted <= submitted'
    ensures Mid(cfg, d', goals, log.(origins := origins), submitted')
  {
  }

  /** Events that concern neither a goal's acceptance nor its return. */
  predicate Plain(ev: DispatchEvent) {
    !ev.GoalRequested? && !ev.HandleAccepted? && !ev.ExecuteReturned?
  }

  /** The log after an event, before any origin is added or dropped. */
  function Written(d: Dispatcher, log: Log, ev: DispatchEvent): Log {
    var asked := Asked(d, ev);
    if asked.Some? then LogCommit(asked.value.0, log, asked.value.1, asked.value.2) else log
  }

  /** An event that only carries the dispatcher on, possibly after a reservation brought it to `mid`. */
  lemma CarriedRecord(cfg: Config, d: Dispatcher, l: Ledger, ev: DispatchEvent, mid: Dispatcher)
    requires DispatchOk(cfg, d, l) && Plain(ev) && mid.episode == d.episode
    requires Mid(cfg, mid, l.goals, l.log, TrafficNext(d, l.traffic, ev).submitted)
    requires Carries(cfg, mid, Next(cfg, d, ev)) && Written(d, l.log, ev) == l.log
    requires !(ev.Answered? && Refills(cfg, d, ev.id, ev.sent, ev.reply))
    ensures DispatchOk(cfg, Next(cfg, d, ev), Record(cfg, d, l, ev))
  {
    var log := LogNext(cfg, d, l.log, ev);
    var submitted := TrafficNext(d, l.traffic, ev).submitted;
    assert log == l.log.(origins := log.origins);
    CarryKeeps(cfg, mid, Next(cfg, d, ev), l.goals, l.log, log.origins, submitted, submitted);
  }

  // ---- Steps that end a goal -----------------------------------------------------------------------------

  /** An event that ends a goal, seen as bringing the dispatcher to `mid` and ending it there. */
  lemma EndedRecord(cfg: Config, d: Dispatcher, l: Ledger, ev: DispatchEvent, mid: Dispatcher,
                    kind: Conclusion, reason: Reason)
    requires DispatchOk(cfg, d, l) && Plain(ev) && Fitting(kind, reason) && d.episode.ActiveGoal()
    requires CanClose(mid.episode, mid.Generation()) && mid.Generation() == d.Generation()
    requires Next(cfg, d, ev) == End(cfg, mid, kind, reason)
    requires Mid(cfg, mid, l.goals, Written(d, l.log, ev), TrafficNext(d, l.traffic, ev).submitted)
    ensures DispatchOk(cfg, Next(cfg, d, ev), Record(cfg, d, l, ev))
  {
    var submitted := TrafficNext(d, l.traffic, ev).submitted;
    EndShape(cfg, mid, kind, reason);
    EndKeeps(cfg, mid, l.goals, Written(d, l.log, ev), submitted, kind, reason);
    EndedGoals(cfg, d, l, ev, mid, kind, reason);
  }

  lemma EndedGoals(cfg: Config, d: Dispatcher, l: Ledger, ev: DispatchEvent, mid: Dispatcher,
                   kind: Conclusion, reason: Reason)
    requires ValidPlan(cfg.settings, d.plan) && Plain(ev) && d.episode.ActiveGoal()
    requires mid.Generation() == d.Generation()
    requires Next(cfg, d, ev) == End(cfg, mid, kind, reason) && !Next(cfg, d, ev).episode.ActiveGoal()
    requires Discards(cfg, d, ev)
    ensures LogNext(cfg, d, l.log, ev) == Written(d, l.log, ev).(origins := {})
    ensures GoalsNext(cfg, d, l, ev) == Closed(cfg, mid, l.goals, Written(d, l.log, ev), kind, reason)
  {
  }

  // ---- Replies -------------------------------------------------------------------------------------------

  lemma AnsweredKeeps(cfg: Config, d: Dispatcher, l: Ledger, id: nat, sent: Sent, reply: Reply, now: int)
    requires DispatchOk(cfg, d, l) && Enabled(d, l, Answered(id, sent, reply, now))
    ensures var ev := Answered(id, sent, reply, now); DispatchOk(cfg, Next(cfg, d, ev), Record(cfg, d, l, ev))
  {
    var ev := Answered(id, sent, reply, now);
    var done := CompleteInflight(d, id);
    if Refills(cfg, d, id, sent, reply) {
      RefillKeeps(cfg, d, l, id, sent, reply, now);
    } else if CurrentRequest(d, id, sent) && CurrentGoal(d, sent)
              && !(reply.NotReady? && now < d.readinessDeadline) {
      var reason := if reply.NotReady? then ObservationStartupTimeout else InferenceFailed;
      CarryKeeps(cfg, d, done, l.goals, l.log, l.log.origins, l.traffic.submitted, l.traffic.submitted);
      EndedRecord(cfg, d, l, ev, done, Aborts, reason);
    } else {
      CarriedRecord(cfg, d, l, ev, d);
    }
  }

  lemma RefillKeeps(cfg: Config, d: Dispatcher, l: Ledger, id: nat, sent: Sent, reply: Reply, now: int)
    requires DispatchOk(cfg, d, l) && Refills(cfg, d, id, sent, reply)
    ensures var ev := Answered(id, sent, reply, now); DispatchOk(cfg, Next(cfg, d, ev), Record(cfg, d, l, ev))
  {
    var ev := Answered(id, sent, reply, now);
    var d', log := Next(cfg, d, ev), l.log.(origins := l.log.origins + {sent.goalGeneration});
    RefilledMid(cfg, d, l.goals, l.log, l.traffic.submitted, id, sent, reply, now);
    assert Record(cfg, d, l, ev) == Ledger(l.goals, log, l.traffic);
  }

  lemma RefilledMid(cfg: Config, d: Dispatcher, goals: Goals, log: Log, submitted: nat,
                    id: nat, sent: Sent, reply: Reply, now: int)
    requires Mid(cfg, d, goals, log, submitted) && HasBudget(d.episode) && Refills(cfg, d, id, sent, reply)
    ensures var d' := Answer(cfg, d, id, sent, reply, now);
            && Mid(cfg, d', goals, log.(origins := log.origins + {sent.goalGeneration}), submitted)
            && HasBudget(d'.episode) && d'.plan.source.Some? && (d.episode.GateOpen() <==> d'.episode.GateOpen())
  {
    StepKeeps(d.episode, DoInferenceSuccess(sent.goalGeneration));
    RefilledPlan(cfg, d, log, submitted, id, sent, reply, now);
    RefilledContexts(d, goals, Answer(cfg, d, id, sent, reply, now).episode);
  }

  lemma RefilledPlan(cfg: Config, d: Dispatcher, log: Log, submitted: nat, id: nat, sent: Sent, reply: Reply, now: int)
    requires PlanOk(cfg, d, log.origins, submitted) && Refills(cfg, d, id, sent, reply)
    ensures var d' := Answer(cfg, d, id, sent, reply, now);
            && PlanOk(cfg, d', log.origins + {sent.goalGeneration}, submitted) && d'.plan.source.Some?
            && d'.episode == InferenceSuccess(d.episode, sent.goalGeneration) && d'.contexts == d.contexts
            && d'.activeHandle == d.activeHandle && d'.pending == d.pending
  {
    var d' := Answer(cfg, d, id, sent, reply, now);
    assert d'.plan == AcceptedPlan(cfg, d, id, sent, reply.actions, reply.horizon).value;
  }

  /** Going from STARTING to RUNNING concerns no context and no closed goal. */
  lemma RefilledContexts(d: Dispatcher, goals: Goals, e: Episode)
    requires ContextsOk(d.contexts, d.episode, goals) && ClosuresOk(goals.closures, d.episode)
    requires e.goal == d.episode.goal && d.episode.GateOpen() && e.GateOpen()
    ensures ContextsOk(d.contexts, e, goals) && ClosuresOk(goals.closures, e)
  {
    forall i: nat | i < |d.contexts|
      ensures ContextOk(d.contexts[i], e, goals)
    {
      assert ContextOk(d.contexts[i], d.episode, goals);
    }
  }

  // ---- Commits -------------------------------------------------------------------------------------------

  lemma ReservedKeeps(cfg: Config, d: Dispatcher, goals: Goals, log: Log, submitted: nat)
    requires Mid(cfg, d, goals, log, submitted) && MaySubmit(d)
    ensures Mid(cfg, Reserved(d, submitted), goals, log, submitted + 1)
    ensures Carries(cfg, d, d.(plan := Reserve(d.plan)))
  {
  }

  /** Under an open gate every current reservation belongs to the bound goal. */
  lemma NeverUngated(cfg: Config, d: Dispatcher, goals: Goals, log: Log, submitted: nat, c: Completion, now: int)
    requires Mid(cfg, d, goals, log, submitted)
    ensures !Handle(d, c, now).Ungated?
    ensures Handle(d, c, now).Consumes? ==> d.episode.GateOpen() && d.HasGoal()
  {
  }

  lemma ConsumeKeepsProgress(cfg: Config, d: Dispatcher, goals: Goals, log: Log, submitted: nat, c: Completion, now: int)
    requires Mid(cfg, d, goals, log, submitted) && HasBudget(d.episode) && Handle(d, c, now).Consumes?
    ensures var d' := Consume(d, c, now);
            var log' := LogCommit(d, log, c, now);
            && Inv(d'.episode)
            && d'.episode.progress.committed <= d'.episode.goal.maxActions
            && LogOk(log'.served, log'.feedback, d'.episode.progress.committed, d'.Generation())
            && CorrelationsOk(log'.feedback, None, submitted)
            && (Handle(d, c, now).reason.None? ==> HasBudget(d'.episode))
  {
    NeverUngated(cfg, d, goals, log, submitted, c, now);
    StepKeeps(d.episode, DoCommit(d.Generation(), c.data, now));
  }

  lemma ConsumeKeeps(cfg: Config, d: Dispatcher, goals: Goals, log: Log, submitted: nat, c: Completion, now: int)
    requires Mid(cfg, d, goals, log, submitted) && HasBudget(d.episode) && Handle(d, c, now).Consumes?
    ensures Mid(cfg, Consume(d, c, now), goals, LogCommit(d, log, c, now), submitted)
    ensures Handle(d, c, now).reason.None? ==> HasBudget(Consume(d, c, now).episode)
  {
    NeverUngated(cfg, d, goals, log, submitted, c, now);
    ConsumeKeepsProgress(cfg, d, goals, log, submitted, c, now);
    RefilledContexts(d, goals, Consume(d, c, now).episode);
  }

  lemma NothingWritten(d: Dispatcher, log: Log, c: Completion, now: int)
    requires !Handle(d, c, now).Consumes? && !Handle(d, c, now).Ungated?
    ensures LogCommit(d, log, c, now) == log
  {
  }

  /** A commit, whether it comes from a drained completion or at once with the submission. */
  lemma CommitKeeps(cfg: Config, d: Dispatcher, l: Ledger, ev: DispatchEvent, mid: Dispatcher, c: Completion, now: int)
    requires DispatchOk(cfg, d, l) && (ev.Decided? || ev.ActionSubmitted?) && mid.episode == d.episode
    requires Asked(d, ev) == Some((mid, c, now)) && Next(cfg, d, ev) == Apply(cfg, mid, Commit(c), now)
    requires Mid(cfg, mid, l.goals, l.log, TrafficNext(d, l.traffic, ev).submitted)
    ensures DispatchOk(cfg, Next(cfg, d, ev), Record(cfg, d, l, ev))
  {
    var submitted := TrafficNext(d, l.traffic, ev).submitted;
    NeverUngated(cfg, mid, l.goals, l.log, submitted, c, now);
    if Handle(mid, c, now).Consumes? {
      AppliedKeeps(cfg, d, l, ev, mid, c, now);
    } else {
      RefusedKeeps(cfg, d, l, ev, mid, c, now);
    }
  }

  lemma AppliedKeeps(cfg: Config, d: Dispatcher, l: Ledger, ev: DispatchEvent, mid: Dispatcher, c: Completion, now: int)
    requires DispatchOk(cfg, d, l) && (ev.Decided? || ev.ActionSubmitted?) && mid.episode == d.episode
    requires Asked(d, ev) == Some((mid, c, now)) && Next(cfg, d, ev) == Apply(cfg, mid, Commit(c), now)
    requires Handle(mid, c, now).Consumes? && mid.episode.GateOpen()
    requires Mid(cfg, mid, l.goals, l.log, TrafficNext(d, l.traffic, ev).submitted)
    ensures DispatchOk(cfg, Next(cfg, d, ev), Record(cfg, d, l, ev))
  {
    ConsumeKeeps(cfg, mid, l.goals, l.log, TrafficNext(d, l.traffic, ev).submitted, c, now);
    if Handle(mid, c, now).reason.Some? {
      FinishedRecord(cfg, d, l, ev, mid, c, now);
    } else {
      ConsumedRecord(cfg, d, l, ev, mid, c, now);
    }
  }

  lemma FinishedRecord(cfg: Config, d: Dispatcher, l: Ledger, ev: DispatchEvent, mid: Dispatcher, c: Completion, now: int)
    requires DispatchOk(cfg, d, l) && (ev.Decided? || ev.ActionSubmitted?) && mid.episode == d.episode
    requires Asked(d, ev) == Some((mid, c, now)) && Next(cfg, d, ev) == Apply(cfg, mid, Commit(c), now)
    requires Handle(mid, c, now).Consumes? && Handle(mid, c, now).reason.Some? && mid.episode.GateOpen()
    requires Mid(cfg, Consume(mid, c, now), l.goals, LogCommit(mid, l.log, c, now),
                 TrafficNext(d, l.traffic, ev).submitted)
    ensures DispatchOk(cfg, Next(cfg, d, ev), Record(cfg, d, l, ev))
  {
    EndedRecord(cfg, d, l, ev, Consume(mid, c, now), Finishes, Handle(mid, c, now).reason.value);
  }

  lemma RefusedKeeps(cfg: Config, d: Dispatcher, l: Ledger, ev: DispatchEvent, mid: Dispatcher, c: Completion, now: int)
    requires DispatchOk(cfg, d, l) && (ev.Decided? || ev.ActionSubmitted?) && mid.episode == d.episode
    requires Asked(d, ev) == Some((mid, c, now)) && Next(cfg, d, ev) == Apply(cfg, mid, Commit(c), now)
    requires !Handle(mid, c, now).Consumes? && !Handle(mid, c, now).Ungated?
    requires Mid(cfg, mid, l.goals, l.log, TrafficNext(d, l.traffic, ev).submitted)
    ensures DispatchOk(cfg, Next(cfg, d, ev), Record(cfg, d, l, ev))
  {
    var submitted := TrafficNext(d, l.traffic, ev).submitted;
    NothingWritten(mid, l.log, c, now);
    match Handle(mid, c, now)
    case WrongIdentity => EndedRecord(cfg, d, l, ev, mid, Aborts, IdentityMismatch);
    case PlanReplaced =>
      if mid.HasGoal() {
        CarryKeeps(cfg, mid, Forget(mid), l.goals, l.log, l.log.origins, submitted, submitted);
        EndedRecord(cfg, d, l, ev, Forget(mid), Aborts, ExecutionUncertain);
      } else {
        CarriedRecord(cfg, d, l, ev, mid);
      }
    case _ => CarriedRecord(cfg, d, l, ev, mid);
  }

  lemma ConsumedRecord(cfg: Config, d: Dispatcher, l: Ledger, ev: DispatchEvent, mid: Dispatcher, c: Completion, now: int)
    requires ValidPlan(cfg.settings, d.plan) && (ev.Decided? || ev.ActionSubmitted?) && mid.episode == d.episode
    requires Asked(d, ev) == Some((mid, c, now)) && Handle(mid, c, now) == Consumes(None)
    requires Next(cfg, d, ev) == Consume(mid, c, now)
    requires Mid(cfg, Consume(mid, c, now), l.goals, LogCommit(mid, l.log, c, now),
                 TrafficNext(d, l.traffic, ev).submitted)
    requires HasBudget(Consume(mid, c, now).episode)
    ensures DispatchOk(cfg, Next(cfg, d, ev), Record(cfg, d, l, ev))
  {
    var d' := Next(cfg, d, ev);
    var log' := LogNext(cfg, d, l.log, ev);
    var submitted := TrafficNext(d, l.traffic, ev).submitted;
    assert GoalsNext(cfg, d, l, ev) == l.goals;
    CarryKeeps(cfg, d', d', l.goals, LogCommit(mid, l.log, c, now), log'.origins, submitted, submitted);
  }

  // ---- Fail-closed transitions, submissions ------------------------------------------------------------------

  lemma FailClosedKeeps(cfg: Config, d: Dispatcher, l: Ledger, ev: DispatchEvent, mid: Dispatcher, fault: Fault, now: int)
    requires DispatchOk(cfg, d, l) && (ev.Decided? || ev.ActionSubmitted?) && mid.episode == d.episode
    requires Asked(d, ev) == None && Next(cfg, d, ev) == Apply(cfg, mid, Transition.FailClosed(fault), now)
    requires Mid(cfg, mid, l.goals, l.log, TrafficNext(d, l.traffic, ev).submitted)
    ensures DispatchOk(cfg, Next(cfg, d, ev), Record(cfg, d, l, ev))
  {
    var submitted := TrafficNext(d, l.traffic, ev).submitted;
    if mid.HasGoal() {
      CarryKeeps(cfg, mid, Forget(mid), l.goals, l.log, l.log.origins, submitted, submitted);
      EndedRecord(cfg, d, l, ev, Forget(mid), Aborts, FaultReason(fault));
    } else {
      CarriedRecord(cfg, d, l, ev, mid);
    }
  }

  lemma TransitionKeeps(cfg: Config, d: Dispatcher, l: Ledger, ev: DispatchEvent, mid: Dispatcher, t: Transition, now: int)
    requires DispatchOk(cfg, d, l) && (ev.Decided? || ev.ActionSubmitted?) && mid.episode == d.episode
    requires Asked(d, ev) == if t.Commit? then Some((mid, t.completion, now)) else None
    requires Next(cfg, d, ev) == Apply(cfg, mid, t, now)
    requires Mid(cfg, mid, l.goals, l.log, TrafficNext(d, l.traffic, ev).submitted)
    ensures DispatchOk(cfg, Next(cfg, d, ev), Record(cfg, d, l, ev))
  {
    match t
    case Ignore => CarriedRecord(cfg, d, l, ev, mid);
    case FailClosed(fault) => FailClosedKeeps(cfg, d, l, ev, mid, fault, now);
    case Commit(c) => CommitKeeps(cfg, d, l, ev, mid, c, now);
  }

  lemma SubmittedKeeps(cfg: Config, d: Dispatcher, l: Ledger, correlation: nat, receipt: Receipt, now: int)
    requires DispatchOk(cfg, d, l) && Enabled(d, l, ActionSubmitted(correlation, receipt, now))
    ensures var ev := ActionSubmitted(correlation, receipt, now);
            DispatchOk(cfg, Next(cfg, d, ev), Record(cfg, d, l, ev))
  {
    var ev := ActionSubmitted(correlation, receipt, now);
    if !MaySubmit(d) {
      CarriedRecord(cfg, d, l, ev, d);
    } else {
      ReservedKeeps(cfg, d, l.goals, l.log, l.traffic.submitted);
      var mid := Reserved(d, correlation);
      match receipt
      case Submitted => CarriedRecord(cfg, d, l, ev, mid);
      case Immediate(t) => TransitionKeeps(cfg, d, l, ev, mid, t, now);
      case Declined => DeclinedKeeps(cfg, d, l, correlation, now);
    }
  }

  lemma DeclinedKeeps(cfg: Config, d: Dispatcher, l: Ledger, correlation: nat, now: int)
    requires DispatchOk(cfg, d, l) && MaySubmit(d)
    ensures var ev := ActionSubmitted(correlation, Declined, now);
            DispatchOk(cfg, Next(cfg, d, ev), Record(cfg, d, l, ev))
  {
    var kept := d.(plan := Reserve(d.plan));
    ReservedKeeps(cfg, d, l.goals, l.log, l.traffic.submitted);
    CarryKeeps(cfg, d, kept, l.goals, l.log, l.log.origins, l.traffic.submitted, l.traffic.submitted + 1);
    EndedRecord(cfg, d, l, ActionSubmitted(correlation, Declined, now), kept, Aborts, ExecutionRejected);
  }

  // ---- Ticks and services --------------------------------------------------------------------------------

  lemma CancelKeeps(cfg: Config, d: Dispatcher, l: Ledger)
    requires DispatchOk(cfg, d, l)
    ensures DispatchOk(cfg, Next(cfg, d, CancelSeen), Record(cfg, d, l, CancelSeen))
  {
    if d.HasGoal() {
      EndedRecord(cfg, d, l, CancelSeen, d, Cancels, Canceled);
    } else {
      CarriedRecord(cfg, d, l, CancelSeen, d);
    }
  }

  lemma StartupKeeps(cfg: Config, d: Dispatcher, l: Ledger, now: int)
    requires DispatchOk(cfg, d, l)
    ensures DispatchOk(cfg, Next(cfg, d, StartupChecked(now)), Record(cfg, d, l, StartupChecked(now)))
  {
    if d.episode.GateOpen() && StartupDeadline(d.episode, d.Generation(), now).Some? {
      EndedRecord(cfg, d, l, StartupChecked(now), d, Aborts, ObservationStartupTimeout);
    } else {
      CarriedRecord(cfg, d, l, StartupChecked(now), d);
    }
  }

  lemma DurationKeeps(cfg: Config, d: Dispatcher, l: Ledger, now: int)
    requires DispatchOk(cfg, d, l)
    ensures DispatchOk(cfg, Next(cfg, d, DurationChecked(now)), Record(cfg, d, l, DurationChecked(now)))
  {
    if d.episode.GateOpen() && EpisodeDeadline(d.episode, d.Generation(), now).Some? {
      EndedRecord(cfg, d, l, DurationChecked(now), d, Finishes, MaxDuration);
    } else {
      CarriedRecord(cfg, d, l, DurationChecked(now), d);
    }
  }

  lemma ResetKeeps(cfg: Config, d: Dispatcher, l: Ledger)
    requires DispatchOk(cfg, d, l)
    ensures DispatchOk(cfg, Next(cfg, d, ResetCalled), Record(cfg, d, l, ResetCalled))
  {
    if d.episode.ActiveGoal() {
      EndedRecord(cfg, d, l, ResetCalled, d, Aborts, ExternalReset);
    } else {
      CarriedRecord(cfg, d, l, ResetCalled, d);
    }
  }

  /** Everything else that leaves the episode and the contexts alone. */
  lemma LocalKeeps(cfg: Config, d: Dispatcher, l: Ledger, ev: DispatchEvent)
    requires DispatchOk(cfg, d, l)
    requires ev.RequestSent? || ev.RequestRefused? || ev.InferenceExpired? || ev.RuntimeRevoked? || ev.SmoothingToggled?
    ensures DispatchOk(cfg, Next(cfg, d, ev), Record(cfg, d, l, ev))
  {
    CarriedRecord(cfg, d, l, ev, d);
  }

  // ---- Preparing, accepting, binding, returning -------------------------------------------------------------

  /** With no goal active, every context already holds its outcome, and that does not change. */
  lemma ClosedContexts(d: Dispatcher, goals: Goals, goals': Goals, e: Episode)
    requires ContextsOk(d.contexts, d.episode, goals) && ClosuresOk(goals.closures, d.episode)
    requires !d.episode.GateOpen() && d.episode.goal.generation <= e.goal.generation
    requires goals'.closures == goals.closures
    requires forall u: nat :: u in goals.goalOf ==> u in goals'.goalOf && goals'.goalOf[u] == goals.goalOf[u]
    requires d.episode.goal.generation == e.goal.generation ==> e.ActiveGoal() ==> d.episode.ActiveGoal()
    ensures ContextsOk(d.contexts, e, goals') && ClosuresOk(goals'.closures, e)
  {
    forall i: nat | i < |d.contexts|
      ensures ContextOk(d.contexts[i], e, goals')
    {
      assert ContextOk(d.contexts[i], d.episode, goals);
    }
  }

  lemma PrepareKeeps(cfg: Config, d: Dispatcher, l: Ledger, ev: DispatchEvent)
    requires DispatchOk(cfg, d, l) && (ev.PrepareBegins? || ev.PrepareEnds?)
    ensures DispatchOk(cfg, Next(cfg, d, ev), Record(cfg, d, l, ev))
  {
    if ev.PrepareBegins? {
      StepKeeps(d.episode, DoBeginPreparing);
    } else {
      StepKeeps(d.episode, if ev.succeeded then DoCompletePrepare else DoFailPrepare);
    }
    if d.episode.ActiveGoal() {
      CarriedRecord(cfg, d, l, ev, d);
    } else {
      IdleKeeps(cfg, d, l, ev);
    }
  }

  lemma IdleKeeps(cfg: Config, d: Dispatcher, l: Ledger, ev: DispatchEvent)
    requires DispatchOk(cfg, d, l) && (ev.PrepareBegins? || ev.PrepareEnds?) && !d.episode.ActiveGoal()
    requires Inv(Next(cfg, d, ev).episode)
    ensures DispatchOk(cfg, Next(cfg, d, ev), Record(cfg, d, l, ev))
  {
    var d' := Next(cfg, d, ev);
    var origins := LogNext(cfg, d, l.log, ev).origins;
    ClosedContexts(d, l.goals, l.goals, d'.episode);
    assert Record(cfg, d, l, ev) == Ledger(l.goals, l.log.(origins := origins), l.traffic);
    assert PlanOk(cfg, d', origins, l.traffic.submitted);
  }

  lemma GoalKeeps(cfg: Config, d: Dispatcher, l: Ledger, spec: GoalSpec, uuid: nat)
    requires DispatchOk(cfg, d, l) && Enabled(d, l, GoalRequested(spec, uuid))
    ensures var ev := GoalRequested(spec, uuid); DispatchOk(cfg, Next(cfg, d, ev), Record(cfg, d, l, ev))
  {
    var ev := GoalRequested(spec, uuid);
    var d' := Next(cfg, d, ev);
    StepKeeps(d.episode, DoAccept(spec));
    if ValidateGoal(d.episode, spec).None? {
      var goals' := GoalsNext(cfg, d, l, ev);
      ClosedContexts(d, l.goals, goals', d'.episode);
      ReturnedStays(l.goals, goals');
    } else {
      assert Record(cfg, d, l, ev).log == l.log.(origins := Record(cfg, d, l, ev).log.origins);
      CarryKeeps(cfg, d, d', l.goals, l.log, Record(cfg, d, l, ev).log.origins, l.traffic.submitted, l.traffic.submitted);
    }
  }

  lemma ReturnedStays(goals: Goals, goals': Goals)
    requires goals'.returned == goals.returned && goals'.closures == goals.closures
    requires forall u: nat :: u in goals.goalOf ==> u in goals'.goalOf && goals'.goalOf[u] == goals.goalOf[u]
    requires forall k: nat :: k < |goals.returned| ==> ReturnedOk(goals.returned[k], goals)
    ensures forall k: nat :: k < |goals'.returned| ==> ReturnedOk(goals'.returned[k], goals')
  {
    forall k: nat | k < |goals'.returned|
      ensures ReturnedOk(goals'.returned[k], goals')
    {
      assert ReturnedOk(goals.returned[k], goals);
    }
  }

  lemma HandleKeeps(cfg: Config, d: Dispatcher, l: Ledger, uuid: nat, now: int)
    requires DispatchOk(cfg, d, l) && Enabled(d, l, HandleAccepted(uuid, now))
    ensures var ev := HandleAccepted(uuid, now); DispatchOk(cfg, Next(cfg, d, ev), Record(cfg, d, l, ev))
  {
    var ev := HandleAccepted(uuid, now);
    var d' := Next(cfg, d, ev);
    var goals' := GoalsNext(cfg, d, l, ev);
    StepKeeps(d.episode, DoBind(d.Generation(), now));
    ReturnedStays(l.goals, goals');
    if CanBind(d.episode, d.Generation()) {
      BoundContexts(cfg, d, l.goals, uuid, now);
    } else {
      SameContexts(d, l.goals, goals');
    }
  }

  lemma SameContexts(d: Dispatcher, goals: Goals, goals': Goals)
    requires ContextsOk(d.contexts, d.episode, goals) && goals' == goals.(pendingUuid := goals'.pendingUuid)
    ensures ContextsOk(d.contexts, d.episode, goals')
  {
    forall i: nat | i < |d.contexts|
      ensures ContextOk(d.contexts[i], d.episode, goals')
    {
      assert ContextOk(d.contexts[i], d.episode, goals);
    }
  }

  lemma BoundContexts(cfg: Config, d: Dispatcher, goals: Goals, uuid: nat, now: int)
    requires ContextsOk(d.contexts, d.episode, goals) && ClosuresOk(goals.closures, d.episode)
    requires CanBind(d.episode, d.Generation())
    requires uuid in goals.goalOf && goals.goalOf[uuid] == d.Generation()
    ensures var d' := BindHandle(d, uuid, now);
            ContextsOk(d'.contexts, d'.episode, goals.(pendingUuid := None)) && ClosuresOk(goals.closures, d'.episode)
  {
    var d' := BindHandle(d, uuid, now);
    forall i: nat | i < |d.contexts|
      ensures ContextOk(d'.contexts[i], d'.episode, goals.(pendingUuid := None))
      ensures d.contexts[i].generation < d.Generation()
    {
      assert ContextOk(d.contexts[i], d.episode, goals);
    }
  }

  lemma ReturnKeeps(cfg: Config, d: Dispatcher, l: Ledger, uuid: nat)
    requires DispatchOk(cfg, d, l)
    ensures var ev := ExecuteReturned(uuid); DispatchOk(cfg, Next(cfg, d, ev), Record(cfg, d, l, ev))
  {
    var ev := ExecuteReturned(uuid);
    var d' := Next(cfg, d, ev);
    var goals' := GoalsNext(cfg, d, l, ev);
    var log' := LogNext(cfg, d, l.log, ev);
    assert log' == l.log.(origins := log'.origins);
    if Awaited(d, uuid).Some? {
      ReturnedKeeps(d, l.goals, goals', uuid);
    } else {
      CarryKeeps(cfg, d, d', l.goals, l.log, log'.origins, l.traffic.submitted, l.traffic.submitted);
    }
  }

  lemma ReturnedKeeps(d: Dispatcher, goals: Goals, goals': Goals, uuid: nat)
    requires ContextsOk(d.contexts, d.episode, goals) && ClosuresOk(goals.closures, d.episode) && HandleOk(d)
    requires GoalsOk(goals, d.Generation()) && Awaited(d, uuid).Some?
    requires goals' == goals.(returned := goals.returned + [Returned(uuid, Awaited(d, uuid).value)])
    ensures ContextsOk(Return(d, uuid).contexts, d.episode, goals')
    ensures GoalsOk(goals', d.Generation()) && HandleOk(Return(d, uuid))
  {
    var i := FindContext(d.contexts, uuid).value;
    assert ContextOk(d.contexts[i], d.episode, goals);
    RemovedContexts(d, goals, goals', i);
    forall k: nat | k < |goals'.returned|
      ensures ReturnedOk(goals'.returned[k], goals')
    {
      assert k < |goals.returned| ==> ReturnedOk(goals.returned[k], goals);
    }
    ReturnKeepsHandle(d, goals, uuid);
  }

  lemma RemovedContexts(d: Dispatcher, goals: Goals, goals': Goals, i: nat)
    requires ContextsOk(d.contexts, d.episode, goals) && i < |d.contexts|
    requires goals' == goals.(returned := goals'.returned)
    ensures ContextsOk(d.contexts[..i] + d.contexts[i + 1..], d.episode, goals')
  {
    var rest := d.contexts[..i] + d.contexts[i + 1..];
    forall k: nat | k < |rest|
      ensures ContextOk(rest[k], d.episode, goals')
    {
      assert ContextOk(d.contexts[if k < i then k else k + 1], d.episode, goals);
    }
  }

  /** While a goal runs, only earlier goals can return. */
  lemma ReturnKeepsHandle(d: Dispatcher, goals: Goals, uuid: nat)
    requires ContextsOk(d.contexts, d.episode, goals) && ClosuresOk(goals.closures, d.episode) && HandleOk(d)
    requires Awaited(d, uuid).Some?
    ensures HandleOk(Return(d, uuid))
  {
    var i := FindContext(d.contexts, uuid).value;
    var last := |d.contexts| - 1;
    assert ContextOk(d.contexts[i], d.episode, goals);
    if d.episode.GateOpen() {
      assert ContextOk(d.contexts[last], d.episode, goals);
      assert i != last;
    }
  }

  // ---- Every step ------------------------------------------------------------------------------------------

  lemma NextKeeps(cfg: Config, d: Dispatcher, l: Ledger, ev: DispatchEvent)
    requires DispatchOk(cfg, d, l) && Enabled(d, l, ev)
    ensures DispatchOk(cfg, Next(cfg, d, ev), Record(cfg, d, l, ev))
  {
    match ev
    case PrepareBegins => PrepareKeeps(cfg, d, l, ev);
    case PrepareEnds(_) => PrepareKeeps(cfg, d, l, ev);
    case GoalRequested(spec, uuid) => GoalKeeps(cfg, d, l, spec, uuid);
    case HandleAccepted(uuid, now) => HandleKeeps(cfg, d, l, uuid, now);
    case ResetCalled => ResetKeeps(cfg, d, l);
    case ExecuteReturned(uuid) => ReturnKeeps(cfg, d, l, uuid);
    case _ => WorkKeeps(cfg, d, l, ev);
  }

  lemma WorkKeeps(cfg: Config, d: Dispatcher, l: Ledger, ev: DispatchEvent)
    requires DispatchOk(cfg, d, l) && Enabled(d, l, ev) && Plain(ev)
    requires !ev.PrepareBegins? && !ev.PrepareEnds? && !ev.ResetCalled?
    ensures DispatchOk(cfg, Next(cfg, d, ev), Record(cfg, d, l, ev))
  {
    match ev
    case Answered(id, sent, reply, now) => AnsweredKeeps(cfg, d, l, id, sent, reply, now);
    case ActionSubmitted(correlation, receipt, now) => SubmittedKeeps(cfg, d, l, correlation, receipt, now);
    case Decided(t, now) => TransitionKeeps(cfg, d, l, ev, d, t, now);
    case CancelSeen => CancelKeeps(cfg, d, l);
    case StartupChecked(now) => StartupKeeps(cfg, d, l, now);
    case DurationChecked(now) => DurationKeeps(cfg, d, l, now);
    case _ => LocalKeeps(cfg, d, l, ev);
  }
}
