/**
 What each event means for the goal that is running: which steps are committed and with which action, and
 for every way to end, which outcome the goal is handed.
 */
module DispatchOutcomes {
  import opened Prelude
  import opened ChunkPlanning
  import opened Smoothing
  import opened Plans
  import opened PlanRuns
  import opened Episodes
  import EpisodeRuns
  import opened Dispatching
  import opened DispatchRuns
  import opened DispatchInvariant
  import opened DispatchSteps
  import opened DispatchSafety

  /** The goal has ended with this reason and status: that is what its execute callback will return. */
  predicate EndsWith(d: Dispatcher, d': Dispatcher, reason: Reason, status: Status) {
    && d.episode.ActiveGoal() && !d'.episode.ActiveGoal()
    && FinalOutcome(d'.episode).reason == reason && FinalOutcome(d'.episode).status == status
    && FinalOutcome(d'.episode).result.reason == Some(reason)
    && Remaining(d'.plan) == 0 && d'.pending == NOTHING_PENDING && d'.lastAction == None
  }

  lemma EndEndsWith(cfg: Config, d: Dispatcher, mid: Dispatcher, kind: Conclusion, reason: Reason)
    requires d.episode.ActiveGoal() && mid.episode.ActiveGoal() && Fitting(kind, reason)
    ensures EndsWith(d, End(cfg, mid, kind, reason), reason, StatusOf(kind))
  {
  }

  /** The goal is as it was, and nothing local is left: no plan, no action, no request. */
  predicate Emptied(d: Dispatcher, d': Dispatcher) {
    && d'.episode == d.episode && Remaining(d'.plan) == 0 && d'.plan.source.None? && d'.pending == NOTHING_PENDING
    && d'.lastAction.None? && d'.requests.inflight.None? && d'.contexts == d.contexts
  }

  // ---- Ticks, services and faults ------------------------------------------------------------------------

  /** A cancel that is seen withdraws the running goal; a reset aborts an accepted one; and outside a goal
      neither ends anything. */
  lemma CancelAndResetEnd(cfg: Config, ds: seq<Dispatcher>, ls: seq<Ledger>, evs: seq<DispatchEvent>, n: nat)
    requires IsRun(cfg, ds, ls, evs) && n < |evs|
    ensures evs[n].CancelSeen? ==>
              if ds[n].episode.GateOpen() then EndsWith(ds[n], ds[n + 1], Canceled, Withdrawn) else ds[n + 1] == ds[n]
    ensures evs[n].ResetCalled? ==>
              if ds[n].episode.ActiveGoal() then EndsWith(ds[n], ds[n + 1], ExternalReset, Status.Aborted)
              else Emptied(ds[n], ds[n + 1])
  {
    Reachable(cfg, ds, ls, evs, n);
    assert ds[n + 1] == Next(cfg, ds[n], evs[n]);
    if evs[n].CancelSeen? && ds[n].episode.GateOpen() {
      EndEndsWith(cfg, ds[n], ds[n], Cancels, Canceled);
    } else if evs[n].ResetCalled? && ds[n].episode.ActiveGoal() {
      EndEndsWith(cfg, ds[n], ds[n], Aborts, ExternalReset);
    }
  }

  /** A goal that has not had its first inference by the startup deadline is aborted. */
  lemma StartupDeadlineEnds(cfg: Config, ds: seq<Dispatcher>, ls: seq<Ledger>, evs: seq<DispatchEvent>, n: nat, now: int)
    requires IsRun(cfg, ds, ls, evs) && n < |evs| && evs[n] == StartupChecked(now)
    ensures if ds[n].episode.phase == Starting && now >= ds[n].episode.deadlines.startup
            then EndsWith(ds[n], ds[n + 1], ObservationStartupTimeout, Status.Aborted) else ds[n + 1] == ds[n]
  {
    assert ds[n + 1] == Next(cfg, ds[n], evs[n]);
    StartupVerdict(cfg, ds[n], now);
  }

  lemma StartupVerdict(cfg: Config, d: Dispatcher, now: int)
    ensures if d.episode.phase == Starting && now >= d.episode.deadlines.startup
            then EndsWith(d, CheckStartup(cfg, d, now), ObservationStartupTimeout, Status.Aborted)
            else CheckStartup(cfg, d, now) == d
  {
    if d.episode.phase == Starting {
      EndEndsWith(cfg, d, d, Aborts, ObservationStartupTimeout);
    }
  }

  /** A goal that has had its time succeeds. */
  lemma DurationEnds(cfg: Config, ds: seq<Dispatcher>, ls: seq<Ledger>, evs: seq<DispatchEvent>, n: nat, now: int)
    requires IsRun(cfg, ds, ls, evs) && n < |evs| && evs[n] == DurationChecked(now)
    ensures if ds[n].episode.GateOpen() && now >= ds[n].episode.deadlines.episode
            then EndsWith(ds[n], ds[n + 1], MaxDuration, Succeeded) else ds[n + 1] == ds[n]
  {
    assert ds[n + 1] == Next(cfg, ds[n], evs[n]);
    if ds[n].episode.GateOpen() {
      EndEndsWith(cfg, ds[n], ds[n], Finishes, MaxDuration);
    }
  }

  /** Every fault of the execution aborts the running goal: a failed step as failed, a wrong identity as that, a
      rejection as rejected, and anything that leaves the execution in doubt as uncertain. */
  lemma FaultsAbort(cfg: Config, ds: seq<Dispatcher>, ls: seq<Ledger>, evs: seq<DispatchEvent>, n: nat, fault: Fault)
    requires IsRun(cfg, ds, ls, evs) && n < |evs|
    requires evs[n].Decided? && evs[n].transition == Transition.FailClosed(fault)
    ensures FaultMeans(ds[n], ds[n + 1], fault)
  {
    assert ds[n + 1] == Next(cfg, ds[n], evs[n]);
    if ds[n].episode.GateOpen() {
      RunningGoalIsBound(cfg, ds, ls, evs, n);
    }
    FaultVerdict(cfg, ds[n], fault, evs[n].now);
  }

  predicate FaultMeans(d: Dispatcher, d': Dispatcher, fault: Fault) {
    var reason := if fault == FailedStep then ExecutionFailed
                  else if fault == EpisodeIdMismatch || fault == StepIdMismatch then IdentityMismatch
                  else if fault == Fault.Rejected then ExecutionRejected
                  else ExecutionUncertain;
    if d.episode.GateOpen() then EndsWith(d, d', reason, Status.Aborted)
    else d'.episode == d.episode && d'.pending.correlation.None?
  }

  lemma FaultVerdict(cfg: Config, d: Dispatcher, fault: Fault, now: int)
    requires d.episode.GateOpen() ==> d.activeHandle.Some?
    ensures FaultMeans(d, Apply(cfg, d, Transition.FailClosed(fault), now), fault)
  {
    if d.episode.GateOpen() {
      EndEndsWith(cfg, d, Forget(d), Aborts, FaultReason(fault));
    }
  }

  // ---- Submissions and commits ---------------------------------------------------------------------------

  /** An action is submitted exactly while the gate is open, no inference is out and the plan has one. A refused
      submission aborts the goal; an accepted one is pending, with the plan's next action and a reservation that
      stands, and consumes nothing yet. */
  lemma SubmissionVerdict(cfg: Config, ds: seq<Dispatcher>, ls: seq<Ledger>, evs: seq<DispatchEvent>, n: nat,
                          correlation: nat, receipt: Receipt, now: int)
    requires IsRun(cfg, ds, ls, evs) && n < |evs| && evs[n] == ActionSubmitted(correlation, receipt, now)
    requires receipt == Declined || receipt == Submitted
    ensures var d, d' := ds[n], ds[n + 1];
            if d.episode.GateOpen() && d.requests.inflight.None? && Remaining(d.plan) > 0 then
              if receipt == Declined then EndsWith(d, d', ExecutionRejected, Status.Aborted)
              else
                && d'.pending.correlation == Some(correlation) && d'.pending.action == Some(d.plan.store.actions[0])
                && IsCurrent(d'.plan, d'.pending.reservation) && d'.plan.store == d.plan.store
                && d'.episode == d.episode && ls[n + 1].log.served == ls[n].log.served
            else
              d' == d
  {
    Reachable(cfg, ds, ls, evs, n);
    assert ds[n + 1] == Next(cfg, ds[n], evs[n]) && ls[n + 1] == Record(cfg, ds[n], ls[n], evs[n]);
    if MaySubmit(ds[n]) && receipt == Declined {
      EndEndsWith(cfg, ds[n], ds[n].(plan := Reserve(ds[n].plan)), Aborts, ExecutionRejected);
    }
  }

  /** The step is the next one of the running episode. */
  predicate InSequence(e: Episode, data: StepData) {
    data.episodeId == e.goal.episodeId && data.stepId == Some(e.progress.committed)
  }

  /** The step is on record as published, with the action that was submitted and has left the plan. */
  predicate Publishes(mid: Dispatcher, log: Log, log': Log, c: Completion) {
    && Remaining(mid.plan) > 0
    && log'.feedback == log.feedback + [Feedback(mid.episode.progress.committed + 1, c.data, c.correlation,
                                                 Some(mid.plan.store.actions[0]))]
    && |log'.served| == |log.served| + 1 && log'.served[|log.served|].action == mid.plan.store.actions[0]
  }

  /** A completion of the submission that is pending, whose reservation stands and whose step is the next one,
      is committed: its action leaves the plan and is remembered as the last one, and the episode goes on or
      succeeds for the first reason that applies. A completion of any other submission is void. If the plan was
      replaced meanwhile the execution is in doubt, and a step out of sequence has a wrong identity. */
  lemma CompletionVerdict(cfg: Config, ds: seq<Dispatcher>, ls: seq<Ledger>, evs: seq<DispatchEvent>, n: nat,
                          c: Completion, now: int)
    requires IsRun(cfg, ds, ls, evs) && n < |evs| && evs[n] == Decided(Commit(c), now) && ds[n].episode.GateOpen()
    ensures Decides(ds[n], ds[n + 1], ls[n].log, ls[n + 1].log, c, now)
  {
    Reachable(cfg, ds, ls, evs, n);
    assert ds[n + 1] == Next(cfg, ds[n], evs[n]) && ls[n + 1] == Record(cfg, ds[n], ls[n], evs[n]);
    CommitVerdict(cfg, ds[n], ls[n].log, c, now);
    assert LogNext(cfg, ds[n], ls[n].log, evs[n])
           == LogCommit(ds[n], ls[n].log, c, now).(origins := LogNext(cfg, ds[n], ls[n].log, evs[n]).origins);
  }

  /** `d'` is `d` after this step: still running with one action less, or ended by it. */
  predicate Commits(d: Dispatcher, d': Dispatcher, data: StepData, now: int)
    requires Remaining(d.plan) > 0
  {
    var reason := EvaluateTerminal(data, d.episode.progress.committed + 1, d.episode.goal.maxActions,
                                   d.episode.deadlines.episode, now);
    && d'.episode.progress.committed == d.episode.progress.committed + 1 && d'.episode.progress.snapshot == Some(data)
    && (if reason.Some? then EndsWith(d, d', reason.value, Succeeded)
        else
          && d'.episode.phase == d.episode.phase && d'.episode.goal == d.episode.goal
          && [d.plan.store.actions[0]] + d'.plan.store.actions == d.plan.store.actions
          && d'.lastAction == Some(d.plan.store.actions[0]) && d'.pending == NOTHING_PENDING)
  }

  /** What this completion means for the goal running in `d`. */
  predicate Decides(d: Dispatcher, d': Dispatcher, log: Log, log': Log, c: Completion, now: int) {
    if d.pending.correlation != Some(c.correlation) then d' == d
    else if !IsCurrent(d.plan, d.pending.reservation) then EndsWith(d, d', ExecutionUncertain, Status.Aborted)
    else if !InSequence(d.episode, c.data) then EndsWith(d, d', IdentityMismatch, Status.Aborted)
    else Publishes(d, log, log', c) && Commits(d, d', c.data, now)
  }

  lemma HandlingMeans(d: Dispatcher, c: Completion, now: int)
    requires Inv(d.episode) && d.HasGoal()
    ensures var h := Handle(d, c, now);
            if d.pending.correlation != Some(c.correlation) then h.Unmatched?
            else if !IsCurrent(d.plan, d.pending.reservation) then h.PlanReplaced?
            else if !InSequence(d.episode, c.data) then h.WrongIdentity?
            else h.Consumes?
  {
  }

  lemma CommitVerdict(cfg: Config, d: Dispatcher, log: Log, c: Completion, now: int)
    requires Inv(d.episode) && d.HasGoal() && PendingOk(d.plan, d.pending)
    ensures Decides(d, Apply(cfg, d, Commit(c), now), log, LogCommit(d, log, c, now), c, now)
  {
    HandlingMeans(d, c, now);
    var h := Handle(d, c, now);
    if h.PlanReplaced? || h.WrongIdentity? {
      DoubtfulVerdict(cfg, d, c, now);
    } else if h.Consumes? {
      ConsumedVerdict(cfg, d, log, c, now);
    }
  }

  lemma DoubtfulVerdict(cfg: Config, mid: Dispatcher, c: Completion, now: int)
    requires mid.HasGoal() && mid.pending.correlation == Some(c.correlation)
    ensures Handle(mid, c, now).PlanReplaced? ==>
              EndsWith(mid, Apply(cfg, mid, Commit(c), now), ExecutionUncertain, Status.Aborted)
    ensures Handle(mid, c, now).WrongIdentity? ==>
              EndsWith(mid, Apply(cfg, mid, Commit(c), now), IdentityMismatch, Status.Aborted)
  {
    EndEndsWith(cfg, mid, Forget(mid), Aborts, ExecutionUncertain);
    EndEndsWith(cfg, mid, mid, Aborts, IdentityMismatch);
  }

  lemma ConsumedVerdict(cfg: Config, mid: Dispatcher, log: Log, c: Completion, now: int)
    requires Inv(mid.episode) && mid.episode.GateOpen() && PendingOk(mid.plan, mid.pending)
    requires Handle(mid, c, now).Consumes?
    ensures InSequence(mid.episode, c.data)
    ensures Publishes(mid, log, LogCommit(mid, log, c, now), c)
    ensures Commits(mid, Apply(cfg, mid, Commit(c), now), c.data, now)
  {
    var reason := Handle(mid, c, now).reason;
    if reason.Some? {
      EndEndsWith(cfg, mid, Consume(mid, c, now), Finishes, reason.value);
    }
  }

  /** So is a completion that comes at once with its submission. */
  lemma ImmediateVerdict(cfg: Config, ds: seq<Dispatcher>, ls: seq<Ledger>, evs: seq<DispatchEvent>, n: nat,
                         c: Completion, now: int)
    requires IsRun(cfg, ds, ls, evs) && n < |evs|
    requires evs[n] == ActionSubmitted(c.correlation, Immediate(Commit(c)), now) && MaySubmit(ds[n])
    ensures var d, d' := ds[n], ds[n + 1];
            if InSequence(d.episode, c.data) then Publishes(d, ls[n].log, ls[n + 1].log, c) && Commits(d, d', c.data, now)
            else EndsWith(d, d', IdentityMismatch, Status.Aborted)
  {
    Reachable(cfg, ds, ls, evs, n);
    assert ds[n + 1] == Next(cfg, ds[n], evs[n]) && ls[n + 1] == Record(cfg, ds[n], ls[n], evs[n]);
    CommitVerdict(cfg, Reserved(ds[n], c.correlation), ls[n].log, c, now);
  }

  /** And a fault that comes at once with its submission aborts the goal as any other. */
  lemma ImmediateFaultAborts(cfg: Config, ds: seq<Dispatcher>, ls: seq<Ledger>, evs: seq<DispatchEvent>, n: nat,
                             correlation: nat, fault: Fault, now: int)
    requires IsRun(cfg, ds, ls, evs) && n < |evs| && MaySubmit(ds[n])
    requires evs[n] == ActionSubmitted(correlation, Immediate(Transition.FailClosed(fault)), now)
    ensures FaultMeans(ds[n], ds[n + 1], fault)
  {
    assert ds[n + 1] == Next(cfg, ds[n], evs[n]);
    RunningGoalIsBound(cfg, ds, ls, evs, n);
    FaultVerdict(cfg, Reserved(ds[n], correlation), fault, now);
  }

  // ---- Replies of the inference ------------------------------------------------------------------------------

  /** This reply answers the request that is out, for the goal that is running. */
  predicate Answers(d: Dispatcher, id: nat, sent: Sent) {
    && d.requests.inflight == Some(id) && sent.requestGeneration == d.requests.generation
    && d.episode.GateOpen() && sent.goalGeneration == d.Generation()
  }

  /** A failed inference aborts the goal that asked for it; one that was not ready does so once the deadline for
      the next observation has passed, and until then only frees the way for another request. */
  lemma FailedInferenceVerdict(cfg: Config, ds: seq<Dispatcher>, ls: seq<Ledger>, evs: seq<DispatchEvent>, n: nat,
                               id: nat, sent: Sent, reply: Reply, now: int)
    requires IsRun(cfg, ds, ls, evs) && n < |evs| && evs[n] == Answered(id, sent, reply, now)
    requires Answers(ds[n], id, sent)
    ensures reply.Undecodable? || reply.Failed? ==> EndsWith(ds[n], ds[n + 1], InferenceFailed, Status.Aborted)
    ensures reply.NotReady? ==>
              if now >= ds[n].readinessDeadline then EndsWith(ds[n], ds[n + 1], ObservationStartupTimeout, Status.Aborted)
              else ds[n + 1] == ds[n].(requests := ds[n].requests.(inflight := None))
  {
    Reachable(cfg, ds, ls, evs, n);
    assert ds[n + 1] == Next(cfg, ds[n], evs[n]);
    FailedReplyVerdict(cfg, ds[n], id, sent, reply, now);
  }

  lemma FailedReplyVerdict(cfg: Config, d: Dispatcher, id: nat, sent: Sent, reply: Reply, now: int)
    requires ValidPlan(cfg.settings, d.plan) && d.HasGoal() && Answers(d, id, sent)
    ensures var d' := Answer(cfg, d, id, sent, reply, now);
            && (reply.Undecodable? || reply.Failed? ==> EndsWith(d, d', InferenceFailed, Status.Aborted))
            && (reply.NotReady? ==>
                  if now >= d.readinessDeadline then EndsWith(d, d', ObservationStartupTimeout, Status.Aborted)
                  else d' == d.(requests := d.requests.(inflight := None)))
  {
    var done := CompleteInflight(d, id);
    if reply.NotReady? {
      EndEndsWith(cfg, d, done, Aborts, ObservationStartupTimeout);
    } else {
      EndEndsWith(cfg, d, done, Aborts, InferenceFailed);
    }
  }

  /** What a chunk must be for the plan to take it: a finite nonempty matrix of the right width whose usable part
      a bounded or sufficient queue can hold. (A smoother may also refuse a width that changes.) */
  predicate FitsPlan(cfg: Config, actions: Chunk, horizon: int) {
    && actions.rank == 2 && |actions.rows| > 0 && actions.width > 0 && actions.finite
    && (cfg.dimension.Some? ==> actions.width == cfg.dimension.value) && 0 <= horizon <= |actions.rows|
  }

  /** The part of a chunk that is still to be executed: from what was consumed since the request, up to what the
      planner lets through. */
  function Rest(cfg: Config, d: Dispatcher, actions: Chunk, horizon: int): (int, int) {
    var stop := Executable(cfg.planner, actions, Some(horizon));
    (Min(Max(0, d.requests.lengthAtStart - Remaining(d.plan)), stop), stop)
  }

  /** A usable prediction refills the queue of the goal that asked for it with exactly the rest of its chunk, and
      the episode is running; one that is unusable or does not fit aborts the goal. */
  lemma PredictionVerdict(cfg: Config, ds: seq<Dispatcher>, ls: seq<Ledger>, evs: seq<DispatchEvent>, n: nat,
                          id: nat, sent: Sent, actions: Chunk, horizon: int, now: int)
    requires IsRun(cfg, ds, ls, evs) && n < |evs| && evs[n] == Answered(id, sent, Predicted(actions, horizon), now)
    requires Answers(ds[n], id, sent) && !cfg.settings.smoothed
    ensures Predicts(cfg, ds[n], ds[n + 1], id, actions, horizon)
  {
    Reachable(cfg, ds, ls, evs, n);
    assert ds[n + 1] == Next(cfg, ds[n], evs[n]);
    RefillVerdict(cfg, ds[n], id, sent, actions, horizon, now);
  }

  /** What this prediction means for the goal running in `d`. */
  predicate Predicts(cfg: Config, d: Dispatcher, d': Dispatcher, id: nat, actions: Chunk, horizon: int) {
    var rest := Rest(cfg, d, actions, horizon);
    if !FitsPlan(cfg, actions, horizon)
       || (cfg.settings.overflow == Overflow.FailClosed && rest.1 - rest.0 > cfg.settings.capacity)
    then EndsWith(d, d', InferenceFailed, Status.Aborted)
    else Refilled(d, d', id) && 0 <= rest.0 <= rest.1 <= |actions.rows|
         && d'.plan.store.actions == Newest(actions.rows[rest.0..rest.1], cfg.settings.capacity)
  }

  lemma RefillVerdict(cfg: Config, d: Dispatcher, id: nat, sent: Sent, actions: Chunk, horizon: int, now: int)
    requires ValidPlan(cfg.settings, d.plan) && d.HasGoal() && Answers(d, id, sent) && !cfg.settings.smoothed
    ensures Predicts(cfg, d, Answer(cfg, d, id, sent, Predicted(actions, horizon), now), id, actions, horizon)
  {
    var done := CompleteInflight(d, id);
    var accepted := AcceptedPlan(cfg, done, id, sent, actions, horizon);
    AcceptedRest(cfg, done, id, sent, actions, horizon);
    if accepted.Err? {
      EndEndsWith(cfg, d, done, Aborts, InferenceFailed);
    }
  }

  lemma AcceptedRest(cfg: Config, d: Dispatcher, id: nat, sent: Sent, actions: Chunk, horizon: int)
    requires ValidPlan(cfg.settings, d.plan) && !cfg.settings.smoothed
    ensures var rest := Rest(cfg, d, actions, horizon);
            var accepted := AcceptedPlan(cfg, d, id, sent, actions, horizon);
            && (accepted.Ok? <==> FitsPlan(cfg, actions, horizon)
                                  && !(cfg.settings.overflow == Overflow.FailClosed
                                       && rest.1 - rest.0 > cfg.settings.capacity))
            && (accepted.Ok? ==>
                  && 0 <= rest.0 <= rest.1 <= |actions.rows|
                  && accepted.value.store.actions == Newest(actions.rows[rest.0..rest.1], cfg.settings.capacity)
                  && accepted.value.source.Some? && accepted.value.source.value.requestId == id)
  {
    PlanVerdict(cfg, d, actions, horizon);
    var planned := Planned(cfg, d, actions, horizon);
    if planned.Ok? {
      CandidateAcceptedIff(cfg.settings, d.plan, planned.value, PlanSource(id, sent.requestGeneration, 0, 0), cfg.dimension);
    }
  }

  /** The request is over, the plan is the answer to it, and the episode has had its first inference. */
  predicate Refilled(d: Dispatcher, d': Dispatcher, id: nat) {
    && d'.requests.inflight.None? && d'.plan.source.Some? && d'.plan.source.value.requestId == id
    && d'.episode.phase == Running && !d'.episode.progress.firstInference && d'.episode.goal == d.episode.goal
    && d'.episode.progress.committed == d.episode.progress.committed && d'.pending == d.pending
  }

  function Newest(rows: seq<Action>, capacity: nat): seq<Action> {
    if |rows| > capacity then rows[|rows| - capacity..] else rows
  }

  lemma PlanVerdict(cfg: Config, d: Dispatcher, actions: Chunk, horizon: int)
    ensures var rest := Rest(cfg, d, actions, horizon);
            var planned := Planned(cfg, d, actions, horizon);
            && (FitsPlan(cfg, actions, horizon) ==> planned.Ok?)
            && (planned.Ok? ==> planned.value.actions == actions && planned.value.Start() == rest.0
                                && planned.value.Stop() == rest.1 && 0 <= rest.0 <= rest.1 <= |actions.rows|)
            && (planned.Ok? ==> (ValidateChunkPlan(planned.value, cfg.dimension).Ok? <==> FitsPlan(cfg, actions, horizon)))
  {
    var checked := ValidateExecutionHorizon(Some(horizon), |actions.rows|);
    if checked.Ok? {
      var executed := Max(0, d.requests.lengthAtStart - Remaining(d.plan));
      PlanStartsAtExecuted(cfg.planner, actions, executed, checked.value);
      if Planned(cfg, d, actions, horizon).Ok? {
        ChunkPlanValidIff(Planned(cfg, d, actions, horizon).value, cfg.dimension);
      }
    }
  }

  // ---- Requests ------------------------------------------------------------------------------------------------

  /** A request goes out exactly when the gate is open and none is out, and it remembers how much of the plan was
      left; one that expires or is refused frees the way for the next. */
  lemma RequestVerdict(cfg: Config, ds: seq<Dispatcher>, ls: seq<Ledger>, evs: seq<DispatchEvent>, n: nat)
    requires IsRun(cfg, ds, ls, evs) && n < |evs|
    ensures var d, d' := ds[n], ds[n + 1];
            match evs[n]
            case RequestSent(id) =>
              if d.episode.GateOpen() && d.requests.inflight.None? then
                && d' == d.(requests := Requests(d.requests.generation, Some(id), Remaining(d.plan)))
                && ls[n + 1].traffic.sent == ls[n].traffic.sent + [Sent(d.requests.generation, d.Generation())]
              else d' == d
            case RequestRefused(id) => d' == if d.requests.inflight == Some(id) then d.(requests := d'.requests) else d
            case InferenceExpired => d' == if d.requests.inflight.Some? then d.(requests := d'.requests) else d
            case _ => true
    ensures (evs[n].RequestRefused? && ds[n].requests.inflight == Some(evs[n].id)) || evs[n].InferenceExpired? ==>
              ds[n + 1].requests.inflight.None?
  {
    assert ds[n + 1] == Next(cfg, ds[n], evs[n]) && ls[n + 1] == Record(cfg, ds[n], ls[n], evs[n]);
  }

  /** These steps cut off the request that is out: its reply will no longer count. */
  predicate CutsOff(d: Dispatcher, d': Dispatcher, ev: DispatchEvent) {
    || (ev.InferenceExpired? && d.requests.inflight.Some?)
    || ev.RuntimeRevoked?
    || (ev.PrepareBegins? && d.episode.CanPrepare())
    || (ev.ResetCalled? && !d.episode.ActiveGoal())
    || (Ended(d, d') && FinalOutcome(d'.episode).status != Succeeded)
  }

  /** How an ending is told and what it does to the requests: only a success keeps them going. */
  predicate EndsWell(d: Dispatcher, d': Dispatcher) {
    var outcome := FinalOutcome(d'.episode);
    && (outcome.status == Withdrawn <==> outcome.reason == Canceled)
    && (outcome.status == Succeeded <==> outcome.reason in EpisodeRuns.PRIORITY)
    && (outcome.status != Succeeded ==> d.requests.generation < d'.requests.generation)
    && (outcome.status == Succeeded ==> d'.requests == d.requests)
    && SameGoals(d.contexts, d'.contexts)
  }

  /** The same goals are waiting for their outcomes, or for being told them. */
  predicate SameGoals(contexts: seq<GoalContext>, contexts': seq<GoalContext>) {
    |contexts'| == |contexts| && forall i :: 0 <= i < |contexts| ==> contexts'[i].uuid == contexts[i].uuid
  }

  lemma {:induction false} FreezeKeepsGoals(contexts: seq<GoalContext>, generation: nat, outcome: Outcome)
    ensures SameGoals(contexts, Freeze(contexts, generation, outcome))
  {
    if contexts != [] && contexts[0].generation != generation {
      FreezeKeepsGoals(contexts[1..], generation, outcome);
    }
  }

  /** `d'` has the requests of `d` or later ones, and if it ended the goal of `d`, it ended it well. */
  predicate Proceeds(d: Dispatcher, d': Dispatcher) {
    && d.requests.generation <= d'.requests.generation
    && (Ended(d, d') ==> EndsWell(d, d'))
  }

  lemma ByPriority(reason: Reason)
    ensures reason in EpisodeRuns.PRIORITY <==>
              || reason == TaskSuccess || reason == Terminated || reason == Truncated || reason == MaxActions
              || reason == MaxDuration
  {
    assert EpisodeRuns.PRIORITY[0] == TaskSuccess && EpisodeRuns.PRIORITY[1] == Terminated
           && EpisodeRuns.PRIORITY[2] == Truncated && EpisodeRuns.PRIORITY[3] == MaxActions
           && EpisodeRuns.PRIORITY[4] == MaxDuration;
  }

  lemma EndProceeds(cfg: Config, d: Dispatcher, mid: Dispatcher, kind: Conclusion, reason: Reason)
    requires mid.requests.generation == d.requests.generation && (d.episode.ActiveGoal() <==> mid.episode.ActiveGoal())
    requires Fitting(kind, reason) && (kind == Finishes <==> reason in EpisodeRuns.PRIORITY)
    requires mid.contexts == d.contexts && (kind == Finishes ==> mid.requests == d.requests)
    ensures Proceeds(d, End(cfg, mid, kind, reason))
  {
    var result := CloseResult(mid.episode, mid.Generation(), reason);
    if result.Some? {
      FreezeKeepsGoals(mid.contexts, mid.Generation(), Outcome(result.value, reason, StatusOf(kind)));
    }
  }

  lemma TransitionProceeds(cfg: Config, d: Dispatcher, t: Transition, now: int)
    ensures Proceeds(d, Apply(cfg, d, t, now))
  {
    match t
    case Ignore =>
    case FailClosed(fault) =>
      ByPriority(FaultReason(fault));
      EndProceeds(cfg, d, Forget(d), Aborts, FaultReason(fault));
    case Commit(c) => CommitProceeds(cfg, d, c, now);
  }

  lemma CommitProceeds(cfg: Config, d: Dispatcher, c: Completion, now: int)
    ensures Proceeds(d, Apply(cfg, d, Commit(c), now))
  {
    match Handle(d, c, now)
    case PlanReplaced =>
      ByPriority(ExecutionUncertain);
      EndProceeds(cfg, d, Forget(d), Aborts, ExecutionUncertain);
    case WrongIdentity =>
      ByPriority(IdentityMismatch);
      EndProceeds(cfg, d, d, Aborts, IdentityMismatch);
    case Consumes(reason) =>
      if reason.Some? {
        ByPriority(reason.value);
        EndProceeds(cfg, d, Consume(d, c, now), Finishes, reason.value);
      }
    case _ =>
  }

  lemma AnswerProceeds(cfg: Config, d: Dispatcher, id: nat, sent: Sent, reply: Reply, now: int)
    requires ValidPlan(cfg.settings, d.plan)
    ensures Proceeds(d, Answer(cfg, d, id, sent, reply, now))
  {
    ByPriority(InferenceFailed);
    ByPriority(ObservationStartupTimeout);
    EndProceeds(cfg, d, CompleteInflight(d, id), Aborts, InferenceFailed);
    EndProceeds(cfg, d, CompleteInflight(d, id), Aborts, ObservationStartupTimeout);
  }

  lemma SubmissionProceeds(cfg: Config, d: Dispatcher, correlation: nat, receipt: Receipt, now: int)
    ensures Proceeds(d, Submit(cfg, d, correlation, receipt, now))
  {
    if MaySubmit(d) {
      if receipt.Immediate? {
        TransitionProceeds(cfg, Reserved(d, correlation), receipt.transition, now);
      } else if receipt.Declined? {
        ByPriority(ExecutionRejected);
        EndProceeds(cfg, d, d.(plan := Reserve(d.plan)), Aborts, ExecutionRejected);
      }
    }
  }

  lemma TickProceeds(cfg: Config, d: Dispatcher, now: int)
    ensures Proceeds(d, CheckStartup(cfg, d, now)) && Proceeds(d, CheckDuration(cfg, d, now))
  {
    ByPriority(ObservationStartupTimeout);
    EndProceeds(cfg, d, d, Aborts, ObservationStartupTimeout);
    ByPriority(MaxDuration);
    EndProceeds(cfg, d, d, Finishes, MaxDuration);
  }

  lemma ServiceProceeds(cfg: Config, d: Dispatcher)
    ensures Proceeds(d, CancelRequested(cfg, d)) && Proceeds(d, Reset(cfg, d))
  {
    ByPriority(Canceled);
    EndProceeds(cfg, d, d, Cancels, Canceled);
    ByPriority(ExternalReset);
    EndProceeds(cfg, d, d, Aborts, ExternalReset);
  }

  lemma RequestGenerationGrows(cfg: Config, d: Dispatcher, ev: DispatchEvent)
    requires ValidPlan(cfg.settings, d.plan)
    ensures Proceeds(d, Next(cfg, d, ev))
    ensures CutsOff(d, Next(cfg, d, ev), ev) ==> d.requests.generation < Next(cfg, d, ev).requests.generation
  {
    match ev
    case Answered(id, sent, reply, now) => AnswerProceeds(cfg, d, id, sent, reply, now);
    case ActionSubmitted(correlation, receipt, now) => SubmissionProceeds(cfg, d, correlation, receipt, now);
    case Decided(t, now) => TransitionProceeds(cfg, d, t, now);
    case CancelSeen => ServiceProceeds(cfg, d);
    case StartupChecked(now) => TickProceeds(cfg, d, now);
    case DurationChecked(now) => TickProceeds(cfg, d, now);
    case ResetCalled => ServiceProceeds(cfg, d);
    case _ =>
  }

  lemma {:induction false} RequestGenerationsGrow(cfg: Config, ds: seq<Dispatcher>, ls: seq<Ledger>,
                                                  evs: seq<DispatchEvent>, i: nat, n: nat)
    requires IsRun(cfg, ds, ls, evs) && i <= n < |ds|
    ensures ds[i].requests.generation <= ds[n].requests.generation
  {
    if i < n {
      RequestGenerationsGrow(cfg, ds, ls, evs, i, n - 1);
      RequestGenerationGrows(cfg, ds[n - 1], evs[n - 1]);
    }
  }

  /** The reply to a request that was cut off changes nothing at all. */
  lemma CutOffRepliesAreInert(cfg: Config, ds: seq<Dispatcher>, ls: seq<Ledger>, evs: seq<DispatchEvent>,
                              i: nat, k: nat, n: nat, id: nat)
    requires IsRun(cfg, ds, ls, evs) && i < k < n < |evs|
    requires evs[i] == RequestSent(id) && MayRequest(ds[i]) && CutsOff(ds[k], ds[k + 1], evs[k])
    requires evs[n].Answered? && evs[n].id == id
    ensures ds[n + 1] == ds[n]
  {
    assert ls[i + 1] == Record(cfg, ds[i], ls[i], evs[i]);
    SentStays(cfg, ds, ls, evs, i + 1, n);
    assert ls[n].traffic.sent[id] == Sent(ds[i].requests.generation, ds[i].Generation());
    RequestGenerationsGrow(cfg, ds, ls, evs, i, k);
    RequestGenerationGrows(cfg, ds[k], evs[k]);
    RequestGenerationsGrow(cfg, ds, ls, evs, k + 1, n);
    assert ds[n + 1] == Next(cfg, ds[n], evs[n]);
  }

  // ---- Goals come and go -----------------------------------------------------------------------------------------

  /** The handle of the accepted goal opens the gate, and its deadlines run from then on. */
  lemma HandleVerdict(cfg: Config, ds: seq<Dispatcher>, ls: seq<Ledger>, evs: seq<DispatchEvent>, n: nat, uuid: nat, now: int)
    requires IsRun(cfg, ds, ls, evs) && n < |evs| && evs[n] == HandleAccepted(uuid, now)
    ensures var d, d' := ds[n], ds[n + 1];
            if d.episode.phase == AcceptedPending then
              && d'.episode.phase == Starting && d'.activeHandle == Some(uuid) && d'.episode.goal == d.episode.goal
              && d'.readinessDeadline == d'.episode.deadlines.startup == now + Nanoseconds(d.episode.goal.startupTimeout)
              && d'.episode.deadlines.episode == now + Nanoseconds(d.episode.goal.maxDuration)
            else d' == d
  {
    assert ds[n + 1] == Next(cfg, ds[n], evs[n]);
  }

  /** The deadline for the next observation moves only when a handle is bound or a step is committed that brings an
      observation: then it is one startup timeout away. */
  lemma ReadinessVerdict(cfg: Config, ds: seq<Dispatcher>, ls: seq<Ledger>, evs: seq<DispatchEvent>, n: nat)
    requires IsRun(cfg, ds, ls, evs) && n < |evs| && !evs[n].HandleAccepted?
    ensures var d, d' := ds[n], ds[n + 1];
            d'.readinessDeadline
            == if |ls[n + 1].log.feedback| > |ls[n].log.feedback| && Proves(evs[n])
               then evs[n].now + Nanoseconds(d.episode.goal.startupTimeout) else d.readinessDeadline
  {
    Reachable(cfg, ds, ls, evs, n);
    assert ds[n + 1] == Next(cfg, ds[n], evs[n]) && ls[n + 1] == Record(cfg, ds[n], ls[n], evs[n]);
    if evs[n].Decided? {
      CommitReadiness(cfg, ds[n], ls[n].log, evs[n].transition, evs[n].now);
    } else if evs[n].ActionSubmitted? && evs[n].receipt.Immediate? && MaySubmit(ds[n]) {
      CommitReadiness(cfg, Reserved(ds[n], evs[n].correlation), ls[n].log, evs[n].receipt.transition, evs[n].now);
    } else {
      OtherReadiness(cfg, ds[n], ls[n].log, evs[n]);
    }
  }

  predicate Observes(data: StepData) {
    data.observationTimestamp.Some? && data.observationTimestamp.value > 0
  }

  /** The completion that this event brings reports an observation. */
  predicate Proves(ev: DispatchEvent) {
    || (ev.Decided? && ev.transition.Commit? && Observes(ev.transition.completion.data))
    || (ev.ActionSubmitted? && ev.receipt.Immediate? && ev.receipt.transition.Commit?
        && Observes(ev.receipt.transition.completion.data))
  }

  lemma EndKeepsReadiness(cfg: Config, d: Dispatcher, kind: Conclusion, reason: Reason)
    ensures End(cfg, d, kind, reason).readinessDeadline == d.readinessDeadline
  {
  }

  lemma CommitReadiness(cfg: Config, d: Dispatcher, log: Log, t: Transition, now: int)
    ensures var feedback := if t.Commit? then LogCommit(d, log, t.completion, now).feedback else log.feedback;
            Apply(cfg, d, t, now).readinessDeadline
            == if |feedback| > |log.feedback| && t.Commit? && Observes(t.completion.data)
               then now + Nanoseconds(d.episode.goal.startupTimeout) else d.readinessDeadline
  {
  }

  lemma OtherReadiness(cfg: Config, d: Dispatcher, log: Log, ev: DispatchEvent)
    requires ValidPlan(cfg.settings, d.plan) && !ev.Decided? && !ev.HandleAccepted?
    requires ev.ActionSubmitted? && ev.receipt.Immediate? ==> !MaySubmit(d)
    ensures Next(cfg, d, ev).readinessDeadline == d.readinessDeadline
    ensures |LogNext(cfg, d, log, ev).feedback| <= |log.feedback|
  {
  }

  /** The execute callback of a goal takes its outcome with it, once, and gives up its handle. */
  lemma ReturnVerdict(cfg: Config, ds: seq<Dispatcher>, ls: seq<Ledger>, evs: seq<DispatchEvent>, n: nat, uuid: nat)
    requires IsRun(cfg, ds, ls, evs) && n < |evs| && evs[n] == ExecuteReturned(uuid)
    ensures var d, d' := ds[n], ds[n + 1];
            if Awaited(d, uuid).Some? then
              && ls[n + 1].goals.returned == ls[n].goals.returned + [Returned(uuid, Awaited(d, uuid).value)]
              && Awaited(d', uuid).None? && d'.activeHandle != Some(uuid) && |d'.contexts| == |d.contexts| - 1
              && (d.activeHandle != Some(uuid) ==> d'.activeHandle == d.activeHandle)
            else d' == d
  {
    Reachable(cfg, ds, ls, evs, n);
    var d := ds[n];
    assert ds[n + 1] == Next(cfg, d, evs[n]) && ls[n + 1] == Record(cfg, d, ls[n], evs[n]);
    if Awaited(d, uuid).Some? {
      OneContext(d, ls[n].goals, uuid);
    }
  }

  lemma OneContext(d: Dispatcher, goals: Goals, uuid: nat)
    requires ContextsOk(d.contexts, d.episode, goals) && Awaited(d, uuid).Some?
    ensures FindContext(Return(d, uuid).contexts, uuid).None?
  {
    var i := FindContext(d.contexts, uuid).value;
    var rest := Return(d, uuid).contexts;
    assert ContextOk(d.contexts[i], d.episode, goals);
    forall k: nat | k < |rest|
      ensures rest[k].uuid != uuid
    {
      assert ContextOk(d.contexts[if k < i then k else k + 1], d.episode, goals);
    }
  }

  /** Preparing and losing the runtime leave nothing of the last goal. */
  lemma ClearedVerdict(cfg: Config, ds: seq<Dispatcher>, ls: seq<Ledger>, evs: seq<DispatchEvent>, n: nat)
    requires IsRun(cfg, ds, ls, evs) && n < |evs|
    ensures evs[n].RuntimeRevoked? ==> Emptied(ds[n], ds[n + 1])
    ensures evs[n].PrepareBegins? ==>
              if ds[n].episode.ActiveGoal() || ds[n].episode.phase == Preparing then ds[n + 1] == ds[n]
              else Emptied(ds[n].(episode := ds[n + 1].episode), ds[n + 1]) && ds[n + 1].episode.phase == Preparing
  {
    assert ds[n + 1] == Next(cfg, ds[n], evs[n]);
  }

  /** A preparation that succeeds hands out the next token, one that fails none; a goal that is requested with it and
      is usable is accepted as the next one, with the gate still closed; and no other request is. */
  lemma AcceptanceVerdict(cfg: Config, ds: seq<Dispatcher>, ls: seq<Ledger>, evs: seq<DispatchEvent>, n: nat)
    requires IsRun(cfg, ds, ls, evs) && n < |evs|
    ensures var d, d' := ds[n], ds[n + 1];
            match evs[n]
            case PrepareEnds(succeeded) =>
              if d.episode.phase != Preparing then d' == d
              else if succeeded then
                && d'.episode.phase == Prepared
                && d'.episode.tokens.current == d'.episode.tokens.counter == d.episode.tokens.counter + 1
              else d'.episode.phase == Phase.Idle && d'.episode.tokens == Tokens(d.episode.tokens.counter, 0)
            case GoalRequested(spec, uuid) =>
              if d.episode.phase == Prepared && spec.preparationId == d.episode.tokens.counter && EpisodeRuns.Usable(spec) then
                && d'.episode.phase == AcceptedPending && d'.Generation() == d.Generation() + 1
                && ls[n + 1].goals.pendingUuid == Some(uuid) && uuid in ls[n + 1].goals.goalOf
                && ls[n + 1].goals.goalOf[uuid] == d'.Generation()
                && d'.episode.goal.maxActions == spec.maxActions && d'.episode.goal.episodeId == Some(spec.episodeId)
              else d' == d
            case SmoothingToggled(enabled) =>
              d' == if cfg.settings.smoothed then d.(plan := d.plan.(enabled := enabled)) else d
            case _ => true
  {
    Reachable(cfg, ds, ls, evs, n);
    assert ds[n + 1] == Next(cfg, ds[n], evs[n]) && ls[n + 1] == Record(cfg, ds[n], ls[n], evs[n]);
  }

  /** No other event ends a goal, and a goal that succeeds was ended by its own steps or by its time. */
  lemma OnlyTheseEnd(cfg: Config, ds: seq<Dispatcher>, ls: seq<Ledger>, evs: seq<DispatchEvent>, n: nat)
    requires IsRun(cfg, ds, ls, evs) && n < |evs| && Ended(ds[n], ds[n + 1])
    ensures || evs[n].CancelSeen? || evs[n].ResetCalled? || evs[n].StartupChecked? || evs[n].DurationChecked?
            || evs[n].Decided? || evs[n].ActionSubmitted? || evs[n].Answered?
    ensures var outcome := FinalOutcome(ds[n + 1].episode);
            && (outcome.status == Withdrawn <==> outcome.reason == Canceled)
            && (outcome.status == Succeeded <==> outcome.reason in EpisodeRuns.PRIORITY)
  {
    assert ds[n + 1] == Next(cfg, ds[n], evs[n]);
    RequestGenerationGrows(cfg, ds[n], evs[n]);
  }

  /** Whatever ends a running goal leaves its outcome waiting for its execute callback at once, and that outcome is
      final. */
  lemma EndedGoalHasItsOutcome(cfg: Config, ds: seq<Dispatcher>, ls: seq<Ledger>, evs: seq<DispatchEvent>, n: nat)
    requires IsRun(cfg, ds, ls, evs) && n < |evs| && ds[n].episode.GateOpen() && Ended(ds[n], ds[n + 1])
    ensures ds[n].activeHandle.Some?
    ensures Awaited(ds[n + 1], ds[n].activeHandle.value) == Some(FinalOutcome(ds[n + 1].episode))
  {
    Reachable(cfg, ds, ls, evs, n);
    assert ds[n + 1] == Next(cfg, ds[n], evs[n]) && ls[n + 1] == Record(cfg, ds[n], ls[n], evs[n]);
    RequestGenerationGrows(cfg, ds[n], evs[n]);
    EndedGeneration(cfg, ds[n], ls[n], evs[n]);
    assert ContextsOk(ds[n + 1].contexts, ds[n + 1].episode, ls[n + 1].goals) by {
      Reachable(cfg, ds, ls, evs, n + 1);
    }
    LastGoalHasOutcome(ds[n], ds[n + 1], ls[n].goals, ls[n + 1].goals);
  }

  lemma LastGoalHasOutcome(d: Dispatcher, d': Dispatcher, goals: Goals, goals': Goals)
    requires HandleOk(d) && d.episode.GateOpen() && !d'.episode.ActiveGoal() && SameGoals(d.contexts, d'.contexts)
    requires ContextsOk(d.contexts, d.episode, goals) && ContextsOk(d'.contexts, d'.episode, goals')
    requires forall u :: u in goals.goalOf ==> u in goals'.goalOf && goals'.goalOf[u] == goals.goalOf[u]
    requires d.Generation() in goals'.closures && goals'.closures[d.Generation()].outcome == FinalOutcome(d'.episode)
    ensures d.activeHandle.Some? && Awaited(d', d.activeHandle.value) == Some(FinalOutcome(d'.episode))
  {
    var last := |d.contexts| - 1;
    assert ContextOk(d.contexts[last], d.episode, goals);
    assert ContextOk(d'.contexts[last], d'.episode, goals');
    assert FindContext(d'.contexts, d.activeHandle.value) == Some(last);
  }

  lemma EndedGeneration(cfg: Config, d: Dispatcher, l: Ledger, ev: DispatchEvent)
    requires ValidPlan(cfg.settings, d.plan) && Ended(d, Next(cfg, d, ev)) && DispatchOk(cfg, d, l)
    ensures var goals := Record(cfg, d, l, ev).goals;
            && d.Generation() in goals.closures
            && goals.closures[d.Generation()].outcome == FinalOutcome(Next(cfg, d, ev).episode)
            && (forall u :: u in l.goals.goalOf ==> u in goals.goalOf && goals.goalOf[u] == l.goals.goalOf[u])
  {
  }
}
