/** The scheduled dispatcher as an object; each method is one section under its state lock. */
module ScheduledDispatcherNode {
  import opened Prelude
  import opened ChunkPlanning
  import opened Smoothing
  import opened Plans
  import opened ActivePlanStore
  import opened Sessions
  import opened ScheduledWork
  import Spec = ScheduledRuns

  class ScheduledDispatcher {
    const cfg: Config
    const provider: bool
    const queuePlan: ActivePlan
    const smoothedPlan: ActivePlan
    // Session lifecycle.
    var state: DispatcherState
    var session: Session
    var opening: OpenState
    var closing: CloseState
    var owner: Op
    var mailbox: Option<Failure>
    // Work.
    var inflight: Inflight
    var planLengthAtStart: int
    var smoothingEnabled: bool
    var receivedResults: set<Key>
    var lastAction: Option<Action>

    ghost function Repr(): set<object> {
      {this} + queuePlan.Repr() + smoothedPlan.Repr()
    }

    ghost function LifeView(): Life
      reads this
    {
      Life(state, session, opening, closing, owner, mailbox)
    }

    ghost function WorkView(): Work
      reads Repr()
    {
      Work(inflight, planLengthAtStart, queuePlan.View(), smoothedPlan.View(), smoothingEnabled, receivedResults, lastAction)
    }

    ghost predicate Valid()
      reads Repr()
    {
      && queuePlan.Valid() && smoothedPlan.Valid() && queuePlan.Repr() !! smoothedPlan.Repr()
      && queuePlan.settings == cfg.queue && smoothedPlan.settings == cfg.smoother
      && ValidConfig(cfg)
    }

    constructor (cfg: Config, provider: bool, queuePlan: ActivePlan, smoothedPlan: ActivePlan, smoothing: bool)
      requires queuePlan.Valid() && smoothedPlan.Valid() && queuePlan.Repr() !! smoothedPlan.Repr()
      requires queuePlan.settings == cfg.queue && smoothedPlan.settings == cfg.smoother && ValidConfig(cfg)
      requires queuePlan.View() == NewPlan(cfg.queue, false) && smoothedPlan.View() == NewPlan(cfg.smoother, smoothing)
      ensures Valid() && LifeView() == Sessions.INITIAL && WorkView() == NewWork(cfg, smoothing)
      ensures this.cfg == cfg && this.provider == provider
    {
      this.cfg, this.provider, this.queuePlan, this.smoothedPlan := cfg, provider, queuePlan, smoothedPlan;
      state, session, opening := WaitingReady, NO_SESSION, OpenState(None, false);
      closing, owner, mailbox := CloseState(false, false, None), Free, None;
      inflight, planLengthAtStart, smoothingEnabled := NO_REQUEST, 0, smoothing;
      receivedResults, lastAction := {}, None;
    }

    // ---- Clearing ---------------------------------------------------------------------------------------

    method ClearWork()
      requires Valid()
      modifies this`inflight, queuePlan.Repr(), smoothedPlan.Repr()
      ensures Valid() && WorkView() == ClearPlans(cfg, ClearInflight(old(WorkView())))
      ensures LifeView() == old(LifeView())
    {
      inflight := NO_REQUEST;
      queuePlan.Clear();
      smoothedPlan.Clear();
    }

    // ---- Opening ----------------------------------------------------------------------------------------

    method OpenAdmittedSession(newSession: nat) returns (begun: bool)
      requires Valid()
      modifies Repr()
      ensures Valid() && LifeView() == Open(old(LifeView()), newSession)
      ensures begun == old(MayOpen(LifeView()))
      ensures WorkView() == if begun then ClearPlans(cfg, ClearInflight(old(WorkView()))).(received := {})
                            else old(WorkView())
    {
      if state != WaitingReady && state != Stopped {
        return false;
      }
      state := Opening;
      session := session.(id := Some(newSession));
      opening := OpenState(Some(newSession), false);
      ClearWork();
      receivedResults := {};
      begun := true;
    }

    method HandleOpenNotStarted(which: nat)
      modifies this`state, this`session, this`opening
      ensures LifeView() == OpenNotStarted(old(LifeView()), which)
    {
      if opening.pending == Some(which) && session.id == Some(which) {
        if state == Opening {
          state := Stopped;
        }
        session := NO_SESSION;
        opening := opening.(closeAfter := false);
      }
    }

    method CompletePendingOpen(which: nat)
      modifies this`opening
      ensures LifeView() == CompleteOpen(old(LifeView()), which)
    {
      if opening.pending == Some(which) {
        opening := opening.(pending := None);
      }
    }

    /** Success makes the session active, unless it was stopped or revoked meanwhile. */
    method OnOpenAnswered(which: nat, reply: OpenReply) returns (next: Then)
      requires reply.Opened? || reply.Refused?
      modifies this`state, this`session
      ensures (LifeView(), next) == OnOpenResult(old(LifeView()), which, reply)
    {
      if opening.pending != Some(which) || session.id != Some(which) {
        return ThenNothing;
      }
      if reply.generation <= 0 {
        return ThenFail;
      }
      session := session.(generation := reply.generation);
      if reply.Refused? {
        return ThenFail;
      }
      if opening.closeAfter || state != Opening {
        return ThenClose(reply.generation);
      }
      state := Active;
      next := ThenNothing;
    }

    // ---- Closing ----------------------------------------------------------------------------------------

    /** Nothing happens for an identity that is no longer current; otherwise the work is discarded and at
        most one close is under way. */
    method BeginCloseSession(expected: Option<Identity>) returns (call: CloseCall)
      requires Valid()
      modifies Repr()
      ensures Valid() && LifeView() == BeginClose(old(LifeView()), expected)
      ensures call == old(CloseCallOf(LifeView(), expected))
      ensures WorkView() == if expected.Some? && !old(session).Is(expected.value) then old(WorkView())
                            else ClearPlans(cfg, ClearInflight(old(WorkView())))
    {
      if expected.Some? && !session.Is(expected.value) {
        return NoClose;
      }
      ClearWork();
      if session.id.None? {
        return NoClose;
      }
      if closing.inProgress {
        return Joined;
      }
      var who := Identity(session.id.value, session.generation);
      state := Closing;
      closing := CloseState(true, false, Some(who));
      call := Sent(who);
    }

    method FinishCloseSession(who: Identity, success: bool)
      modifies this`closing, this`opening, this`session
      ensures LifeView() == FinishClose(old(LifeView()), who, success)
    {
      if closing.identity != Some(who) {
        return;
      }
      closing := CloseState(false, success, closing.identity);
      opening := opening.(closeAfter := false);
      if success && session.id == Some(who.session) && (who.generation == 0 || session.generation == who.generation) {
        session := NO_SESSION;
      }
    }

    // ---- Operations under the lifecycle lock ----------------------------------------------------------------

    method BeginOperation(kind: OpKind) returns (begun: bool)
      modifies this`owner
      ensures LifeView() == BeginOp(old(LifeView()), kind)
      ensures begun == (old(owner) == Free)
    {
      if owner != Free {
        return false;
      }
      owner := Held(kind, true, Begun);
      begun := true;
    }

    /** `commanded`: whether the safety commands could be built and published. */
    method SafeStopOutput(commanded: bool)
      requires Valid() && At(LifeView(), Begun)
      modifies Repr()
      ensures Valid() && LifeView() == SafeStop(old(LifeView()), provider, commanded)
      ensures WorkView() == ClearPlans(cfg, ClearInflight(old(WorkView())))
                            .(lastAction := if provider || commanded then None else old(lastAction))
    {
      ClearWork();
      if provider {
        lastAction := None;
        state := Closing;
        owner := Held(owner.kind, true, Frozen);
        return;
      }
      if state != Stopped && state != Failed {
        state := Closing;
      }
      if commanded {
        lastAction := None;
      }
      owner := Held(owner.kind, commanded, Frozen);
    }

    method CloseSessionSync()
      requires Valid() && At(LifeView(), Frozen)
      modifies Repr()
      ensures Valid() && LifeView() == BeginCloseSync(old(LifeView()))
      ensures WorkView() == ClearPlans(cfg, ClearInflight(old(WorkView())))
    {
      ClearWork();
      if session.id.Some? && opening.pending == session.id && session.generation == 0 {
        opening := opening.(closeAfter := true);
        state := Closing;
        owner := owner.(stage := AwaitingOpen(session.id.value));
      } else {
        owner := owner.(stage := Ready);
      }
    }

    method CloseForOperation() returns (call: CloseCall)
      requires Valid() && At(LifeView(), Ready)
      modifies Repr()
      ensures Valid() && LifeView() == CloseForOp(old(LifeView()))
      ensures WorkView() == ClearPlans(cfg, ClearInflight(old(WorkView())))
      ensures call == old(CloseCallOf(LifeView(), None))
    {
      call := BeginCloseSession(None);
      owner := owner.(stage := if call.NoClose? then Drained(true) else AwaitingClose);
    }

    method AwaitOpen(timeout: bool)
      requires owner.Held? && owner.stage.AwaitingOpen?
      modifies this`owner
      ensures LifeView() == OpenAwaited(old(LifeView()), timeout)
    {
      if timeout {
        owner := owner.(stage := Drained(false));
      } else if opening.pending != Some(owner.stage.session) {
        owner := owner.(stage := Ready);
      }
    }

    method AwaitClose(timeout: bool)
      requires At(LifeView(), AwaitingClose)
      modifies this`owner
      ensures LifeView() == CloseAwaited(old(LifeView()), timeout)
    {
      if timeout {
        owner := owner.(stage := Drained(false));
      } else if !closing.inProgress {
        owner := owner.(stage := Drained(closing.success));
      }
    }

    method FinishOperation(released: bool) returns (ok: bool)
      requires Valid() && owner.Held? && owner.stage.Drained?
      modifies Repr()
      ensures Valid() && LifeView() == FinishOp(old(LifeView()), released)
      ensures WorkView() == if old(owner).kind == Restart
                            then ClearPlans(cfg, old(WorkView())).(received := {}, lastAction := None)
                            else old(WorkView())
      ensures ok ==> LifeView().state == if old(owner).kind == Fail then Failed else Stopped
    {
      if owner.kind == Restart {
        receivedResults := {};
        queuePlan.Clear();
        smoothedPlan.Clear();
        lastAction := None;
      }
      ok := owner.safeOk && released && owner.stage.closeOk;
      state := if ok && owner.kind != Fail then Stopped else Failed;
      owner := Free;
    }

    // ---- Revocation and failure -----------------------------------------------------------------------------

    method RuntimeRevoked()
      requires Valid()
      modifies Repr()
      ensures Valid() && LifeView() == Revoke(old(LifeView()))
      ensures WorkView() == ClearPlans(cfg, ClearInflight(old(WorkView()))).(lastAction := None)
    {
      ClearWork();
      lastAction := None;
      opening := opening.(closeAfter := true);
      state := if session.id.Some? then Failed else Stopped;
    }

    method ReportFailure(failure: Failure)
      modifies this`state, this`owner, this`mailbox
      ensures LifeView() == TryFailure(old(LifeView()), failure)
    {
      if !session.Is(failure.who) || (failure.request.Some? && state != Active) {
        return;
      }
      if owner != Free {
        mailbox := Some(failure);
        return;
      }
      if failure.request.Some? {
        state := Closing;
      }
      if state != Failed {
        owner := Held(Fail, true, Begun);
      }
    }

    method DrainPendingFailure()
      modifies this`state, this`owner, this`mailbox
      ensures LifeView() == if old(Spec.MailStands(Spec.Scheduled(LifeView(), WorkView())))
                            then DrainMailbox(old(LifeView())) else DropMail(old(LifeView()))
    {
      var failure := mailbox;
      mailbox := None;
      if failure.Some? && (failure.value.request.Some? ==> inflight.request == failure.value.request) {
        ReportFailure(failure.value);
      }
    }

    // ---- Requests, retries and results ----------------------------------------------------------------------

    method CurrentLength() returns (n: nat)
      requires Valid()
      ensures n == WorkView().Length()
    {
      if smoothingEnabled {
        n := smoothedPlan.Remaining();
      } else {
        n := queuePlan.Remaining();
      }
    }

    method RequestDispatch(id: nat, now: int, clock: int) returns (begun: bool)
      requires Valid()
      modifies this`inflight, this`planLengthAtStart
      ensures Valid() && WorkView() == StartRequest(cfg, state == Active, old(WorkView()), id, now, clock)
      ensures begun == MayStart(state == Active, old(WorkView()))
    {
      if state != Active || inflight.request.Some? {
        return false;
      }
      planLengthAtStart := CurrentLength();
      inflight := Inflight(Some(id), now + cfg.requestTimeout, clock);
      begun := true;
    }

    method RetryDispatch(replaced: nat, id: nat, now: int) returns (outcome: RetryOutcome)
      requires Valid()
      modifies this`inflight
      ensures Valid() && WorkView() == RetryRequest(state == Active, old(WorkView()), replaced, id, now)
      ensures outcome == RetryOutcomeOf(state == Active, old(WorkView()), replaced, now)
    {
      if state != Active {
        if inflight.request == Some(replaced) {
          inflight := NO_REQUEST;
        }
        return Abandoned;
      }
      if inflight.request != Some(replaced) {
        return Superseded;
      }
      if inflight.deadline <= now {
        return Expired;
      }
      inflight := inflight.(request := Some(id));
      outcome := Resent;
    }

    predicate IsCurrent(request: nat, who: Identity)
      reads this
    {
      state == Active && inflight.request == Some(request) && session.Is(who)
    }

    method FailCurrentRequest(request: nat, who: Identity)
      requires Valid()
      modifies this`state, this`owner, this`mailbox
      ensures Valid() && WorkView() == old(WorkView())
      ensures LifeView() == Spec.FailCurrent(Spec.Scheduled(old(LifeView()), old(WorkView())), request, who).life
    {
      if !IsCurrent(request, who) {
        return;
      }
      ReportFailure(Failure(Some(request), who));
    }

    /** A predicted chunk of the current request enters the store in use, once; anything else that comes
        back for the current request fails it. */
    method EnqueueChunk(request: nat, who: Identity, actions: Chunk, reportedSize: int, horizon: int)
      requires Valid()
      modifies Repr()
      ensures Valid()
      ensures var s := Spec.Scheduled(old(LifeView()), old(WorkView()));
              var sent := Spec.Send(0, 0, 0, who);
              Spec.Scheduled(LifeView(), WorkView())
              == Spec.Answer(cfg, s, request, sent, Spec.Predicted(actions, reportedSize, horizon))
    {
      var key := Key(who, request);
      if !IsCurrent(request, who) || key in receivedResults {
        return;
      }
      var length := CurrentLength();
      var valid := ValidChunk(cfg, actions, reportedSize);
      if !valid {
        FailCurrentRequest(request, who);
        return;
      }
      var checked := ValidateExecutionHorizon(Some(horizon), |actions.rows|);
      if checked.Err? {
        FailCurrentRequest(request, who);
        return;
      }
      var candidate := PlanChunk(cfg.planner, actions, Max(0, planLengthAtStart - length), checked.value);
      if candidate.Err? {
        FailCurrentRequest(request, who);
        return;
      }
      InstallCandidate(key, candidate.value);
    }

    method InstallCandidate(key: Key, candidate: ChunkPlan)
      requires Valid()
      modifies Repr()
      ensures Valid()
      ensures var w := old(WorkView());
              var accepted := Plans.Accept(if w.smoothing then cfg.smoother else cfg.queue, w.ActivePlan(), candidate,
                                           SourceOf(key), Some(cfg.dimension));
              && (accepted.Ok? ==> WorkView() == Enqueue(w, key, accepted.value) && LifeView() == old(LifeView()))
              && (accepted.Err? ==>
                    && WorkView() == w
                    && LifeView() == Spec.FailCurrent(Spec.Scheduled(old(LifeView()), w), key.request, key.who).life)
    {
      var accepted: Result<Plan, PlanError>;
      if smoothingEnabled {
        accepted := smoothedPlan.Accept(candidate, SourceOf(key), Some(cfg.dimension));
      } else {
        accepted := queuePlan.Accept(candidate, SourceOf(key), Some(cfg.dimension));
      }
      if accepted.Err? {
        FailCurrentRequest(key.request, key.who);
        return;
      }
      receivedResults := receivedResults + {key};
      inflight := NO_REQUEST;
    }

    // ---- Ticks and toggles ------------------------------------------------------------------------------------

    method ExecuteNextAction() returns (taken: Taken)
      requires Valid()
      modifies this`lastAction, queuePlan.Repr(), smoothedPlan.Repr()
      ensures Valid() && LifeView() == old(LifeView())
      ensures WorkView() == ExecuteNext(state == Active, old(WorkView()))
      ensures taken == if state == Active then Take(old(WorkView()).ActivePlan(), old(lastAction)) else Nothing
    {
      if state != Active {
        return Nothing;
      }
      if smoothingEnabled {
        taken := smoothedPlan.TakeAction(lastAction);
      } else {
        taken := queuePlan.TakeAction(lastAction);
      }
      if !taken.Nothing? {
        lastAction := Some(taken.action);
      }
    }

    method ToggleSmoothing()
      requires Valid()
      modifies this`smoothingEnabled, this`planLengthAtStart, smoothedPlan.Repr()
      ensures Valid() && LifeView() == old(LifeView())
      ensures WorkView() == Toggle(cfg, old(WorkView()))
    {
      var oldLength := CurrentLength();
      smoothingEnabled := !smoothingEnabled;
      smoothedPlan.SetSmoothingEnabled(smoothingEnabled);
      if !smoothingEnabled {
        smoothedPlan.Clear();
      }
      if inflight.request.Some? {
        var newLength := CurrentLength();
        planLengthAtStart := planLengthAtStart + newLength - oldLength;
      }
    }
  }
}
