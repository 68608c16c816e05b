/**
 The admission client as the object whose state its callbacks update in place, grouped as the
 attempt, the rollback and the auto start. Every method is one critical section, or a part of one,
 and is proved to do exactly what the protocol's step does.
 */
module PolicyAdmissionClient {
  import opened Prelude
  import opened Admission

  class PolicyAdmission {
    var owned: bool
    var generation: nat
    var status: Option<Status>
    var attempt: Attempt
    var rollback: Rollback
    var auto: AutoStarter
    var log: seq<Entry>
    var issued: nat
    ghost var fired: multiset<Answer>
    ghost var revocations: nat

    ghost function View(): Client
      reads this
    {
      Client(owned, generation, status, attempt, rollback, auto, log, issued, fired, revocations)
    }

    constructor ()
      ensures View() == INITIAL
    {
      owned, generation, status := false, 0, None;
      attempt := NO_ATTEMPT;
      rollback := Rollback(false, 0, true, None, None, map[]);
      auto := AutoStarter(false, 0);
      log, issued := [], 0;
      fired, revocations := multiset{}, 0;
    }

    // ---- Idle rollback ---------------------------------------------------------------------------

    method RollbackFinished(token: nat, succeeded: bool)
      modifies this`rollback
      ensures View() == Admission.RollbackFinished(old(View()), token, succeeded)
    {
      if token == rollback.token && rollback.running {
        rollback := rollback.(token := token + 1, running := false, idleConfirmed := succeeded);
      }
    }

    method RollbackQuery(token: nat, env: Env)
      modifies this`rollback, this`log
      ensures View() == Admission.RollbackQuery(old(View()), token, env)
    {
      if token != rollback.token {
        return;
      }
      if env.queryOk {
        log := log + [Sent(RollbackStatus(token))];
      } else {
        RollbackFinished(token, false);
      }
    }

    method BeginIdleRollback(env: Env)
      modifies this`rollback, this`log
      ensures View() == BeginRollback(old(View()), env)
    {
      if rollback.running {
        return;
      }
      var inflight := rollback.inflight;
      rollback := rollback.(running := true, token := rollback.token + 1, inflight := None);
      if inflight.Some? && !env.switchDone {
        rollback := rollback.(unresolved := inflight,
                              answerToken := rollback.answerToken[inflight.value := rollback.token]);
      } else {
        RollbackQuery(rollback.token, env);
      }
    }

    method SwitchAnswered(request: nat, env: Env)
      modifies this`rollback, this`log
      ensures View() == Admission.SwitchAnswered(old(View()), request, env)
    {
      if request !in rollback.answerToken {
        return;
      }
      var token := rollback.answerToken[request];
      rollback := rollback.(answerToken := rollback.answerToken - {request});
      if rollback.unresolved == Some(request) {
        rollback := rollback.(unresolved := None);
      }
      assert View() == ClearAnswered(old(View()), request);
      if token == rollback.token {
        RollbackQuery(token, env);
      } else if !(attempt.pending || owned || rollback.running) {
        BeginIdleRollback(env);
      }
    }

    method RollbackStatusDone(request: nat, token: nat, reply: Option<Status>, env: Env)
      modifies this`rollback, this`log
      ensures View() == Admission.RollbackStatusDone(old(View()), request, token, reply, env)
    {
      if token != rollback.token {
        return;
      }
      if reply.None? {
        RollbackFinished(token, false);
        return;
      }
      log := log + [Got(request, reply.value)];
      if !reply.value.bound {
        RollbackFinished(token, false);
      } else if reply.value.mode != Ours {
        RollbackFinished(token, true);
      } else if reply.value.latched || !env.queryOk {
        RollbackFinished(token, false);
      } else {
        log := log + [Sent(RollbackMode(token))];
      }
    }

    method RollbackModeDone(token: nat, reply: Option<bool>)
      modifies this`rollback
      ensures View() == Admission.RollbackModeDone(old(View()), token, reply)
    {
      if token != rollback.token {
        return;
      }
      if reply.None? || !reply.value {
        RollbackFinished(token, false);
      } else {
        RollbackFinished(token, true);
      }
    }

    // ---- Admission attempts ----------------------------------------------------------------------

    method RunCompletion(callback: Completion, success: bool)
      modifies this`fired, this`auto, this`rollback
      ensures View() == Complete(old(View()), callback, success)
    {
      match callback {
        case Nobody =>
        case Caller(id) =>
          fired := fired + multiset{Answer(id, success)};
        case AutoStart(id) =>
          fired := fired + multiset{Answer(id, success)};
          auto := AutoStartDone(auto, success);
        case Release =>
          rollback := rollback.(idleConfirmed := success);
      }
    }

    /** End the attempt, keeping an unanswered request for our mode, and run its completion. */
    method CloseAttempt(success: bool)
      modifies this
      ensures View() == Close(old(View()), success)
    {
      var callback := attempt.completion;
      EndAttempt(success);
      if !success && owned {
        owned := false;
        revocations := revocations + 1;
      }
      RunCompletion(callback, success);
    }

    method EndAttempt(success: bool)
      modifies this`attempt, this`rollback, this`generation
      ensures View() == End(old(View()), success)
    {
      if SwitchInFlight(success) {
        rollback := rollback.(inflight := attempt.rpc);
      }
      attempt := attempt.(completion := Nobody, pending := false, switchRequested := false, rpc := None);
      generation := generation + 1;
    }

    method Finish(success: bool, rollBack: bool, env: Env)
      modifies this
      ensures View() == Admission.Finish(old(View()), success, rollBack, env)
    {
      var needsRollback := rollBack && NeedsRollback(success);
      CloseAttempt(success);
      if needsRollback {
        BeginIdleRollback(env);
      }
    }

    predicate NeedsRollback(success: bool)
      reads this
    {
      !success && attempt.pending && !attempt.releasing && (owned || attempt.switchRequested)
    }

    /** A failing attempt has an unanswered request for our mode. */
    predicate SwitchInFlight(success: bool)
      reads this
    {
      !success && attempt.pending && !attempt.releasing && attempt.switchRequested
      && attempt.rpc.Some? && attempt.rpc.value < |log| && log[attempt.rpc.value].Sent?
      && !Reads(log[attempt.rpc.value].role)
    }

    method Call(role: Role, gen: nat, env: Env)
      modifies this
      ensures View() == Admission.Call(old(View()), role, gen, env)
    {
      if gen != generation {
        return;
      }
      if env.ready {
        attempt := attempt.(rpc := Some(|log|));
        log := log + [Sent(role)];
      } else {
        Finish(false, true, env);
      }
    }

    method Acquire(automatic: bool, ownActiveSession: bool, env: Env)
      modifies this
      ensures View() == Admission.Acquire(old(View()), automatic, ownActiveSession, env)
    {
      if rollback.running || attempt.pending || rollback.unresolved.Some? {
        RefuseAcquire(automatic);
        return;
      }
      BeginAttempt(automatic);
      Call(Checked(generation, owned && ownActiveSession), generation, env);
    }

    method RefuseAcquire(automatic: bool)
      modifies this
      ensures View() == Refused(old(View()), automatic)
    {
      var callback := if automatic then AutoStart(issued) else Caller(issued);
      issued := issued + 1;
      RunCompletion(callback, false);
    }

    method BeginAttempt(automatic: bool)
      modifies this`attempt, this`status, this`issued
      ensures View() == Begun(old(View()), automatic)
    {
      var callback := if automatic then AutoStart(issued) else Caller(issued);
      issued := issued + 1;
      attempt := attempt.(pending := true, releasing := false, switchRequested := false, completion := callback);
      status := None;
    }

    method AutoStartObserve(current: Status, env: Env)
      modifies this
      ensures View() == Admission.AutoStartObserve(old(View()), current, env)
    {
      if !auto.armed {
        return;
      }
      if current.latched || (!attempt.pending && !owned && current.mode == Other) {
        auto := auto.(armed := false);
        return;
      }
      if Admissible(current) && current.mode == Idle && !attempt.pending && !owned && !rollback.running
         && rollback.unresolved.None? && env.intervalElapsed {
        Acquire(true, false, env);
      }
    }

    method FinishRevoked(env: Env)
      modifies this
      ensures View() == Revoked(Admission.Finish(old(View()), false, true, env))
    {
      Finish(false, true, env);
      revocations := revocations + 1;
    }

    method Observe(current: Status, env: Env)
      modifies this
      ensures View() == Admission.Observe(old(View()), current, env)
    {
      ghost var before := View();
      var previous := status;
      status := Some(current);
      if owned && (!Admissible(current) || current.mode != Ours) {
        owned := false;
        auto := auto.(armed := false);
        FinishRevoked(env);
      } else if attempt.pending
                && (|| !Admissible(current)
                    || current.mode == Other
                    || (!attempt.releasing && current.mode == Idle
                        && previous.Some? && previous.value.mode == Ours)) {
        assert Invalidates(before, current);
        FinishRevoked(env);
      }
      AutoStartObserve(current, env);
    }

    method CheckedReply(attemptGeneration: nat, ownSession: bool, current: Status, env: Env)
      modifies this
      ensures View() == Admission.CheckedReply(old(View()), attemptGeneration, ownSession, current, env)
    {
      Observe(current, env);
      if attemptGeneration != generation {
        return;
      }
      if !Admissible(current) {
        Finish(false, true, env);
      } else if ownSession && owned && current.mode == Ours {
        Finish(true, true, env);
      } else if current.mode != Idle {
        Finish(false, true, env);
      } else {
        attempt := attempt.(switchRequested := true);
        Call(Switched(attemptGeneration), attemptGeneration, env);
      }
    }

    method SwitchedReply(attemptGeneration: nat, success: bool, env: Env)
      modifies this
      ensures View() == Admission.SwitchedReply(old(View()), attemptGeneration, success, env)
    {
      if !success {
        Finish(false, true, env);
        return;
      }
      owned := true;
      rollback := rollback.(idleConfirmed := false);
      Call(Verified(attemptGeneration), attemptGeneration, env);
    }

    method VerifiedReply(attemptGeneration: nat, current: Status, env: Env)
      modifies this
      ensures View() == Admission.VerifiedReply(old(View()), attemptGeneration, current, env)
    {
      Observe(current, env);
      if attemptGeneration == generation {
        Finish(true, true, env);
      }
    }

    method ReleaseCheckedReply(attemptGeneration: nat, current: Status, env: Env)
      modifies this
      ensures View() == Admission.ReleaseCheckedReply(old(View()), attemptGeneration, current, env)
    {
      if !current.bound {
        Finish(false, true, env);
      } else if current.mode != Ours {
        Finish(true, true, env);
      } else if current.latched {
        Finish(false, true, env);
      } else {
        Call(ReleaseIdled(attemptGeneration), attemptGeneration, env);
      }
    }

    method Done(request: nat, role: Role, reply: Reply, late: bool, env: Env)
      requires !IsRollback(role)
      modifies this
      ensures View() == Admission.Done(old(View()), request, role, reply, late, env)
    {
      if role.gen != generation {
        return;
      }
      attempt := attempt.(rpc := None);
      if late || reply.Unusable? {
        Finish(false, true, env);
        return;
      }
      if reply.Response? {
        if role.Switched? {
          SwitchedReply(role.gen, reply.success, env);
        } else {
          Finish(role.ReleaseIdled? && reply.success, true, env);
        }
      } else if role.Checked? || role.Verified? || role.ReleaseChecked? {
        log := log + [Got(request, reply.status)];
        if role.Checked? {
          CheckedReply(role.gen, role.ownSession, reply.status, env);
        } else if role.Verified? {
          VerifiedReply(role.gen, reply.status, env);
        } else {
          ReleaseCheckedReply(role.gen, reply.status, env);
        }
      } else {
        Finish(false, true, env);
      }
    }

    method Cancel(rollBack: bool, env: Env)
      modifies this
      ensures View() == Admission.Cancel(old(View()), rollBack, env)
    {
      if attempt.pending {
        Finish(false, rollBack, env);
      } else {
        generation := generation + 1;
      }
    }

    method Timeout(attemptGeneration: nat, env: Env)
      modifies this
      ensures View() == Admission.Timeout(old(View()), attemptGeneration, env)
    {
      if attempt.pending && generation == attemptGeneration {
        Finish(false, true, env);
      }
    }

    method CheckFreshness(expired: bool, env: Env)
      modifies this
      ensures View() == Admission.CheckFreshness(old(View()), expired, env)
    {
      if owned && expired {
        Finish(false, true, env);
      }
    }

    method Release(env: Env) returns (outcome: ReleaseOutcome)
      modifies this
      ensures (View(), outcome) == BeginRelease(old(View()), env)
    {
      var switchInFlight := attempt.pending && attempt.switchRequested;
      Cancel(false, env);
      if owned {
        owned := false;
        attempt := attempt.(pending := true, releasing := true, completion := Completion.Release);
        Call(ReleaseChecked(generation), generation, env);
        return AwaitIdle;
      }
      if rollback.unresolved.Some? {
        return Returned(false);
      }
      if switchInFlight || !rollback.idleConfirmed {
        BeginIdleRollback(env);
      }
      return if rollback.running then AwaitRollback else Returned(rollback.idleConfirmed);
    }
  }
}
