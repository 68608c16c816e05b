/**
 The ways back to idle: when a failed attempt starts a rollback, what a release does, and what each reply
 on the way back leads to.
 */
module AdmissionReturns {
  import opened Prelude
  import opened Admission
  import opened AdmissionRuns
  import opened AdmissionHistory
  import opened AdmissionSafety
  import opened AdmissionVerdicts

  /** The attempt's own request for our mode is out, and the client does not know that it was decided. */
  predicate AwaitsSwitch(c: Client, env: Env) {
    c.attempt.rpc.Some? && IsRequest(c, c.attempt.rpc.value) && c.log[c.attempt.rpc.value].role.Switched?
    && !env.switchDone
  }

  /** The newest request of the log asks the runtime for its status, for the rollback that runs. */
  predicate Returning(d: Client) {
    d.rollback.running && |d.log| > 0 && d.log[|d.log| - 1] == Sent(RollbackStatus(d.rollback.token))
  }

  /** A return to idle ended: nothing of it runs or is awaited. */
  predicate IsBack(d: Client, confirmed: bool) {
    !d.rollback.running && d.rollback.unresolved.None? && d.rollback.idleConfirmed == confirmed
  }

  /** A new return to idle has begun. It waits for `switch`, if that is still out, else it asks for the status
      at once, and where it cannot even ask it ends without confirmation. */
  predicate GoesBack(c: Client, d: Client, awaits: bool, env: Env) {
    && d.rollback.token > c.rollback.token
    && (if awaits then d.rollback.running && d.rollback.unresolved == c.attempt.rpc
        else if env.queryOk then Returning(d) && d.rollback.unresolved.None?
        else IsBack(d, false))
  }

  /** A release that answered at once. */
  function Answered(success: bool): ReleaseOutcome {
    ReleaseOutcome.Returned(success)
  }

  // ---- Failed attempts --------------------------------------------------------------------------------

  /** The attempt's outstanding request, if any, is one of its own. */
  predicate OwnRequest(c: Client) {
    c.attempt.rpc.Some? ==> IsRequest(c, c.attempt.rpc.value) && !IsRollback(c.log[c.attempt.rpc.value].role)
                            && !IsRelease(c.log[c.attempt.rpc.value].role)
  }

  lemma FinishGoesBack(c: Client, env: Env)
    requires Exclusive(c) && Acquiring(c) && c.attempt.switchRequested && c.rollback.inflight.None? && OwnRequest(c)
    ensures GoesBack(c, Finish(c, false, true, env), AwaitsSwitch(c, env), env)
  {
    var d := Close(c, false);
    assert d.rollback == c.rollback.(inflight := if KeepsSwitch(c, false) then c.attempt.rpc else None);
    assert KeepsSwitch(c, false) && !env.switchDone <==> AwaitsSwitch(c, env);
    assert NeedsRollback(c, false);
  }

  /** What an automatic start does afterwards leaves the return alone. */
  lemma AutoStartSparesReturn(c: Client, s: Status, env: Env)
    requires !c.owned && !c.attempt.pending && !c.attempt.switchRequested
    ensures var d := AutoStartObserve(c, s, env);
            d.rollback == c.rollback && (c.rollback.running ==> d.log == c.log)
  {
    var begun := Begun(c, true);
    assert Close(begun, false).rollback == c.rollback;
  }

  lemma RevokedGoesBack(c: Client, lost: Client, s: Status, env: Env)
    requires Exclusive(lost) && Acquiring(lost) && lost.attempt.switchRequested && lost.rollback.inflight.None?
    requires OwnRequest(lost) && lost.attempt == c.attempt && lost.log == c.log && lost.rollback == c.rollback
    ensures GoesBack(c, AutoStartObserve(Revoked(Finish(lost, false, true, env)), s, env), AwaitsSwitch(c, env), env)
  {
    FinishGoesBack(lost, env);
    FailureTells(lost, env);
    var judged := Revoked(Finish(lost, false, true, env));
    assert GoesBack(c, judged, AwaitsSwitch(c, env), env);
    assert !judged.attempt.switchRequested by {
      assert !Close(lost, false).attempt.switchRequested;
    }
    AutoStartSparesReturn(judged, s, env);
  }

  lemma ObserveGoesBack(c: Client, s: Status, env: Env)
    requires Exclusive(c) && Acquiring(c) && c.attempt.switchRequested && c.rollback.inflight.None? && OwnRequest(c)
    requires !Survives(c, s)
    ensures GoesBack(c, Observe(c, s, env), AwaitsSwitch(c, env), env)
  {
    var seen := c.(status := Some(s));
    if c.owned && (!Admissible(s) || s.mode != Ours) {
      RevokedGoesBack(c, Disarm(seen.(owned := false)), s, env);
    } else {
      RevokedGoesBack(c, seen, s, env);
    }
  }

  lemma OwnRequestHolds(w: World)
    requires Inv(w) && Acquiring(w.c)
    ensures OwnRequest(w.c)
  {
  }

  /** An acquire that has asked for our mode and then fails, however it fails, starts the return to idle: by
      itself, or when the switch it is still waiting for is answered. */
  lemma FailedAcquireGoesBack(ws: seq<World>, es: seq<Event>, i: nat)
    requires IsRun(ws, es) && i < |es| && Acquiring(ws[i].c) && ws[i].c.attempt.switchRequested
    requires es[i].CallCancel? || es[i].AttemptTimeout? || es[i].Notify? || es[i].Deliver?
    requires ws[i + 1].c.generation > ws[i].c.generation && !ws[i + 1].c.owned
    ensures GoesBack(ws[i].c, ws[i + 1].c, !es[i].Deliver? && AwaitsSwitch(ws[i].c, es[i].env), es[i].env)
  {
    Reachable(ws, es, i);
    OwnRequestHolds(ws[i]);
    if es[i].Deliver? {
      FailedReplyGoesBack(ws[i], es[i].request, es[i].usable, es[i].late, es[i].env);
    } else {
      FailedCallGoesBack(ws[i].c, ws[i], es[i]);
    }
  }

  lemma FailedCallGoesBack(c: Client, w: World, e: Event)
    requires Exclusive(c) && Acquiring(c) && c.attempt.switchRequested && c.rollback.inflight.None? && OwnRequest(c)
    requires w.c == c && Enabled(w, e) && (e.CallCancel? || e.AttemptTimeout? || e.Notify?)
    requires Next(w, e).c.generation > c.generation
    ensures GoesBack(c, Next(w, e).c, AwaitsSwitch(c, e.env), e.env)
  {
    if e.Notify? {
      FailedNoticeGoesBack(c, e.status, e.env);
    } else {
      FinishGoesBack(c, e.env);
    }
  }

  lemma FailedNoticeGoesBack(c: Client, s: Status, env: Env)
    requires Exclusive(c) && Acquiring(c) && c.attempt.switchRequested && c.rollback.inflight.None? && OwnRequest(c)
    requires Observe(c, s, env).generation > c.generation
    ensures GoesBack(c, Observe(c, s, env), AwaitsSwitch(c, env), env)
  {
    if Survives(c, s) {
      ObserveSurvived(c, s, env);
    } else {
      ObserveGoesBack(c, s, env);
    }
  }

  lemma FailedReplyGoesBack(w: World, k: nat, usable: bool, late: bool, env: Env)
    requires Inv(w) && Enabled(w, Deliver(k, usable, late, env)) && Acquiring(w.c) && w.c.attempt.switchRequested
    requires var d := Next(w, Deliver(k, usable, late, env)).c; d.generation > w.c.generation && !d.owned
    ensures GoesBack(w.c, Next(w, Deliver(k, usable, late, env)).c, false, env)
  {
    var role := w.c.log[k].role;
    var taken := w.c.(attempt := w.c.attempt.(rpc := None));
    if late || !usable {
      FinishGoesBack(taken, env);
    } else if Reads(role) {
      FailedReadGoesBack(TakenAndHeard(w, k), role, w.rt.served[k], env);
    } else {
      FailedSwitchGoesBack(taken, w.rt.decided[k], env);
    }
  }

  lemma FailedReadGoesBack(c: Client, role: Role, s: Status, env: Env)
    requires Exclusive(c) && Acquiring(c) && c.attempt.switchRequested && c.rollback.inflight.None? && c.attempt.rpc.None?
    requires (role.Checked? || role.Verified?) && role.gen == c.generation && (role.Verified? ==> c.owned)
    requires var d := if role.Checked? then CheckedReply(c, role.gen, role.ownSession, s, env)
                      else VerifiedReply(c, role.gen, s, env);
             d.generation > c.generation && !d.owned
    ensures var d := if role.Checked? then CheckedReply(c, role.gen, role.ownSession, s, env)
                     else VerifiedReply(c, role.gen, s, env);
            GoesBack(c, d, false, env)
  {
    if Survives(c, s) {
      ObserveSurvived(c, s, env);
      var observed := Observe(c, s, env);
      FinishGoesBack(observed, env);
      FinishGoesBack(observed.(attempt := observed.attempt.(switchRequested := true)), env);
    } else {
      ObserveGoesBack(c, s, env);
      ObserveRevokes(c, s, env);
    }
  }

  lemma FailedSwitchGoesBack(c: Client, success: bool, env: Env)
    requires Exclusive(c) && Acquiring(c) && c.attempt.switchRequested && c.rollback.inflight.None? && c.attempt.rpc.None?
    requires var d := SwitchedReply(c, c.generation, success, env); d.generation > c.generation && !d.owned
    ensures GoesBack(c, SwitchedReply(c, c.generation, success, env), false, env)
  {
    FinishGoesBack(c, env);
    FinishGoesBack(c.(owned := true, rollback := c.rollback.(idleConfirmed := false)), env);
  }

  // ---- Replies on the way back --------------------------------------------------------------------------

  /** The rollback's status decides: out of our mode is done, in it and unlatched is asked to go idle, and
      anything else ends unconfirmed. */
  lemma RollbackStatusVerdict(ws: seq<World>, es: seq<Event>, i: nat, k: nat, usable: bool, env: Env)
    requires IsRun(ws, es) && i < |es| && es[i] == DeliverRollback(k, usable, env)
    requires IsRequest(ws[i].c, k) && ws[i].c.log[k].role == RollbackStatus(ws[i].c.rollback.token)
    ensures var c, d := ws[i].c, ws[i + 1].c;
            if Heard(ws[i], k, usable, false) && ws[i].rt.served[k].bound && ws[i].rt.served[k].mode != Ours then
              IsBack(d, true)
            else if Heard(ws[i], k, usable, false) && ws[i].rt.served[k].bound && !ws[i].rt.served[k].latched
                    && env.queryOk then
              d.rollback == c.rollback && d.log == c.log + [Got(k, ws[i].rt.served[k]), Sent(RollbackMode(c.rollback.token))]
            else
              IsBack(d, false)
  {
    Reachable(ws, es, i);
  }

  /** The runtime's answer to the rollback's request for idle is its verdict; a rollback that runs out of time
      has none. */
  lemma RollbackModeVerdict(ws: seq<World>, es: seq<Event>, i: nat)
    requires IsRun(ws, es) && i < |es|
    ensures match es[i]
            case DeliverRollback(k, usable, env) =>
              ws[i].c.log[k].role == RollbackMode(ws[i].c.rollback.token) ==>
                k in ws[i].rt.decided && IsBack(ws[i + 1].c, usable && ws[i].rt.decided[k])
            case RollbackTimeout(token) =>
              token == ws[i].c.rollback.token && ws[i].c.rollback.running ==>
                !ws[i + 1].c.rollback.running && !ws[i + 1].c.rollback.idleConfirmed
            case _ => true
  {
    Reachable(ws, es, i);
  }

  /** The answer to the switch that a rollback waits for lets it ask for the status. */
  lemma AwaitedSwitchVerdict(ws: seq<World>, es: seq<Event>, i: nat)
    requires IsRun(ws, es) && i < |es| && es[i].AnswerSwitch?
    requires ws[i].c.rollback.answerToken[es[i].request] == ws[i].c.rollback.token
    ensures if es[i].env.queryOk then Returning(ws[i + 1].c) && ws[i + 1].c.rollback.unresolved.None?
            else IsBack(ws[i + 1].c, false)
  {
    Reachable(ws, es, i);
  }

  // ---- Releases -----------------------------------------------------------------------------------------

  /** A release that finds an owned mode and no attempt asks for the status and waits; where it cannot ask,
      it ends unconfirmed. */
  lemma OwnerReleases(ws: seq<World>, es: seq<Event>, i: nat)
    requires IsRun(ws, es) && i < |es| && es[i].CallRelease? && ws[i].c.owned && !ws[i].c.attempt.pending
    ensures BeginRelease(ws[i].c, es[i].env).1 == AwaitIdle && !ws[i + 1].c.owned
    ensures var d := ws[i + 1].c;
            if es[i].env.ready then d.attempt.completion == Release && Asks(d, ReleaseChecked(d.generation))
            else !d.attempt.pending && IsBack(d, false)
  {
    Reachable(ws, es, i);
  }

  /** A release in any other state first fails the attempt that is pending. Then it waits for the return to
      idle that runs, or for the one it starts because a switch was out or the last return is not confirmed;
      it answers at once where neither is the case, and without success while a switch is still unanswered. */
  lemma OthersRelease(ws: seq<World>, es: seq<Event>, i: nat)
    requires IsRun(ws, es) && i < |es| && es[i].CallRelease? && (ws[i].c.attempt.pending || !ws[i].c.owned)
    ensures var c, d, env, outcome := ws[i].c, ws[i + 1].c, es[i].env, BeginRelease(ws[i].c, es[i].env).1;
            && (Acquiring(c) ==> Failed(c, d)) && !d.owned && !d.attempt.pending
            && if c.rollback.running then
                 d.rollback == c.rollback && outcome == if c.rollback.unresolved.Some? then Answered(false) else AwaitRollback
               else if c.rollback.unresolved.Some? then
                 d.rollback == c.rollback && outcome == Answered(false)
               else if c.attempt.switchRequested || !c.rollback.idleConfirmed then
                 GoesBack(c, d, c.attempt.switchRequested && AwaitsSwitch(c, env), env)
                 && outcome == if d.rollback.running then AwaitRollback else Answered(false)
               else
                 d.rollback == c.rollback && outcome == Answered(true)
  {
    Reachable(ws, es, i);
    var c, env := ws[i].c, es[i].env;
    if Acquiring(c) {
      OwnRequestHolds(ws[i]);
      CanceledReleases(c, env);
    } else {
      IdleReleases(c, env);
    }
  }

  lemma IdleReleases(c: Client, env: Env)
    requires Exclusive(c) && !Acquiring(c) && c.rollback.inflight.None? && (c.attempt.pending || !c.owned)
    ensures var d, outcome := BeginRelease(c, env).0, BeginRelease(c, env).1;
            && !d.owned && !d.attempt.pending
            && if c.rollback.unresolved.Some? then
                 d.rollback == c.rollback && outcome == Answered(false)
               else if c.rollback.running then
                 d.rollback == c.rollback && outcome == AwaitRollback
               else if !c.rollback.idleConfirmed then
                 GoesBack(c, d, false, env)
                 && outcome == if d.rollback.running then AwaitRollback else Answered(false)
               else
                 d.rollback == c.rollback && outcome == Answered(true)
  {
    var canceled := Cancel(c, false, env);
    assert !canceled.owned && !canceled.attempt.pending && canceled.rollback == c.rollback;
  }

  lemma CanceledReleases(c: Client, env: Env)
    requires Exclusive(c) && Acquiring(c) && c.rollback.inflight.None? && OwnRequest(c)
    ensures var d, outcome := BeginRelease(c, env).0, BeginRelease(c, env).1;
            && Failed(c, d) && !d.owned && !d.attempt.pending
            && if c.attempt.switchRequested || !c.rollback.idleConfirmed then
                 GoesBack(c, d, c.attempt.switchRequested && AwaitsSwitch(c, env), env)
                 && outcome == if d.rollback.running then AwaitRollback else Answered(false)
               else
                 d.rollback == c.rollback && outcome == Answered(true)
  {
    var canceled := Close(c, false);
    assert canceled == Cancel(c, false, env);
    assert Failed(c, canceled) && !canceled.attempt.pending;
    assert canceled.rollback == c.rollback.(inflight := if KeepsSwitch(c, false) then c.attempt.rpc else None);
    assert KeepsSwitch(c, false) && !env.switchDone <==> c.attempt.switchRequested && AwaitsSwitch(c, env);
  }

  /** A release that times out or is canceled ends unconfirmed; without an attempt a cancel only makes what is still
      to come stale. */
  lemma LostReleaseIsUnconfirmed(ws: seq<World>, es: seq<Event>, i: nat)
    requires IsRun(ws, es) && i < |es|
    requires es[i].CallCancel? || (es[i].AttemptTimeout? && es[i].gen == ws[i].c.generation)
    requires !Acquiring(ws[i].c)
    ensures ws[i].c.attempt.pending ==>
              !ws[i + 1].c.owned && !ws[i + 1].c.attempt.pending && IsBack(ws[i + 1].c, false)
              && ws[i + 1].c.generation > ws[i].c.generation
    ensures !ws[i].c.attempt.pending ==>
              ws[i + 1].c == if es[i].CallCancel? then ws[i].c.(generation := ws[i].c.generation + 1) else ws[i].c
  {
    Reachable(ws, es, i);
  }

  /** The release's status decides: out of our mode is done, in it and unlatched is asked to go idle, and
      anything else ends the release unconfirmed. */
  lemma ReleaseCheckVerdict(ws: seq<World>, es: seq<Event>, i: nat, k: nat, usable: bool, late: bool, env: Env)
    requires IsRun(ws, es) && i < |es| && es[i] == Deliver(k, usable, late, env)
    requires IsRequest(ws[i].c, k) && ws[i].c.log[k].role == ReleaseChecked(ws[i].c.generation)
    ensures var c, d := ws[i].c, ws[i + 1].c;
            !d.owned &&
            if Heard(ws[i], k, usable, late) && ws[i].rt.served[k].bound && ws[i].rt.served[k].mode != Ours then
              !d.attempt.pending && IsBack(d, true)
            else if Heard(ws[i], k, usable, late) && ws[i].rt.served[k].bound && !ws[i].rt.served[k].latched
                    && env.ready then
              Proceeds(c, d, ReleaseIdled(c.generation))
            else
              !d.attempt.pending && IsBack(d, false)
  {
    Reachable(ws, es, i);
  }

  /** The runtime's answer to the release's request for idle is the release's own outcome. */
  lemma ReleaseIdleVerdict(ws: seq<World>, es: seq<Event>, i: nat, k: nat, usable: bool, late: bool, env: Env)
    requires IsRun(ws, es) && i < |es| && es[i] == Deliver(k, usable, late, env)
    requires IsRequest(ws[i].c, k) && ws[i].c.log[k].role == ReleaseIdled(ws[i].c.generation)
    ensures k in ws[i].rt.decided
    ensures var d := ws[i + 1].c;
            !d.owned && !d.attempt.pending && IsBack(d, usable && !late && ws[i].rt.decided[k])
  {
    Reachable(ws, es, i);
  }
}
