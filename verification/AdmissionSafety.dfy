/** The guarantees of the admission protocol, over every run. */
module AdmissionSafety {
  import opened Prelude
  import opened Admission
  import opened AdmissionRuns
  import opened AdmissionHistory

  lemma {:induction false} Reachable(ws: seq<World>, es: seq<Event>, i: nat)
    requires IsRun(ws, es) && i < |ws|
    ensures Inv(ws[i]) && Ledger(ws[i].c)
  {
    if i > 0 {
      Reachable(ws, es, i - 1);
      NextKeeps(ws[i - 1], es[i - 1]);
      NextLedger(ws[i - 1], es[i - 1]);
    }
  }

  /** The runtime holds our mode by our doing, or may still come to. */
  ghost predicate MayHoldOurMode(w: World) {
    w.rt.oursByUs || exists k: nat :: Undecided(w, k)
  }

  /** No stranded mode: whatever the client may have put into the runtime, it still has in hand. */
  lemma NoStrandedMode(ws: seq<World>, es: seq<Event>, i: nat)
    requires IsRun(ws, es) && i < |ws|
    ensures MayHoldOurMode(ws[i]) ==> InHand(ws[i].c)
  {
    Reachable(ws, es, i);
  }

  /** When the last idle transition is confirmed and nothing is under way, our mode is gone for good. */
  lemma ConfirmedIdleIsGone(ws: seq<World>, es: seq<Event>, i: nat)
    requires IsRun(ws, es) && i < |ws|
    requires var c := ws[i].c; c.rollback.idleConfirmed && !c.rollback.running && !c.attempt.switchRequested
    ensures !MayHoldOurMode(ws[i])
  {
    NoStrandedMode(ws, es, i);
    Reachable(ws, es, i);
  }

  /** A release that answers true at once leaves none of our mode behind. */
  lemma ReleaseReturnsOnlyWhenGone(ws: seq<World>, es: seq<Event>, i: nat)
    requires IsRun(ws, es) && i < |es| && es[i].CallRelease?
    requires BeginRelease(ws[i].c, es[i].env).1 == Returned(true)
    ensures !MayHoldOurMode(ws[i + 1])
  {
    Reachable(ws, es, i);
    Reachable(ws, es, i + 1);
    FinishGeneration(ws[i].c, false, false, es[i].env);
    assert !ws[i + 1].c.attempt.switchRequested by {
      ReleaseEndsAttempts(ws[i].c, es[i].env);
    }
    ConfirmedIdleIsGone(ws, es, i + 1);
  }

  lemma ReleaseEndsAttempts(c: Client, env: Env)
    requires Exclusive(c)
    ensures !BeginRelease(c, env).0.attempt.switchRequested
  {
    var canceled := Cancel(c, false, env);
    assert !canceled.attempt.switchRequested;
    if canceled.owned && !env.ready {
      assert !Finish(Leave(canceled), false, true, env).attempt.switchRequested;
    }
  }

  /** A release that hands an owned mode back completes with success only once the mode is gone. */
  lemma ReleaseSucceedsOnlyWhenGone(ws: seq<World>, es: seq<Event>, i: nat)
    requires IsRun(ws, es) && i < |es|
    requires ws[i].c.attempt.completion == Release && ws[i + 1].c.attempt.completion != Release
    requires ws[i + 1].c.rollback.idleConfirmed
    ensures !MayHoldOurMode(ws[i + 1])
  {
    Reachable(ws, es, i);
    Reachable(ws, es, i + 1);
    ReleaseStep(ws[i], es[i]);
    ConfirmedIdleIsGone(ws, es, i + 1);
  }

  /** Only a delivered reply can turn a pending release into a confirmed one. */
  lemma ReleaseStep(w: World, e: Event)
    requires Inv(w) && Enabled(w, e) && w.c.attempt.completion == Release
    requires Next(w, e).c.rollback.idleConfirmed
    ensures !Next(w, e).c.rollback.running && !Next(w, e).c.attempt.switchRequested
  {
  }

  // ---- Attempts ------------------------------------------------------------------------------------

  /** Attempts never overlap, and each acquire completes exactly once by the time nothing is pending. */
  lemma AttemptsNeverOverlap(ws: seq<World>, es: seq<Event>, i: nat)
    requires IsRun(ws, es) && i < |ws|
    ensures var c := ws[i].c;
            && (c.rollback.running || c.rollback.unresolved.Some? ==> !c.attempt.pending && !c.owned)
            && (c.attempt.pending <==> c.attempt.completion != Nobody)
            && (forall id: nat | id < c.issued :: Answers(c.fired, id) <= 1)
            && (forall id: nat | id >= c.issued :: Answers(c.fired, id) == 0)
            && (!c.attempt.pending ==> forall id: nat | id < c.issued :: Answers(c.fired, id) == 1)
  {
    Reachable(ws, es, i);
  }

  /** Every request to go idle directly follows, under the same generation or rollback token, a
      status reply from the bound runtime that reports our mode and no stop latch; every request
      for our mode directly follows an admissible idle reply of the same generation. */
  lemma ModesAreCheckedThenSet(ws: seq<World>, es: seq<Event>, i: nat, k: nat)
    requires IsRun(ws, es) && i < |ws| && IsRequest(ws[i].c, k) && !Reads(ws[i].c.log[k].role)
    ensures var log := ws[i].c.log;
            k > 0 && log[k - 1].Got? && log[k - 1].request < k - 1 && log[log[k - 1].request].Sent?
            && var asked, s := log[log[k - 1].request].role, log[k - 1].status;
            match log[k].role
            case Switched(gen) => asked.Checked? && asked.gen == gen && Admissible(s) && s.mode == Idle
            case ReleaseIdled(gen) => asked == ReleaseChecked(gen) && s.bound && s.mode == Ours && !s.latched
            case RollbackMode(token) => asked == RollbackStatus(token) && s.bound && s.mode == Ours && !s.latched
            case _ => false
  {
    Reachable(ws, es, i);
    assert Justified(ws[i].c.log, k);
  }

  /** A callback of an older generation or token sends nothing and changes nothing, except that the late
      answer to an unresolved switch clears it and, if nothing is active, starts a clean-up rollback. */
  lemma StaleCallbacksAreInert(ws: seq<World>, es: seq<Event>, i: nat)
    requires IsRun(ws, es) && i < |es|
    ensures var c, d := ws[i].c, ws[i + 1].c;
            match es[i]
            case Deliver(k, _, _, _) => c.log[k].role.gen != c.generation ==> d == c
            case DeliverRollback(k, _, _) => c.log[k].role.token != c.rollback.token ==> d == c
            case AttemptTimeout(gen, _) => gen != c.generation ==> d == c
            case RollbackTimeout(token) => token != c.rollback.token ==> d == c
            case AnswerSwitch(k, env) =>
              c.rollback.answerToken[k] != c.rollback.token ==>
                && c.rollback.unresolved == Some(k) && !c.rollback.running && !c.attempt.pending && !c.owned
                && d == BeginRollback(ClearAnswered(c, k), env)
            case _ => true
  {
    Reachable(ws, es, i);
  }

  // ---- Ownership -------------------------------------------------------------------------------------

  lemma ObserveGainsNothing(c: Client, s: Status, env: Env)
    ensures Observe(c, s, env).owned ==> c.owned
    ensures c.owned && !Observe(c, s, env).owned ==> Observe(c, s, env).revocations > c.revocations
    ensures Observe(c, s, env).revocations >= c.revocations
  {
    var seen := c.(status := Some(s));
    var judged := seen;
    if c.owned && (!Admissible(s) || s.mode != Ours) {
      FinishLosesOwnership(Disarm(seen.(owned := false)), false, true, env);
      judged := Revoked(Finish(Disarm(seen.(owned := false)), false, true, env));
    } else if Invalidates(c, s) {
      FinishLosesOwnership(seen, false, true, env);
      judged := Revoked(Finish(seen, false, true, env));
    }
    AcquireGainsNothing(judged, true, false, env);
  }

  lemma FinishLosesOwnership(c: Client, success: bool, rollback: bool, env: Env)
    ensures var d := Finish(c, success, rollback, env);
            d.owned == (c.owned && success)
            && d.revocations == c.revocations + (if c.owned && !success then 1 else 0)
  {
    var d := Close(c, success);
    assert d.owned == (c.owned && success)
           && d.revocations == c.revocations + (if c.owned && !success then 1 else 0);
  }

  lemma AcquireGainsNothing(c: Client, auto: bool, own: bool, env: Env)
    ensures var d := Acquire(c, auto, own, env);
            && (d.owned ==> c.owned) && d.revocations >= c.revocations
            && (c.owned && !d.owned ==> d.revocations > c.revocations)
  {
    FinishLosesOwnership(Begun(c, auto), false, true, env);
  }

  lemma DoneOwnership(c: Client, k: nat, role: Role, reply: Reply, late: bool, env: Env)
    requires !IsRollback(role)
    ensures var d := Done(c, k, role, reply, late, env);
            && (!c.owned && d.owned ==> role == Switched(c.generation) && reply == Response(true) && !late)
            && (c.owned && !d.owned ==> d.revocations > c.revocations)
  {
    var taken := c.(attempt := c.attempt.(rpc := None));
    FinishLosesOwnership(taken, false, true, env);
    if role.gen == c.generation && !late && reply.Response? {
      FinishLosesOwnership(taken, reply.success, true, env);
      var owner := taken.(owned := true, rollback := c.rollback.(idleConfirmed := false));
      FinishLosesOwnership(owner, false, true, env);
    } else if role.gen == c.generation && !late && reply.Read? && Reads(role) {
      var heard := taken.(log := taken.log + [Got(k, reply.status)]);
      ReadOwnership(heard, role, reply.status, env);
    }
  }

  lemma ReadOwnership(c: Client, role: Role, s: Status, env: Env)
    requires Reads(role) && !IsRollback(role)
    ensures var d := (match role
                      case Checked(gen, own) => CheckedReply(c, gen, own, s, env)
                      case Verified(gen) => VerifiedReply(c, gen, s, env)
                      case ReleaseChecked(gen) => ReleaseCheckedReply(c, gen, s, env)
                      case _ => c);
            && (d.owned ==> c.owned) && (c.owned && !d.owned ==> d.revocations > c.revocations)
  {
    ObserveGainsNothing(c, s, env);
    var observed := Observe(c, s, env);
    FinishLosesOwnership(observed, false, true, env);
    FinishLosesOwnership(observed, true, true, env);
    FinishLosesOwnership(observed.(attempt := observed.attempt.(switchRequested := true)), false, true, env);
    FinishLosesOwnership(c, false, true, env);
    FinishLosesOwnership(c, true, true, env);
  }

  lemma ReleaseGainsNothing(c: Client, env: Env)
    ensures BeginRelease(c, env).0.owned ==> c.owned
  {
    FinishLosesOwnership(c, false, false, env);
    FinishLosesOwnership(Leave(Cancel(c, false, env)), false, true, env);
  }

  lemma StepOwnership(w: World, e: Event)
    requires Inv(w) && Enabled(w, e)
    ensures !w.c.owned && Next(w, e).c.owned ==>
              && e.Deliver? && w.c.log[e.request].role == Switched(w.c.generation) && !e.late
              && ReplyOf(w, e.request, e.usable) == Response(true)
    ensures w.c.owned && !Next(w, e).c.owned ==> e.CallRelease? || Next(w, e).c.revocations > w.c.revocations
  {
    match e
    case CallAcquire(own, env) => AcquireGainsNothing(w.c, false, own, env);
    case CallRelease(env) => ReleaseGainsNothing(w.c, env);
    case Notify(s, env) => ObserveGainsNothing(w.c, s, env);
    case CallCancel(env) => FinishLosesOwnership(w.c, false, true, env);
    case AttemptTimeout(_, env) => FinishLosesOwnership(w.c, false, true, env);
    case FreshnessCheck(_, env) => FinishLosesOwnership(w.c, false, true, env);
    case Deliver(k, usable, late, env) =>
      DoneOwnership(w.c, k, w.c.log[k].role, ReplyOf(w, k, usable), late, env);
    case _ =>
  }

  /** A revoked producer never resumes itself: the mode is only ever owned through the successful switch
      of the attempt in progress, and whoever loses it other than by its own release is told. */
  lemma OwnershipIsEarnedAndLossIsAnnounced(ws: seq<World>, es: seq<Event>, i: nat)
    requires IsRun(ws, es) && i < |es|
    ensures !ws[i].c.owned && ws[i + 1].c.owned ==>
              && es[i].Deliver? && ws[i].c.log[es[i].request].role == Switched(ws[i].c.generation) && !es[i].late
              && es[i].request in ws[i].rt.decided && ws[i].rt.decided[es[i].request]
    ensures ws[i].c.owned && !ws[i + 1].c.owned ==>
              es[i].CallRelease? || ws[i + 1].c.revocations > ws[i].c.revocations
  {
    Reachable(ws, es, i);
    StepOwnership(ws[i], es[i]);
  }
}
