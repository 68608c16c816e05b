/**
 What each reply, call and timer of the admission protocol leads to: when an acquire goes on, succeeds or
 fails, when a release and a return to idle do, and what the caller is told in each case.
 */
module AdmissionVerdicts {
  import opened Prelude
  import opened Admission
  import opened AdmissionRuns
  import opened AdmissionHistory
  import opened AdmissionSafety

  /** The completion of an acquire, manual or automatic. */
  predicate Acquiring(c: Client) {
    c.attempt.pending && (c.attempt.completion.Caller? || c.attempt.completion.AutoStart?)
  }

  predicate Running(s: Status) {
    s.bound && s.healthy && !s.latched
  }

  predicate HoldsOurs(s: Status) {
    Running(s) && s.mode == Ours
  }

  /** The acquire has succeeded: the client owns the mode, the caller is told so and nobody anything else,
      nothing is pending, no loss is announced, and an automatic start is over. */
  predicate Succeeded(c: Client, d: Client)
    requires Acquiring(c)
  {
    && d.owned && !d.attempt.pending && !d.rollback.running
    && d.fired == c.fired + multiset{Answer(c.attempt.completion.id, true)} && d.revocations == c.revocations
    && (c.attempt.completion.AutoStart? ==> !d.auto.armed)
  }

  /** The acquire has failed: its caller is told so, the mode is not owned, and its replies are stale. */
  predicate Failed(c: Client, d: Client)
    requires Acquiring(c)
  {
    && !d.owned && d.fired[Answer(c.attempt.completion.id, false)] > c.fired[Answer(c.attempt.completion.id, false)]
    && d.generation > c.generation && (c.attempt.completion.AutoStart? ==> d.auto.attempts > c.auto.attempts)
  }

  /** The attempt goes on with this request, and nobody is told anything. */
  predicate Proceeds(c: Client, d: Client, role: Role) {
    && d.attempt.pending && d.attempt.completion == c.attempt.completion && Asks(d, role)
    && d.generation == c.generation && d.fired == c.fired && d.revocations == c.revocations
  }

  /** The newest request of the log is this one, and the attempt waits for it. */
  predicate Asks(d: Client, role: Role) {
    |d.log| > 0 && d.log[|d.log| - 1] == Sent(role) && d.attempt.rpc == Some(|d.log| - 1)
  }

  /** A status that was read in time. */
  predicate Heard(w: World, k: nat, usable: bool, late: bool) {
    usable && !late && k in w.rt.served
  }

  // ---- The three replies of an acquire --------------------------------------------------------------

  /** The first status decides: an owner whose session runs keeps the mode, a healthy idle runtime that was
      not heard in our mode meanwhile is asked for it, and anything else fails the acquire. */
  lemma CheckVerdict(ws: seq<World>, es: seq<Event>, i: nat, k: nat, usable: bool, late: bool, env: Env, own: bool)
    requires IsRun(ws, es) && i < |es| && es[i] == Deliver(k, usable, late, env)
    requires IsRequest(ws[i].c, k) && ws[i].c.log[k].role == Checked(ws[i].c.generation, own)
    ensures Acquiring(ws[i].c)
    ensures var c, d := ws[i].c, ws[i + 1].c;
            if Heard(ws[i], k, usable, late) && HoldsOurs(ws[i].rt.served[k]) && own && c.owned then
              Succeeded(c, d)
            else if Heard(ws[i], k, usable, late) && AsksForMode(c, ws[i].rt.served[k]) && env.ready then
              Proceeds(c, d, Switched(c.generation)) && !d.owned && d.attempt.switchRequested
            else
              Failed(c, d)
  {
    Reachable(ws, es, i);
    var w := ws[i];
    if usable && !late {
      CheckJudged(TakenAndHeard(w, k), own, w.rt.served[k], env);
    } else {
      FailureTells(w.c.(attempt := w.c.attempt.(rpc := None)), env);
    }
  }

  predicate AsksForMode(c: Client, s: Status) {
    Running(s) && s.mode == Idle && !c.owned && (c.status.Some? ==> c.status.value.mode != Ours)
  }

  function TakenAndHeard(w: World, k: nat): Client
    requires k in w.rt.served
  {
    w.c.(attempt := w.c.attempt.(rpc := None), log := w.c.log + [Got(k, w.rt.served[k])])
  }

  lemma CheckJudged(c: Client, own: bool, s: Status, env: Env)
    requires Exclusive(c) && c.attempt.pending && !c.attempt.releasing
    ensures var d := CheckedReply(c, c.generation, own, s, env);
            if HoldsOurs(s) && own && c.owned then Succeeded(c, d)
            else if AsksForMode(c, s) && env.ready then
              Proceeds(c, d, Switched(c.generation)) && !d.owned && d.attempt.switchRequested
            else Failed(c, d)
  {
    if Survives(c, s) {
      ObserveSurvived(c, s, env);
      var observed := Observe(c, s, env);
      FailureTells(observed, env);
      FailureTells(observed.(attempt := observed.attempt.(switchRequested := true)), env);
    } else {
      ObserveFails(c, s, env);
    }
  }

  /** An accepted switch makes the client the owner, which then verifies it; any other answer is a failure. */
  lemma SwitchVerdict(ws: seq<World>, es: seq<Event>, i: nat, k: nat, usable: bool, late: bool, env: Env)
    requires IsRun(ws, es) && i < |es| && es[i] == Deliver(k, usable, late, env)
    requires IsRequest(ws[i].c, k) && ws[i].c.log[k].role == Switched(ws[i].c.generation)
    ensures Acquiring(ws[i].c) && k in ws[i].rt.decided
    ensures var c, d := ws[i].c, ws[i + 1].c;
            if usable && !late && ws[i].rt.decided[k] && env.ready then
              Proceeds(c, d, Verified(c.generation)) && d.owned
            else
              Failed(c, d)
  {
    Reachable(ws, es, i);
    SwitchJudged(ws[i].c.(attempt := ws[i].c.attempt.(rpc := None)), usable && !late && ws[i].rt.decided[k], env);
  }

  lemma SwitchJudged(c: Client, success: bool, env: Env)
    requires Exclusive(c) && c.attempt.pending && !c.attempt.releasing
    ensures var d := SwitchedReply(c, c.generation, success, env);
            if success && env.ready then Proceeds(c, d, Verified(c.generation)) && d.owned else Failed(c, d)
    ensures !success ==> Failed(c, Finish(c, false, true, env))
  {
    FailureTells(c, env);
    FailureTells(c.(owned := true, rollback := c.rollback.(idleConfirmed := false)), env);
  }

  /** The verifying status decides: healthy and in our mode is success, anything else a failure. */
  lemma VerifyVerdict(ws: seq<World>, es: seq<Event>, i: nat, k: nat, usable: bool, late: bool, env: Env)
    requires IsRun(ws, es) && i < |es| && es[i] == Deliver(k, usable, late, env)
    requires IsRequest(ws[i].c, k) && ws[i].c.log[k].role == Verified(ws[i].c.generation)
    ensures Acquiring(ws[i].c)
    ensures if Heard(ws[i], k, usable, late) && HoldsOurs(ws[i].rt.served[k]) then Succeeded(ws[i].c, ws[i + 1].c)
            else Failed(ws[i].c, ws[i + 1].c)
  {
    Reachable(ws, es, i);
    var w := ws[i];
    if usable && !late {
      var c := TakenAndHeard(w, k);
      if HoldsOurs(w.rt.served[k]) {
        ObserveSurvived(c, w.rt.served[k], env);
      } else {
        ObserveFails(c, w.rt.served[k], env);
      }
    } else {
      FailureTells(w.c.(attempt := w.c.attempt.(rpc := None)), env);
    }
  }

  // ---- Observed statuses ------------------------------------------------------------------------------

  /** A status that leaves ownership and attempt alone. */
  predicate Survives(c: Client, s: Status) {
    && (c.owned ==> HoldsOurs(s))
    && (c.attempt.pending ==> Running(s) && s.mode != Other)
    && (c.attempt.pending && !c.attempt.releasing && s.mode == Idle ==> c.status.None? || c.status.value.mode != Ours)
  }

  /** What an observed status may do to the automatic start while an attempt is pending or a mode is owned. */
  function Watched(auto: AutoStarter, s: Status): AutoStarter {
    if s.latched then auto.(armed := false) else auto
  }

  lemma ObserveSurvived(c: Client, s: Status, env: Env)
    requires Survives(c, s) && (c.attempt.pending || c.owned)
    ensures Observe(c, s, env) == c.(status := Some(s), auto := Watched(c.auto, s))
  {
  }

  lemma ObserveFails(c: Client, s: Status, env: Env)
    requires Exclusive(c) && c.attempt.pending && !c.attempt.releasing && !Survives(c, s)
    ensures Failed(c, Observe(c, s, env))
  {
    var seen := c.(status := Some(s));
    var judged := Revoked(Finish(seen, false, true, env));
    if c.owned && (!Admissible(s) || s.mode != Ours) {
      var lost := Disarm(seen.(owned := false));
      FailureTells(lost, env);
      judged := Revoked(Finish(lost, false, true, env));
    } else {
      FailureTells(seen, env);
    }
    assert Failed(c, judged);
    AutoStartObserveTells(judged, s, env, c.attempt.completion.id);
  }

  /** An automatic start that a status sets off takes nothing back. */
  lemma AutoStartObserveTells(c: Client, s: Status, env: Env, id: nat)
    requires !c.owned
    ensures var d := AutoStartObserve(c, s, env);
            && !d.owned && d.fired[Answer(id, false)] >= c.fired[Answer(id, false)]
            && d.generation >= c.generation && d.auto.attempts >= c.auto.attempts
  {
    AutoStartObserveGeneration(c, s, env);
    AcquireGainsNothing(c, true, false, env);
    assert Refused(c, true).auto.attempts >= c.auto.attempts;
    assert Close(Begun(c, true), false).auto.attempts >= c.auto.attempts;
  }

  /** A notification that an attempt or an owner survives is remembered and changes nothing else; one that it
      does not survive takes the mode away, with notice, and ends the attempt. An owner that loses the mode like
      this does not take it again by itself: its automatic start is off, and nothing is pending. */
  lemma NotificationVerdict(ws: seq<World>, es: seq<Event>, i: nat)
    requires IsRun(ws, es) && i < |es| && es[i].Notify? && (ws[i].c.attempt.pending || ws[i].c.owned)
    ensures var c, d, s := ws[i].c, ws[i + 1].c, es[i].status;
            if Survives(c, s) then d == c.(status := Some(s), auto := Watched(c.auto, s))
            else !d.owned && d.revocations > c.revocations && d.generation > c.generation
                 && (Acquiring(c) ==> Failed(c, d))
                 && (c.owned && !HoldsOurs(s) ==> !d.auto.armed && !d.attempt.pending)
  {
    Reachable(ws, es, i);
    var c, s, env := ws[i].c, es[i].status, es[i].env;
    if Survives(c, s) {
      ObserveSurvived(c, s, env);
    } else {
      ObserveRevokes(c, s, env);
      if Acquiring(c) {
        ObserveFails(c, s, env);
      }
    }
  }

  lemma ObserveRevokes(c: Client, s: Status, env: Env)
    requires Exclusive(c) && (c.attempt.pending || c.owned) && !Survives(c, s)
    ensures var d := Observe(c, s, env); !d.owned && d.revocations > c.revocations && d.generation > c.generation
    ensures c.owned && !HoldsOurs(s) ==> !Observe(c, s, env).auto.armed && !Observe(c, s, env).attempt.pending
  {
    var seen := c.(status := Some(s));
    var lost := if c.owned && (!Admissible(s) || s.mode != Ours) then Disarm(seen.(owned := false)) else seen;
    FinishLosesOwnership(lost, false, true, env);
    FinishGeneration(lost, false, true, env);
    var judged := Revoked(Finish(lost, false, true, env));
    FinishBounds(lost, false, true, env);
    assert !Close(lost, false).attempt.pending;
    AutoStartObserveGeneration(judged, s, env);
    AcquireGainsNothing(judged, true, false, env);
  }

  /** While nothing is going on, an armed automatic start acquires a healthy idle runtime, and gives up on a
      latched stop or on a mode that belongs to another producer. */
  lemma AutoStartVerdict(ws: seq<World>, es: seq<Event>, i: nat)
    requires IsRun(ws, es) && i < |es| && es[i].Notify? && ws[i].c.auto.armed
    requires !ws[i].c.attempt.pending && !ws[i].c.owned && !ws[i].c.rollback.running && ws[i].c.rollback.unresolved.None?
    ensures var c, d, s, env := ws[i].c, ws[i + 1].c, es[i].status, es[i].env;
            if s.latched || s.mode == Other then d == c.(status := Some(s), auto := c.auto.(armed := false))
            else if Running(s) && s.mode == Idle && env.intervalElapsed then
              d.issued == c.issued + 1
              && (if env.ready then d.attempt.completion == AutoStart(c.issued) && Asks(d, Checked(c.generation, false))
                  else d.fired == c.fired + multiset{Answer(c.issued, false)} && d.auto.attempts == c.auto.attempts + 1)
            else d == c.(status := Some(s))
  {
    Reachable(ws, es, i);
    var seen := ws[i].c.(status := Some(es[i].status));
    assert Observe(ws[i].c, es[i].status, es[i].env) == AutoStartObserve(seen, es[i].status, es[i].env);
    var begun := Begun(seen, true);
    assert begun.attempt.completion == AutoStart(ws[i].c.issued) && begun.fired == ws[i].c.fired && begun.auto == ws[i].c.auto;
    assert Close(begun, false).fired == begun.fired + multiset{Answer(ws[i].c.issued, false)};
    assert Close(begun, false).auto.attempts == begun.auto.attempts + 1;
  }

  lemma ArmingVerdict(ws: seq<World>, es: seq<Event>, i: nat)
    requires IsRun(ws, es) && i < |es|
    ensures es[i] == CallArm ==> ws[i + 1].c == ws[i].c.(auto := AutoStarter(true, ws[i].c.auto.attempts))
    ensures es[i] == CallDisarm ==> ws[i + 1].c == ws[i].c.(auto := AutoStarter(false, ws[i].c.auto.attempts))
  {
    assert ws[i + 1] == Next(ws[i], es[i]);
  }

  /** Nothing was armed, and failed automatic acquires used up some of the ten that are allowed. */
  predicate Bounded(a: AutoStarter, b: AutoStarter) {
    && (b.armed ==> a.armed) && a.attempts <= b.attempts
    && (b.attempts > a.attempts && b.armed ==> b.attempts < 10)
  }

  /** Only arming arms, and an automatic start that is still armed has used up less than ten attempts. */
  lemma AutoStartIsBounded(ws: seq<World>, es: seq<Event>, i: nat)
    requires IsRun(ws, es) && i < |es| && !es[i].CallArm?
    ensures Bounded(ws[i].c.auto, ws[i + 1].c.auto)
  {
    if es[i].Deliver? || es[i].Notify? {
      ReplyBounds(ws[i], es[i]);
    } else if es[i].DeliverRollback? || es[i].AnswerSwitch? || es[i].RollbackTimeout? {
      RollbackSparesAuto(ws[i], es[i]);
    } else {
      CallBounds(ws[i], es[i]);
    }
  }

  lemma ReplyBounds(w: World, e: Event)
    requires Enabled(w, e) && (e.Deliver? || e.Notify?)
    ensures Bounded(w.c.auto, Next(w, e).c.auto)
  {
    match e
    case Deliver(k, usable, late, env) => DoneBounds(w.c, k, w.c.log[k].role, ReplyOf(w, k, usable), late, env);
    case Notify(s, env) => ObserveBounds(w.c, s, env);
  }

  lemma CallBounds(w: World, e: Event)
    requires Enabled(w, e) && !e.CallArm? && !e.Deliver? && !e.Notify?
    requires !e.DeliverRollback? && !e.AnswerSwitch? && !e.RollbackTimeout?
    ensures Bounded(w.c.auto, Next(w, e).c.auto)
  {
    match e
    case CallAcquire(own, env) => AcquireBounds(w.c, false, own, env);
    case CallRelease(env) => ReleaseBounds(w.c, env);
    case CallCancel(env) => FinishBounds(w.c, false, true, env);
    case AttemptTimeout(gen, env) => FinishBounds(w.c, false, true, env);
    case FreshnessCheck(expired, env) => FinishBounds(w.c, false, true, env);
    case _ =>
  }

  lemma RollbackSparesAuto(w: World, e: Event)
    requires Enabled(w, e) && (e.DeliverRollback? || e.AnswerSwitch? || e.RollbackTimeout?)
    ensures Next(w, e).c.auto == w.c.auto
  {
  }

  lemma ReleaseBounds(c: Client, env: Env)
    ensures Bounded(c.auto, BeginRelease(c, env).0.auto)
  {
    FinishBounds(c, false, false, env);
    var canceled := Cancel(c, false, env);
    assert BeginRollback(canceled, env).auto == canceled.auto;
    FinishBounds(Leave(Cancel(c, false, env)), false, true, env);
  }

  lemma FinishBounds(c: Client, success: bool, rollback: bool, env: Env)
    ensures Bounded(c.auto, Finish(c, success, rollback, env).auto)
  {
    assert Bounded(c.auto, Close(c, success).auto);
  }

  lemma AcquireBounds(c: Client, auto: bool, own: bool, env: Env)
    ensures Bounded(c.auto, Acquire(c, auto, own, env).auto)
  {
    assert Bounded(c.auto, Refused(c, auto).auto);
    FinishBounds(Begun(c, auto), false, true, env);
  }

  lemma ObserveBounds(c: Client, s: Status, env: Env)
    ensures Bounded(c.auto, Observe(c, s, env).auto)
  {
    var seen := c.(status := Some(s));
    var judged := seen;
    if c.owned && (!Admissible(s) || s.mode != Ours) {
      FinishBounds(Disarm(seen.(owned := false)), false, true, env);
      judged := Revoked(Finish(Disarm(seen.(owned := false)), false, true, env));
    } else if Invalidates(c, s) {
      FinishBounds(seen, false, true, env);
      judged := Revoked(Finish(seen, false, true, env));
    }
    assert Bounded(c.auto, judged.auto);
    AcquireBounds(judged, true, false, env);
  }

  lemma DoneBounds(c: Client, k: nat, role: Role, reply: Reply, late: bool, env: Env)
    requires !IsRollback(role)
    ensures Bounded(c.auto, Done(c, k, role, reply, late, env).auto)
  {
    var taken := c.(attempt := c.attempt.(rpc := None));
    FinishBounds(taken, false, true, env);
    if role.gen == c.generation && !late && reply.Response? {
      FinishBounds(taken, reply.success, true, env);
      FinishBounds(taken.(owned := true, rollback := c.rollback.(idleConfirmed := false)), false, true, env);
    } else if role.gen == c.generation && !late && reply.Read? && Reads(role) {
      var heard := taken.(log := taken.log + [Got(k, reply.status)]);
      ReadBounds(heard, role, reply.status, env);
    }
  }

  lemma ReadBounds(c: Client, role: Role, s: Status, env: Env)
    requires Reads(role) && !IsRollback(role)
    ensures var d := (match role
                      case Checked(gen, own) => CheckedReply(c, gen, own, s, env)
                      case Verified(gen) => VerifiedReply(c, gen, s, env)
                      case ReleaseChecked(gen) => ReleaseCheckedReply(c, gen, s, env)
                      case _ => c);
            Bounded(c.auto, d.auto)
  {
    ObserveBounds(c, s, env);
    var observed := Observe(c, s, env);
    FinishBounds(observed, false, true, env);
    FinishBounds(observed, true, true, env);
    FinishBounds(observed.(attempt := observed.attempt.(switchRequested := true)), false, true, env);
    FinishBounds(c, false, true, env);
    FinishBounds(c, true, true, env);
  }

  /** Nobody is told of a success without owning the mode, and only a status in our mode brings one. */
  lemma SuccessMeansOwned(ws: seq<World>, es: seq<Event>, i: nat, id: nat)
    requires IsRun(ws, es) && i < |es|
    requires ws[i + 1].c.fired[Answer(id, true)] > ws[i].c.fired[Answer(id, true)]
    ensures ws[i].c.owned && ws[i + 1].c.owned
    ensures es[i].Deliver? && es[i].request in ws[i].rt.served && HoldsOurs(ws[i].rt.served[es[i].request])
    ensures ws[i].c.attempt.completion == Caller(id) || ws[i].c.attempt.completion == AutoStart(id)
  {
    Reachable(ws, es, i);
    match es[i]
    case Deliver(k, usable, late, env) => SuccessByDelivery(ws[i], k, usable, late, env, id);
    case CallAcquire(own, env) => NoSuccessByAcquire(ws[i].c, false, own, env, id);
    case CallRelease(env) => NoSuccessByRelease(ws[i].c, env, id);
    case CallCancel(env) => NoSuccessByFailure(ws[i].c, true, env, id);
    case Notify(s, env) => NoSuccessByObserving(ws[i].c, s, env, id);
    case AttemptTimeout(gen, env) => NoSuccessByFailure(ws[i].c, true, env, id);
    case FreshnessCheck(expired, env) => NoSuccessByFailure(ws[i].c, true, env, id);
    case _ =>
  }

  lemma NoSuccessByFailure(c: Client, rollback: bool, env: Env, id: nat)
    ensures Finish(c, false, rollback, env).fired[Answer(id, true)] == c.fired[Answer(id, true)]
  {
    assert Close(c, false).fired[Answer(id, true)] == c.fired[Answer(id, true)];
  }

  lemma NoSuccessByAcquire(c: Client, auto: bool, own: bool, env: Env, id: nat)
    ensures Acquire(c, auto, own, env).fired[Answer(id, true)] == c.fired[Answer(id, true)]
  {
    assert Refused(c, auto).fired[Answer(id, true)] == c.fired[Answer(id, true)];
    assert Begun(c, auto).fired == c.fired;
    NoSuccessByFailure(Begun(c, auto), true, env, id);
  }

  lemma NoSuccessByObserving(c: Client, s: Status, env: Env, id: nat)
    ensures Observe(c, s, env).fired[Answer(id, true)] == c.fired[Answer(id, true)]
  {
    var seen := c.(status := Some(s));
    var judged := seen;
    if c.owned && (!Admissible(s) || s.mode != Ours) {
      NoSuccessByFailure(Disarm(seen.(owned := false)), true, env, id);
      judged := Revoked(Finish(Disarm(seen.(owned := false)), false, true, env));
    } else if Invalidates(c, s) {
      NoSuccessByFailure(seen, true, env, id);
      judged := Revoked(Finish(seen, false, true, env));
    }
    NoSuccessByAcquire(judged, true, false, env, id);
  }

  lemma NoSuccessByRelease(c: Client, env: Env, id: nat)
    ensures BeginRelease(c, env).0.fired[Answer(id, true)] == c.fired[Answer(id, true)]
  {
    NoSuccessByFailure(c, false, env, id);
    var canceled := Cancel(c, false, env);
    assert Leave(canceled).fired == canceled.fired;
    NoSuccessByFailure(Leave(canceled), true, env, id);
  }

  lemma NoSuccessByCall(c: Client, role: Role, gen: nat, env: Env, id: nat)
    ensures Call(c, role, gen, env).fired[Answer(id, true)] == c.fired[Answer(id, true)]
  {
    NoSuccessByFailure(c, true, env, id);
  }

  lemma SuccessByDelivery(w: World, k: nat, usable: bool, late: bool, env: Env, id: nat)
    requires Inv(w) && Enabled(w, Deliver(k, usable, late, env))
    requires Next(w, Deliver(k, usable, late, env)).c.fired[Answer(id, true)] > w.c.fired[Answer(id, true)]
    ensures w.c.owned && Next(w, Deliver(k, usable, late, env)).c.owned
    ensures k in w.rt.served && HoldsOurs(w.rt.served[k])
    ensures w.c.attempt.completion == Caller(id) || w.c.attempt.completion == AutoStart(id)
  {
    var role, reply := w.c.log[k].role, ReplyOf(w, k, usable);
    var taken := w.c.(attempt := w.c.attempt.(rpc := None));
    NoSuccessByFailure(taken, true, env, id);
    if role.gen == w.c.generation && !late && reply.Response? {
      NoSuccessByResponse(taken, role, reply.success, env, id);
    } else if role.gen == w.c.generation && !late && reply.Read? {
      var heard := taken.(log := taken.log + [Got(k, reply.status)]);
      SuccessByReading(heard, role, reply.status, env, id);
    }
  }

  /** The answer to a mode request completes no acquire with success: a switch is verified first, and a
      release completes nothing that was asked for by an acquire. */
  lemma NoSuccessByResponse(c: Client, role: Role, success: bool, env: Env, id: nat)
    requires Exclusive(c) && c.attempt.pending && (role.ReleaseIdled? ==> c.attempt.releasing) && !Reads(role)
    requires !IsRollback(role)
    ensures var d := if role.Switched? then SwitchedReply(c, role.gen, success, env) else Finish(c, success, true, env);
            d.fired[Answer(id, true)] == c.fired[Answer(id, true)]
  {
    NoSuccessByFailure(c, true, env, id);
    NoSuccessByCall(c.(owned := true, rollback := c.rollback.(idleConfirmed := false)), Verified(role.gen), role.gen, env, id);
  }

  lemma SuccessByReading(c: Client, role: Role, s: Status, env: Env, id: nat)
    requires Reads(role) && !IsRollback(role) && role.gen == c.generation
    requires Exclusive(c) && c.attempt.pending && (c.attempt.releasing <==> role.ReleaseChecked?)
    requires role.Verified? ==> c.owned
    ensures var d := (match role
                      case Checked(gen, own) => CheckedReply(c, gen, own, s, env)
                      case Verified(gen) => VerifiedReply(c, gen, s, env)
                      case ReleaseChecked(gen) => ReleaseCheckedReply(c, gen, s, env)
                      case _ => c);
            d.fired[Answer(id, true)] > c.fired[Answer(id, true)] ==>
              && c.owned && d.owned && HoldsOurs(s)
              && (c.attempt.completion == Caller(id) || c.attempt.completion == AutoStart(id))
  {
    NoSuccessByObserving(c, s, env, id);
    NoSuccessByFailure(c, true, env, id);
    var observed := Observe(c, s, env);
    if role.ReleaseChecked? {
      NoSuccessByCall(c, ReleaseIdled(role.gen), role.gen, env, id);
    } else if observed.generation == c.generation {
      ObserveSpares(c, s, env);
      NoSuccessByFailure(observed, true, env, id);
      NoSuccessByCall(observed.(attempt := observed.attempt.(switchRequested := true)), Switched(role.gen), role.gen, env, id);
    }
  }

  // ---- Every other end of an attempt is answered too ----------------------------------------------------

  /** A timeout of the current attempt, or a cancel, ends it: its caller is told of the failure, and the
      mode is not owned. */
  lemma LostAttemptIsAnswered(ws: seq<World>, es: seq<Event>, i: nat)
    requires IsRun(ws, es) && i < |es| && ws[i].c.attempt.pending && !ws[i].c.attempt.releasing
    requires es[i].CallCancel? || (es[i].AttemptTimeout? && es[i].gen == ws[i].c.generation)
    ensures Acquiring(ws[i].c)
    ensures var c, d := ws[i].c, ws[i + 1].c;
            Failed(c, d) && !d.attempt.pending && (c.owned ==> d.revocations == c.revocations + 1)
  {
    Reachable(ws, es, i);
    FailureTells(ws[i].c, es[i].env);
  }

  lemma FailureTells(c: Client, env: Env)
    requires Exclusive(c) && c.attempt.pending && !c.attempt.releasing
    ensures Acquiring(c)
    ensures var d := Finish(c, false, true, env);
            Failed(c, d) && !d.attempt.pending && d.revocations == c.revocations + if c.owned then 1 else 0
  {
    var d := Close(c, false);
    assert Failed(c, d) && !d.attempt.pending && d.revocations == c.revocations + if c.owned then 1 else 0;
  }

  /** An acquire that finds something open is answered at once, without success and without effect. */
  lemma OccupiedAcquireIsRefused(ws: seq<World>, es: seq<Event>, i: nat)
    requires IsRun(ws, es) && i < |es| && es[i].CallAcquire?
    requires ws[i].c.rollback.running || ws[i].c.attempt.pending || ws[i].c.rollback.unresolved.Some?
    ensures ws[i + 1].c == ws[i].c.(issued := ws[i].c.issued + 1,
                                    fired := ws[i].c.fired + multiset{Answer(ws[i].c.issued, false)})
  {
    assert ws[i + 1] == Next(ws[i], es[i]);
  }

  /** An acquire that finds nothing open becomes the pending attempt and asks for the status, remembering
      whether it comes from the running session of the owner; where it cannot ask, it fails at once. */
  lemma FreeAcquireAsks(ws: seq<World>, es: seq<Event>, i: nat)
    requires IsRun(ws, es) && i < |es| && es[i].CallAcquire?
    requires !ws[i].c.rollback.running && !ws[i].c.attempt.pending && ws[i].c.rollback.unresolved.None?
    ensures var c, d := ws[i].c, ws[i + 1].c;
            d.issued == c.issued + 1 &&
            if es[i].env.ready then
              && Acquiring(d) && d.attempt.completion == Caller(c.issued) && d.generation == c.generation
              && Asks(d, Checked(c.generation, c.owned && es[i].own)) && d.owned == c.owned && d.fired == c.fired
            else
              !d.owned && !d.attempt.pending && d.fired == c.fired + multiset{Answer(c.issued, false)}
  {
    Reachable(ws, es, i);
    var c := ws[i].c;
    var begun := Begun(c, false);
    assert begun.attempt.completion == Caller(c.issued) && begun.fired == c.fired && begun.owned == c.owned;
    var closed := Close(begun, false);
    assert !closed.owned && !closed.attempt.pending && closed.fired == begun.fired + multiset{Answer(c.issued, false)};
  }

  /** An owner that heard no admissible status in time loses the mode, with notice, and only then. */
  lemma ExpiredOwnerLosesMode(ws: seq<World>, es: seq<Event>, i: nat)
    requires IsRun(ws, es) && i < |es| && es[i].FreshnessCheck?
    ensures ws[i].c.owned && es[i].expired ==> !ws[i + 1].c.owned && ws[i + 1].c.revocations == ws[i].c.revocations + 1
    ensures !(ws[i].c.owned && es[i].expired) ==> ws[i + 1] == ws[i]
  {
    assert ws[i + 1] == Next(ws[i], es[i]);
    if ws[i].c.owned && es[i].expired {
      FinishLosesOwnership(ws[i].c, false, true, es[i].env);
    }
  }
}
