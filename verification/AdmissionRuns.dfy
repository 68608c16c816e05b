/**
 Runs of the admission protocol against a runtime, and what every reachable state satisfies.

 The runtime may decide, ignore, or answer any request at any time, other producers may change its
 mode, a stop may latch, notifications may be stale or wrong, and every timer may fire at any step.
 A future that resolves has been decided by the runtime, and a runtime that reports success for an
 idle request has gone idle.
 */
module AdmissionRuns {
  import opened Prelude
  import opened Admission

  /** `oursByUs`: the runtime is in our mode because it committed one of our requests. */
  datatype Runtime = Runtime(
    mode: Mode,
    latched: bool,
    oursByUs: bool,
    decided: map<nat, bool>,
    served: map<nat, Status>,
    delivered: set<nat>
  )

  datatype World = World(c: Client, rt: Runtime)

  datatype Event =
    // the runtime and other producers
    | Decide(request: nat, commits: bool, success: bool)
    | Serve(request: nat, status: Status)
    | ForeignMode(mode: Mode)
    | StopLatch(on: bool)
    // callbacks and calls of the client
    | CallAcquire(own: bool, env: Env)
    | CallRelease(env: Env)
    | CallCancel(env: Env)
    | CallArm
    | CallDisarm
    | Notify(status: Status, env: Env)
    | AttemptTimeout(gen: nat, env: Env)
    | FreshnessCheck(expired: bool, env: Env)
    | Deliver(request: nat, usable: bool, late: bool, env: Env)
    | AnswerSwitch(request: nat, env: Env)
    | DeliverRollback(request: nat, usable: bool, env: Env)
    | RollbackTimeout(token: nat)

  predicate IsRequest(c: Client, k: nat) {
    k < |c.log| && c.log[k].Sent?
  }

  /** A request for our mode that the runtime has not decided: it may still commit. */
  predicate Undecided(w: World, k: nat) {
    IsRequest(w.c, k) && w.c.log[k].role.Switched? && k !in w.rt.decided
  }

  /** Futures the client believes resolved have been decided by the runtime. */
  predicate Honest(w: World, env: Env) {
    env.switchDone && w.c.attempt.rpc.Some? ==> !Undecided(w, w.c.attempt.rpc.value)
  }

  predicate Resolved(w: World, k: nat, usable: bool)
    requires IsRequest(w.c, k)
  {
    if Reads(w.c.log[k].role) then usable ==> k in w.rt.served else k in w.rt.decided
  }

  predicate Enabled(w: World, e: Event) {
    match e
    case Decide(k, commits, success) =>
      IsRequest(w.c, k) && !Reads(w.c.log[k].role) && k !in w.rt.decided
      && (success && !w.c.log[k].role.Switched? ==> commits)
    case Serve(k, s) =>
      IsRequest(w.c, k) && Reads(w.c.log[k].role) && k !in w.rt.served
      && (s.bound ==> s.mode == w.rt.mode && s.latched == w.rt.latched)
    case ForeignMode(_) => true
    case StopLatch(_) => true
    case CallArm => true
    case CallDisarm => true
    case RollbackTimeout(_) => true
    case Deliver(k, usable, _, env) =>
      IsRequest(w.c, k) && !IsRollback(w.c.log[k].role) && k !in w.rt.delivered
      && Resolved(w, k, usable) && Honest(w, env)
    case DeliverRollback(k, usable, env) =>
      IsRequest(w.c, k) && IsRollback(w.c.log[k].role) && k !in w.rt.delivered
      && Resolved(w, k, usable) && Honest(w, env)
    case AnswerSwitch(k, env) => k in w.c.rollback.answerToken && k in w.rt.decided && Honest(w, env)
    case CallAcquire(_, env) => Honest(w, env)
    case CallRelease(env) => Honest(w, env)
    case CallCancel(env) => Honest(w, env)
    case Notify(_, env) => Honest(w, env)
    case AttemptTimeout(_, env) => Honest(w, env)
    case FreshnessCheck(_, env) => Honest(w, env)
  }

  function DecideMode(w: World, k: nat, commits: bool, success: bool): Runtime
    requires IsRequest(w.c, k)
  {
    var rt := w.rt.(decided := w.rt.decided[k := success]);
    if !commits then rt
    else if w.c.log[k].role.Switched? then rt.(mode := Ours, oursByUs := true)
    else rt.(mode := Idle, oursByUs := false, latched := false)
  }

  function ReplyOf(w: World, k: nat, usable: bool): Reply
    requires IsRequest(w.c, k) && Resolved(w, k, usable)
  {
    if !usable then Unusable
    else if Reads(w.c.log[k].role) then Read(w.rt.served[k])
    else Response(w.rt.decided[k])
  }

  function Next(w: World, e: Event): World
    requires Enabled(w, e)
  {
    match e
    case Decide(k, commits, success) => w.(rt := DecideMode(w, k, commits, success))
    case Serve(k, s) => w.(rt := w.rt.(served := w.rt.served[k := s]))
    case ForeignMode(m) => w.(rt := w.rt.(mode := m, oursByUs := false))
    case StopLatch(on) => w.(rt := w.rt.(latched := on))
    case CallAcquire(own, env) => w.(c := Acquire(w.c, false, own, env))
    case CallRelease(env) => w.(c := BeginRelease(w.c, env).0)
    case CallCancel(env) => w.(c := Cancel(w.c, true, env))
    case CallArm => w.(c := w.c.(auto := w.c.auto.(armed := true)))
    case CallDisarm => w.(c := Disarm(w.c))
    case Notify(s, env) => w.(c := Observe(w.c, s, env))
    case AttemptTimeout(gen, env) => w.(c := Timeout(w.c, gen, env))
    case FreshnessCheck(expired, env) => w.(c := CheckFreshness(w.c, expired, env))
    case Deliver(k, usable, late, env) =>
      World(Done(w.c, k, w.c.log[k].role, ReplyOf(w, k, usable), late, env),
            w.rt.(delivered := w.rt.delivered + {k}))
    case AnswerSwitch(k, env) => w.(c := SwitchAnswered(w.c, k, env))
    case DeliverRollback(k, usable, env) =>
      World(RollbackDone(w, k, usable, env), w.rt.(delivered := w.rt.delivered + {k}))
    case RollbackTimeout(token) => w.(c := RollbackFinished(w.c, token, false))
  }

  function RollbackDone(w: World, k: nat, usable: bool, env: Env): Client
    requires IsRequest(w.c, k) && IsRollback(w.c.log[k].role) && Resolved(w, k, usable)
  {
    match w.c.log[k].role
    case RollbackStatus(token) =>
      RollbackStatusDone(w.c, k, token, if usable then Some(w.rt.served[k]) else None, env)
    case RollbackMode(token) =>
      RollbackModeDone(w.c, token, if usable then Some(w.rt.decided[k]) else None)
    case _ => w.c
  }

  ghost predicate Start(w: World) {
    w.c == INITIAL && !w.rt.oursByUs && w.rt.decided == map[] && w.rt.served == map[] && w.rt.delivered == {}
  }

  /** The states a run passes through, first to last. */
  ghost predicate IsRun(ws: seq<World>, es: seq<Event>) {
    && |ws| == |es| + 1
    && Start(ws[0])
    && forall i :: 0 <= i < |es| ==> Enabled(ws[i], es[i]) && ws[i + 1] == Next(ws[i], es[i])
  }

  // ---- The invariant -------------------------------------------------------------------------

  /** Admission attempts, rollbacks and unresolved switches exclude one another. */
  predicate Exclusive(c: Client) {
    && (c.rollback.running || c.rollback.unresolved.Some? ==> !c.attempt.pending && !c.owned)
    && (c.attempt.pending <==> !c.attempt.completion.Nobody?)
    && (c.attempt.pending ==> (c.attempt.releasing <==> c.attempt.completion == Release))
    && (c.attempt.switchRequested ==> c.attempt.pending && !c.attempt.releasing)
    && (c.owned ==> !c.rollback.idleConfirmed)
    && (c.attempt.pending && c.attempt.releasing ==> !c.owned && !c.rollback.idleConfirmed)
    && (c.rollback.unresolved.Some? ==> c.rollback.running || !c.rollback.idleConfirmed)
    && (c.attempt.rpc.Some? ==> c.attempt.pending)
  }

  /** Is this request still one that the client would act on? */
  predicate Current(c: Client, role: Role) {
    if IsRollback(role) then role.token == c.rollback.token else role.gen == c.generation
  }

  /** No request is ahead of its generation or token, and a current one belongs to what runs now. */
  ghost predicate Placed(c: Client) {
    forall k: nat | IsRequest(c, k) ::
      var role := c.log[k].role;
      && (if IsRollback(role) then role.token <= c.rollback.token else role.gen <= c.generation)
      && (Current(c, role) ==>
            if IsRollback(role) then c.rollback.running && c.rollback.unresolved.None?
            else c.attempt.pending && (c.attempt.releasing <==> IsRelease(role)))
  }

  /** The attempt's outstanding request is the only current one that was not delivered. */
  ghost predicate Outstanding(w: World) {
    var c := w.c;
    && (forall k: nat | IsRequest(c, k) && !IsRollback(c.log[k].role) && Current(c, c.log[k].role)
                        && k !in w.rt.delivered :: c.attempt.rpc == Some(k))
    && (c.attempt.rpc.Some? ==>
          IsRequest(c, c.attempt.rpc.value) && Current(c, c.log[c.attempt.rpc.value].role)
          && !IsRollback(c.log[c.attempt.rpc.value].role))
  }

  /** The only answer awaited is that of the unresolved switch, under the running rollback's token if one runs. */
  ghost predicate Awaited(r: Rollback) {
    && (forall k | k in r.answerToken ::
          r.unresolved == Some(k) && r.answerToken[k] <= r.token && (r.answerToken[k] == r.token ==> r.running))
    && (r.unresolved.Some? ==>
          r.unresolved.value in r.answerToken && (r.running ==> r.answerToken[r.unresolved.value] == r.token))
  }

  /** The runtime only ever acts on requests that were sent. */
  ghost predicate Causal(w: World) {
    forall k | k in w.rt.delivered || k in w.rt.decided || k in w.rt.served :: k < |w.c.log|
  }

  /** Whatever may still commit our mode is the pending switch or one that is being waited for. */
  ghost predicate Tracked(w: World) {
    forall k: nat | Undecided(w, k) ::
      || (w.c.attempt.rpc == Some(k) && w.c.attempt.switchRequested && !w.c.owned)
      || w.c.rollback.unresolved == Some(k)
      || w.c.rollback.inflight == Some(k)
  }

  /** The runtime's answer to request `k` lets the client conclude that our mode was left. */
  predicate ConfirmsIdle(w: World, k: nat)
    requires IsRequest(w.c, k)
  {
    match w.c.log[k].role
    case ReleaseChecked(_) => k in w.rt.served && w.rt.served[k].bound && w.rt.served[k].mode != Ours
    case RollbackStatus(_) => k in w.rt.served && w.rt.served[k].bound && w.rt.served[k].mode != Ours
    case ReleaseIdled(_) => k in w.rt.decided && w.rt.decided[k]
    case RollbackMode(_) => k in w.rt.decided && w.rt.decided[k]
    case _ => false
  }

  /** Replies that would confirm idle are still true when they are acted on. */
  ghost predicate Clean(w: World) {
    forall k: nat | IsRequest(w.c, k) && Current(w.c, w.c.log[k].role) ::
      (ConfirmsIdle(w, k) ==> !w.rt.oursByUs)
  }

  /** A runtime that holds our mode by our doing really is in our mode. */
  predicate Coherent(rt: Runtime) {
    rt.oursByUs ==> rt.mode == Ours
  }

  /** The client still has our mode in hand: it owns it, is taking or returning it, or doubts it is gone. */
  predicate InHand(c: Client) {
    || c.owned
    || (c.attempt.pending && c.attempt.switchRequested)
    || c.rollback.running
    || c.rollback.unresolved.Some?
    || !c.rollback.idleConfirmed
  }

  /** The invariant without its promise about the runtime's mode. */
  ghost predicate Sound(w: World) {
    && Exclusive(w.c) && Placed(w.c) && Outstanding(w) && Awaited(w.c.rollback) && Causal(w)
    && Tracked(w) && Clean(w) && Coherent(w.rt)
  }

  /** An attempt that verifies its switch owns the mode meanwhile. */
  ghost predicate VerifiesOwned(c: Client) {
    forall k: nat | IsRequest(c, k) && c.log[k].role.Verified? && c.log[k].role.gen == c.generation :: c.owned
  }

  /** All that ending an attempt relies on. */
  ghost predicate Ready(w: World) {
    Sound(w) && (w.rt.oursByUs ==> InHand(w.c)) && w.c.rollback.inflight.None?
  }

  ghost predicate Inv(w: World) {
    Ready(w) && VerifiesOwned(w.c)
  }

  // ---- Each part of the client keeps the invariant ---------------------------------------------

  function With(w: World, c: Client): World {
    w.(c := c)
  }

  lemma RollbackFinishedKeeps(w: World, token: nat, succeeded: bool)
    requires Inv(w)
    requires succeeded && token == w.c.rollback.token && w.c.rollback.running
             ==> !w.rt.oursByUs && w.c.rollback.unresolved.None?
    ensures Inv(With(w, RollbackFinished(w.c, token, succeeded)))
  {
  }

  lemma RollbackQueryKeeps(w: World, token: nat, env: Env)
    requires Inv(w)
    requires token == w.c.rollback.token ==> w.c.rollback.running && w.c.rollback.unresolved.None?
    ensures Inv(With(w, RollbackQuery(w.c, token, env)))
  {
    if token == w.c.rollback.token && !env.queryOk {
      RollbackFinishedKeeps(w, token, false);
    }
  }

  lemma BeginRollbackKeeps(w: World, env: Env)
    requires Sound(w)
    requires !w.c.attempt.pending && !w.c.owned && !w.c.rollback.running && w.c.rollback.unresolved.None?
    requires env.switchDone && w.c.rollback.inflight.Some? ==> !Undecided(w, w.c.rollback.inflight.value)
    ensures Inv(With(w, BeginRollback(w.c, env)))
  {
    var r := w.c.rollback;
    var token := r.token + 1;
    if r.inflight.None? || env.switchDone {
      var begun := w.c.(rollback := r.(running := true, token := token, inflight := None));
      assert Inv(With(w, begun));
      RollbackQueryKeeps(With(w, begun), token, env);
    }
  }

  lemma EndKeeps(w: World, success: bool)
    requires Sound(w) && w.c.rollback.inflight.None?
    requires success ==> w.c.attempt.pending && w.c.attempt.rpc.None?
    ensures Sound(With(w, End(w.c, success)))
  {
  }

  lemma CloseKeeps(w: World, success: bool)
    requires Sound(w) && w.c.rollback.inflight.None?
    requires success ==> w.c.attempt.pending && w.c.attempt.rpc.None?
    ensures Sound(With(w, Close(w.c, success)))
  {
    EndKeeps(w, success);
    var disowned := Disown(End(w.c, success), success);
    assert Sound(With(w, disowned));
    CompleteKeeps(With(w, disowned), w.c.attempt.completion, success);
  }

  lemma CompleteKeeps(w: World, completion: Completion, success: bool)
    requires Sound(w)
    requires completion == Release ==>
      !w.c.attempt.pending && !w.c.owned && (success ==> w.c.rollback.unresolved.None?)
    ensures Sound(With(w, Complete(w.c, completion, success)))
  {
  }

  lemma FinishKeeps(w: World, success: bool, env: Env)
    requires Ready(w) && Honest(w, env)
    requires success ==> w.c.attempt.pending && w.c.attempt.rpc.None?
    requires success ==> if w.c.attempt.releasing then !w.rt.oursByUs else w.c.owned
    ensures Inv(With(w, Finish(w.c, success, true, env)))
  {
    CloseKeeps(w, success);
    if NeedsRollback(w.c, success) {
      BeginRollbackKeeps(With(w, Close(w.c, success)), env);
    }
  }

  /** A request may be sent for the pending attempt when nothing else of it is outstanding. */
  predicate MaySend(c: Client, role: Role) {
    && c.attempt.pending && c.attempt.rpc.None? && !IsRollback(role) && role.gen == c.generation
    && (c.attempt.releasing <==> IsRelease(role))
    && (role.Switched? ==> c.attempt.switchRequested && !c.owned)
    && (role.Verified? ==> c.owned)
  }

  lemma SendKeeps(w: World, role: Role)
    requires Inv(w) && MaySend(w.c, role)
    ensures Inv(With(w, Send(w.c, role)))
  {
  }

  lemma CallKeeps(w: World, role: Role, env: Env)
    requires Inv(w) && MaySend(w.c, role)
    ensures Inv(With(w, Call(w.c, role, w.c.generation, env)))
  {
    if env.ready {
      SendKeeps(w, role);
    } else {
      FinishKeeps(w, false, env);
    }
  }

  /** Fields that only count things do not matter to the invariant. */
  lemma BookkeepingKeeps(w: World, status: Option<Status>, armed: bool, issued: nat, revocations: nat)
    requires Inv(w)
    ensures Inv(With(w, w.c.(status := status, auto := w.c.auto.(armed := armed), issued := issued,
                             revocations := revocations)))
  {
  }

  lemma BeginKeeps(w: World, completion: Completion)
    requires Inv(w) && !w.c.rollback.running && !w.c.attempt.pending && w.c.rollback.unresolved.None?
    requires completion != Nobody && completion != Release
    ensures Inv(With(w, Begin(w.c, completion)))
  {
  }

  lemma FailFastKeeps(w: World, completion: Completion)
    requires Inv(w) && completion != Release
    ensures Inv(With(w, Complete(w.c, completion, false)))
  {
    CompleteKeeps(w, completion, false);
  }

  lemma IssuedKeeps(w: World)
    requires Inv(w)
    ensures Inv(With(w, Issued(w.c)))
  {
    BookkeepingKeeps(w, w.c.status, w.c.auto.armed, w.c.issued + 1, w.c.revocations);
  }

  lemma BegunKeeps(w: World, auto: bool)
    requires Inv(w) && !w.c.rollback.running && !w.c.attempt.pending && w.c.rollback.unresolved.None?
    ensures Inv(With(w, Begun(w.c, auto))) && Begun(w.c, auto).generation == w.c.generation
    ensures Begun(w.c, auto).attempt.pending && !Begun(w.c, auto).attempt.releasing
  {
    IssuedKeeps(w);
    BeginKeeps(With(w, Issued(w.c)), NewCompletion(w.c, auto));
  }

  lemma RefusedKeeps(w: World, auto: bool)
    requires Inv(w)
    ensures Inv(With(w, Refused(w.c, auto)))
  {
    IssuedKeeps(w);
    FailFastKeeps(With(w, Issued(w.c)), NewCompletion(w.c, auto));
  }

  lemma AcquireKeeps(w: World, auto: bool, own: bool, env: Env)
    requires Inv(w)
    ensures Inv(With(w, Acquire(w.c, auto, own, env)))
  {
    if w.c.rollback.running || w.c.attempt.pending || w.c.rollback.unresolved.Some? {
      RefusedKeeps(w, auto);
    } else {
      BegunKeeps(w, auto);
      CallKeeps(With(w, Begun(w.c, auto)), Checked(w.c.generation, w.c.owned && own), env);
    }
  }

  lemma AutoStartObserveKeeps(w: World, s: Status, env: Env)
    requires Inv(w)
    ensures Inv(With(w, AutoStartObserve(w.c, s, env)))
  {
    AcquireKeeps(w, true, false, env);
  }

  lemma DisownedKeeps(w: World)
    requires Ready(w)
    ensures Ready(With(w, Disarm(w.c.(owned := false))))
  {
  }

  lemma RevokeKeeps(w: World, env: Env)
    requires Ready(w) && Honest(w, env)
    ensures Inv(With(w, Revoked(Finish(w.c, false, true, env))))
  {
    FinishKeeps(w, false, env);
    var c := Finish(w.c, false, true, env);
    BookkeepingKeeps(With(w, c), c.status, c.auto.armed, c.issued, c.revocations + 1);
  }

  lemma ObserveKeeps(w: World, s: Status, env: Env)
    requires Inv(w) && Honest(w, env)
    ensures Inv(With(w, Observe(w.c, s, env)))
  {
    BookkeepingKeeps(w, Some(s), w.c.auto.armed, w.c.issued, w.c.revocations);
    var judged := With(w, w.c.(status := Some(s)));
    if w.c.owned && (!Admissible(s) || s.mode != Ours) {
      DisownedKeeps(judged);
      judged := With(w, Disarm(judged.c.(owned := false)));
      RevokeKeeps(judged, env);
      judged := With(w, Revoked(Finish(judged.c, false, true, env)));
    } else if Invalidates(w.c, s) {
      RevokeKeeps(judged, env);
      judged := With(w, Revoked(Finish(judged.c, false, true, env)));
    }
    AutoStartObserveKeeps(judged, s, env);
  }

  // ---- Generations only move forward ------------------------------------------------------------

  lemma BeginRollbackGeneration(c: Client, env: Env)
    ensures BeginRollback(c, env).generation == c.generation
  {
  }

  lemma FinishGeneration(c: Client, success: bool, rollback: bool, env: Env)
    ensures Finish(c, success, rollback, env).generation == c.generation + 1
  {
    assert Close(c, success).generation == c.generation + 1;
    BeginRollbackGeneration(Close(c, success), env);
  }

  lemma AutoStartObserveGeneration(c: Client, s: Status, env: Env)
    ensures AutoStartObserve(c, s, env).generation >= c.generation
  {
    FinishGeneration(Begun(c, true), false, true, env);
  }

  /** An observation that leaves a pending attempt's generation alone leaves the attempt alone. */
  lemma ObserveSpares(c: Client, s: Status, env: Env)
    requires c.attempt.pending && Observe(c, s, env).generation == c.generation
    ensures Observe(c, s, env) == c.(status := Some(s), auto := Observe(c, s, env).auto)
    ensures c.owned ==> Admissible(s) && s.mode == Ours
  {
    var seen := c.(status := Some(s));
    if c.owned && (!Admissible(s) || s.mode != Ours) {
      var lost := Disarm(seen.(owned := false));
      FinishGeneration(lost, false, true, env);
      AutoStartObserveGeneration(Revoked(Finish(lost, false, true, env)), s, env);
    } else if Invalidates(c, s) {
      FinishGeneration(seen, false, true, env);
      AutoStartObserveGeneration(Revoked(Finish(seen, false, true, env)), s, env);
    }
  }

  // ---- Replies to an admission request ---------------------------------------------------------

  /** The state in which a reply to the attempt's own request is judged. */
  ghost predicate Judging(w: World, gen: nat) {
    Inv(w) && w.c.attempt.pending && w.c.attempt.rpc.None? && gen == w.c.generation
  }

  lemma SwitchRequestedKeeps(w: World)
    requires Inv(w) && w.c.attempt.pending && !w.c.attempt.releasing
    ensures Inv(With(w, w.c.(attempt := w.c.attempt.(switchRequested := true))))
  {
  }

  lemma CheckedReplyKeeps(w: World, gen: nat, ownSession: bool, s: Status, env: Env)
    requires Judging(w, gen) && !w.c.attempt.releasing
    ensures Inv(With(w, CheckedReply(w.c, gen, ownSession, s, env)))
  {
    ObserveKeeps(w, s, env);
    var observed := Observe(w.c, s, env);
    if gen == observed.generation {
      ObserveSpares(w.c, s, env);
      var wo := With(w, observed);
      if !Admissible(s) || (s.mode != Idle && !(ownSession && observed.owned && s.mode == Ours)) {
        FinishKeeps(wo, false, env);
      } else if s.mode != Idle {
        FinishKeeps(wo, true, env);
      } else {
        SwitchRequestedKeeps(wo);
        CallKeeps(With(w, observed.(attempt := observed.attempt.(switchRequested := true))), Switched(gen), env);
      }
    }
  }

  lemma OwnedKeeps(w: World)
    requires Inv(w) && w.c.attempt.pending && !w.c.attempt.releasing && w.c.attempt.rpc.None?
    ensures Inv(With(w, w.c.(owned := true, rollback := w.c.rollback.(idleConfirmed := false))))
  {
  }

  lemma SwitchedReplyKeeps(w: World, gen: nat, success: bool, env: Env)
    requires Judging(w, gen) && !w.c.attempt.releasing
    ensures Inv(With(w, SwitchedReply(w.c, gen, success, env)))
  {
    if success {
      OwnedKeeps(w);
      CallKeeps(With(w, w.c.(owned := true, rollback := w.c.rollback.(idleConfirmed := false))), Verified(gen), env);
    } else {
      FinishKeeps(w, false, env);
    }
  }

  lemma VerifiedReplyKeeps(w: World, gen: nat, s: Status, env: Env)
    requires Judging(w, gen) && !w.c.attempt.releasing && w.c.owned
    ensures Inv(With(w, VerifiedReply(w.c, gen, s, env)))
  {
    ObserveKeeps(w, s, env);
    if gen == Observe(w.c, s, env).generation {
      ObserveSpares(w.c, s, env);
      FinishKeeps(With(w, Observe(w.c, s, env)), true, env);
    }
  }

  lemma ReleaseCheckedReplyKeeps(w: World, gen: nat, s: Status, env: Env)
    requires Judging(w, gen) && w.c.attempt.releasing
    requires s.bound && s.mode != Ours ==> !w.rt.oursByUs
    ensures Inv(With(w, ReleaseCheckedReply(w.c, gen, s, env)))
  {
    if s.bound && s.mode != Ours {
      FinishKeeps(w, true, env);
    } else if !s.bound || s.latched {
      FinishKeeps(w, false, env);
    } else {
      CallKeeps(w, ReleaseIdled(gen), env);
    }
  }

  // ---- Events ------------------------------------------------------------------------------------

  lemma TakenKeeps(w: World, k: nat)
    requires Inv(w) && IsRequest(w.c, k) && !IsRollback(w.c.log[k].role) && k !in w.rt.delivered
    requires Current(w.c, w.c.log[k].role) && (w.c.log[k].role.Switched? ==> k in w.rt.decided)
    ensures Inv(World(w.c.(attempt := w.c.attempt.(rpc := None)), w.rt.(delivered := w.rt.delivered + {k})))
  {
  }

  lemma DeliveredKeeps(w: World, k: nat)
    requires Inv(w) && IsRequest(w.c, k)
    requires IsRollback(w.c.log[k].role) || !Current(w.c, w.c.log[k].role)
    ensures Inv(w.(rt := w.rt.(delivered := w.rt.delivered + {k})))
  {
  }

  lemma HeardKeeps(w: World, k: nat, s: Status)
    requires Inv(w)
    ensures Inv(With(w, w.c.(log := w.c.log + [Got(k, s)])))
  {
  }

  lemma ReadKeeps(w: World, k: nat, env: Env)
    requires Inv(w) && w.c.attempt.rpc.None? && w.c.attempt.pending
    requires IsRequest(w.c, k) && !IsRollback(w.c.log[k].role) && Reads(w.c.log[k].role)
    requires Current(w.c, w.c.log[k].role) && k in w.rt.served
    ensures var heard := w.c.(log := w.c.log + [Got(k, w.rt.served[k])]);
            match w.c.log[k].role
            case Checked(gen, own) => Inv(With(w, CheckedReply(heard, gen, own, w.rt.served[k], env)))
            case Verified(gen) => Inv(With(w, VerifiedReply(heard, gen, w.rt.served[k], env)))
            case ReleaseChecked(gen) => Inv(With(w, ReleaseCheckedReply(heard, gen, w.rt.served[k], env)))
            case _ => true
  {
    var s := w.rt.served[k];
    HeardKeeps(w, k, s);
    var heard := With(w, w.c.(log := w.c.log + [Got(k, s)]));
    match w.c.log[k].role
    case Checked(gen, own) => CheckedReplyKeeps(heard, gen, own, s, env);
    case Verified(gen) => VerifiedReplyKeeps(heard, gen, s, env);
    case ReleaseChecked(gen) =>
      assert s.bound && s.mode != Ours ==> ConfirmsIdle(w, k);
      ReleaseCheckedReplyKeeps(heard, gen, s, env);
    case _ =>
  }

  lemma DoneKeeps(w: World, k: nat, usable: bool, late: bool, env: Env)
    requires Inv(w) && Enabled(w, Deliver(k, usable, late, env))
    ensures Inv(Next(w, Deliver(k, usable, late, env)))
  {
    var role := w.c.log[k].role;
    if !Current(w.c, role) {
      DeliveredKeeps(w, k);
    } else {
      TakenKeeps(w, k);
      var taken := World(w.c.(attempt := w.c.attempt.(rpc := None)), w.rt.(delivered := w.rt.delivered + {k}));
      var reply := ReplyOf(w, k, usable);
      if late || reply.Unusable? {
        FinishKeeps(taken, false, env);
      } else if reply.Read? {
        ReadKeeps(taken, k, env);
      } else if role.Switched? {
        SwitchedReplyKeeps(taken, role.gen, reply.success, env);
      } else {
        assert reply.success ==> ConfirmsIdle(w, k);
        FinishKeeps(taken, reply.success, env);
      }
    }
  }

  lemma ClearAnsweredKeeps(w: World, k: nat)
    requires Inv(w) && k in w.c.rollback.answerToken && k in w.rt.decided
    ensures Sound(With(w, ClearAnswered(w.c, k))) && ClearAnswered(w.c, k).rollback.unresolved.None?
    ensures w.c.rollback.running ==> Inv(With(w, ClearAnswered(w.c, k)))
  {
  }

  lemma SwitchAnsweredKeeps(w: World, k: nat, env: Env)
    requires Inv(w) && k in w.c.rollback.answerToken && k in w.rt.decided
    ensures Inv(With(w, SwitchAnswered(w.c, k, env)))
  {
    ClearAnsweredKeeps(w, k);
    var cleared := With(w, ClearAnswered(w.c, k));
    if w.c.rollback.running {
      RollbackQueryKeeps(cleared, w.c.rollback.token, env);
    } else {
      BeginRollbackKeeps(cleared, env);
    }
  }

  lemma RollbackSendKeeps(w: World, k: nat, s: Status)
    requires Inv(w) && w.c.rollback.running && w.c.rollback.unresolved.None?
    ensures Inv(With(w, w.c.(log := w.c.log + [Got(k, s)] + [Sent(RollbackMode(w.c.rollback.token))])))
  {
  }

  lemma RollbackDoneKeeps(w: World, k: nat, usable: bool, env: Env)
    requires Inv(w) && Enabled(w, DeliverRollback(k, usable, env))
    ensures Inv(Next(w, DeliverRollback(k, usable, env)))
  {
    DeliveredKeeps(w, k);
    var wd := w.(rt := w.rt.(delivered := w.rt.delivered + {k}));
    var role := w.c.log[k].role;
    if Current(w.c, role) {
      assert ConfirmsIdle(w, k) ==> !w.rt.oursByUs;
      if role.RollbackMode? {
        RollbackFinishedKeeps(wd, role.token, usable && w.rt.decided[k]);
      } else if !usable {
        RollbackFinishedKeeps(wd, role.token, false);
      } else {
        var s := w.rt.served[k];
        HeardKeeps(wd, k, s);
        var heard := With(wd, w.c.(log := w.c.log + [Got(k, s)]));
        if !s.bound || s.mode != Ours || s.latched || !env.queryOk {
          RollbackFinishedKeeps(heard, role.token, s.bound && s.mode != Ours);
        } else {
          RollbackSendKeeps(wd, k, s);
        }
      }
    }
  }

  lemma CanceledKeeps(w: World, rollback: bool, env: Env)
    requires Inv(w) && Honest(w, env)
    ensures rollback || !w.c.attempt.pending ==> Inv(With(w, Cancel(w.c, rollback, env)))
    ensures Sound(With(w, Cancel(w.c, rollback, env)))
    ensures w.c.attempt.pending && !rollback ==> Cancel(w.c, rollback, env) == Close(w.c, false)
  {
    if w.c.attempt.pending && rollback {
      FinishKeeps(w, false, env);
    } else if w.c.attempt.pending {
      CloseKeeps(w, false);
    }
  }

  lemma LeaveKeeps(w: World)
    requires Inv(w) && w.c.owned && !w.c.attempt.pending
    requires forall k: nat | IsRequest(w.c, k) && !IsRollback(w.c.log[k].role) :: w.c.log[k].role.gen < w.c.generation
    ensures Inv(With(w, Leave(w.c)))
  {
  }

  lemma BeginReleaseKeeps(w: World, env: Env)
    requires Inv(w) && Honest(w, env)
    ensures Inv(With(w, BeginRelease(w.c, env).0))
  {
    CanceledKeeps(w, false, env);
    var canceled := Cancel(w.c, false, env);
    if canceled.owned {
      LeaveKeeps(With(w, canceled));
      CallKeeps(With(w, Leave(canceled)), ReleaseChecked(canceled.generation), env);
    } else if canceled.rollback.unresolved.None? {
      if (w.c.attempt.pending && w.c.attempt.switchRequested) || !canceled.rollback.idleConfirmed {
        if !canceled.rollback.running {
          BeginRollbackKeeps(With(w, canceled), env);
        }
      }
    }
  }

  lemma RuntimeKeeps(w: World, e: Event)
    requires Inv(w) && Enabled(w, e) && (e.Decide? || e.Serve? || e.ForeignMode? || e.StopLatch?)
    ensures Inv(Next(w, e))
  {
    // A request for our mode that commits now is one the client still has in hand.
    if e.Decide? && w.c.log[e.request].role.Switched? {
      assert Undecided(w, e.request);
    }
  }

  lemma NextKeeps(w: World, e: Event)
    requires Inv(w) && Enabled(w, e)
    ensures Inv(Next(w, e))
  {
    match e
    case CallAcquire(own, env) => AcquireKeeps(w, false, own, env);
    case CallRelease(env) => BeginReleaseKeeps(w, env);
    case CallCancel(env) => CanceledKeeps(w, true, env);
    case CallArm => BookkeepingKeeps(w, w.c.status, true, w.c.issued, w.c.revocations);
    case CallDisarm => BookkeepingKeeps(w, w.c.status, false, w.c.issued, w.c.revocations);
    case Notify(s, env) => ObserveKeeps(w, s, env);
    case AttemptTimeout(gen, env) => FinishKeeps(w, false, env);
    case FreshnessCheck(expired, env) => FinishKeeps(w, false, env);
    case Deliver(k, usable, late, env) => DoneKeeps(w, k, usable, late, env);
    case AnswerSwitch(k, env) => SwitchAnsweredKeeps(w, k, env);
    case DeliverRollback(k, usable, env) => RollbackDoneKeeps(w, k, usable, env);
    case RollbackTimeout(token) => RollbackFinishedKeeps(w, token, false);
    case _ => RuntimeKeeps(w, e);
  }
}
