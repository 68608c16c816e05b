/**
 The policy admission protocol as a state machine.

 A client takes a remote runtime's mode and gives it back over asynchronous requests that may
 never be answered. Every callback of the client runs under one lock, so each is one atomic
 step: a function from client state to client state. The request and response history is part
 of that state, and a request is named by its position in the history.
 */
module Admission {
  import opened Prelude

  /** The runtime's modes as this client tells them apart: idle, its own configured mode, any other. */
  datatype Mode = Idle | Ours | Other

  /** `bound`: reported by the bound runtime identity. `healthy`: ACTIVE, no faults, fresh stamp. */
  datatype Status = Status(bound: bool, healthy: bool, mode: Mode, latched: bool)

  predicate Admissible(s: Status) {
    s.bound && s.healthy && !s.latched
  }

  /** What a request was sent for, and the generation or rollback token it was sent under. */
  datatype Role =
    | Checked(gen: nat, ownSession: bool)
    | Switched(gen: nat)
    | Verified(gen: nat)
    | ReleaseChecked(gen: nat)
    | ReleaseIdled(gen: nat)
    | RollbackStatus(token: nat)
    | RollbackMode(token: nat)

  predicate IsRollback(role: Role) {
    role.RollbackStatus? || role.RollbackMode?
  }

  predicate IsRelease(role: Role) {
    role.ReleaseChecked? || role.ReleaseIdled?
  }

  /** Requests that read the runtime's status; all others set its mode. */
  predicate Reads(role: Role) {
    role.Checked? || role.Verified? || role.ReleaseChecked? || role.RollbackStatus?
  }

  /** The history: requests sent, and status replies the client acted on. */
  datatype Entry = Sent(role: Role) | Got(request: nat, status: Status)

  /** Whose completion is stored, if any. Callers are numbered in the order their acquire was issued. */
  datatype Completion = Nobody | Caller(id: nat) | AutoStart(id: nat) | Release

  /** What the outside world does inside one step: service readiness, timers, resolved futures. */
  datatype Env = Env(ready: bool, queryOk: bool, switchDone: bool, intervalElapsed: bool)

  /** The admission attempt (or release) in progress, if any, and its outstanding request. */
  datatype Attempt = Attempt(
    pending: bool,
    releasing: bool,
    switchRequested: bool,
    completion: Completion,
    rpc: Option<nat>
  )

  /** The return to idle after a failed attempt. `inflight` and `unresolved` name unanswered mode
      requests; `answerToken` the rollback token each awaited answer was registered under. */
  datatype Rollback = Rollback(
    running: bool,
    token: nat,
    idleConfirmed: bool,
    inflight: Option<nat>,
    unresolved: Option<nat>,
    answerToken: map<nat, nat>
  )

  /** What the caller of an acquire is told. */
  datatype Answer = Answer(id: nat, success: bool)

  datatype AutoStarter = AutoStarter(armed: bool, attempts: nat)

  datatype Client = Client(
    owned: bool,
    generation: nat,
    status: Option<Status>,
    attempt: Attempt,
    rollback: Rollback,
    auto: AutoStarter,
    log: seq<Entry>,
    issued: nat,
    fired: multiset<Answer>,
    revocations: nat
  )

  const AUTO_START_MAX_ATTEMPTS := 10

  const NO_ATTEMPT := Attempt(false, false, false, Nobody, None)

  const INITIAL :=
    Client(false, 0, None, NO_ATTEMPT, Rollback(false, 0, true, None, None, map[]), AutoStarter(false, 0),
           [], 0, multiset{}, 0)

  // ---- Completions and auto start ------------------------------------------------------------

  function Disarm(c: Client): Client {
    c.(auto := c.auto.(armed := false))
  }

  /** Runs a stored completion. A release's final write of its outcome is part of its completion. */
  function Complete(c: Client, completion: Completion, success: bool): Client {
    match completion
    case Nobody => c
    case Caller(id) => c.(fired := c.fired + multiset{Answer(id, success)})
    case AutoStart(id) =>
      c.(fired := c.fired + multiset{Answer(id, success)}, auto := AutoStartDone(c.auto, success))
    case Release => c.(rollback := c.rollback.(idleConfirmed := success))
  }

  /** Success disarms the auto start; so does the last of a bounded number of failures. */
  function AutoStartDone(auto: AutoStarter, success: bool): AutoStarter {
    if success then auto.(armed := false)
    else AutoStarter(auto.armed && auto.attempts + 1 < AUTO_START_MAX_ATTEMPTS, auto.attempts + 1)
  }

  // ---- Idle rollback ---------------------------------------------------------------------------

  function RollbackFinished(c: Client, token: nat, succeeded: bool): Client {
    if token != c.rollback.token || !c.rollback.running then c
    else c.(rollback := c.rollback.(token := token + 1, running := false, idleConfirmed := succeeded))
  }

  function RollbackQuery(c: Client, token: nat, env: Env): Client {
    if token != c.rollback.token then c
    else if env.queryOk then c.(log := c.log + [Sent(RollbackStatus(token))])
    else RollbackFinished(c, token, false)
  }

  /** Start a check-then-set return to idle; first wait for our own mode request if it is unanswered. */
  function BeginRollback(c: Client, env: Env): Client {
    if c.rollback.running then c
    else
      var token := c.rollback.token + 1;
      var begun := c.rollback.(running := true, token := token, inflight := None);
      if c.rollback.inflight.Some? && !env.switchDone then
        c.(rollback := begun.(unresolved := c.rollback.inflight,
                              answerToken := begun.answerToken[c.rollback.inflight.value := token]))
      else
        RollbackQuery(c.(rollback := begun), token, env)
  }

  /** The runtime answered a mode request that a rollback was (or had been) waiting for. */
  function SwitchAnswered(c: Client, request: nat, env: Env): Client {
    if request !in c.rollback.answerToken then c
    else
      var token := c.rollback.answerToken[request];
      var cleared := ClearAnswered(c, request);
      if token == cleared.rollback.token then RollbackQuery(cleared, token, env)
      else if !(cleared.attempt.pending || cleared.owned || cleared.rollback.running)
      then BeginRollback(cleared, env)
      else cleared
  }

  function ClearAnswered(c: Client, request: nat): Client {
    c.(rollback := c.rollback.(
         unresolved := if c.rollback.unresolved == Some(request) then None else c.rollback.unresolved,
         answerToken := c.rollback.answerToken - {request}))
  }

  /** `reply`: the status read, or None for an exception or an empty response. */
  function RollbackStatusDone(c: Client, request: nat, token: nat, reply: Option<Status>, env: Env): Client {
    if token != c.rollback.token then c
    else if reply.None? then RollbackFinished(c, token, false)
    else
      var heard := c.(log := c.log + [Got(request, reply.value)]);
      if !reply.value.bound then RollbackFinished(heard, token, false)
      else if reply.value.mode != Ours then RollbackFinished(heard, token, true)
      else if reply.value.latched then RollbackFinished(heard, token, false)
      else if env.queryOk then heard.(log := heard.log + [Sent(RollbackMode(token))])
      else RollbackFinished(heard, token, false)
  }

  function RollbackModeDone(c: Client, token: nat, reply: Option<bool>): Client {
    RollbackFinished(c, token, reply == Some(true))
  }

  // ---- Admission attempts ----------------------------------------------------------------------

  predicate IsSwitch(c: Client, request: nat) {
    request < |c.log| && c.log[request].Sent? && !Reads(c.log[request].role)
  }

  predicate NeedsRollback(c: Client, success: bool) {
    !success && c.attempt.pending && !c.attempt.releasing && (c.owned || c.attempt.switchRequested)
  }

  /** The single exit of every attempt. */
  function Finish(c: Client, success: bool, rollback: bool, env: Env): Client {
    if rollback && NeedsRollback(c, success) then BeginRollback(Close(c, success), env) else Close(c, success)
  }

  /** Everything `Finish` does before a rollback: end the attempt, lose ownership on failure, complete. */
  function Close(c: Client, success: bool): Client {
    Complete(Disown(End(c, success), success), c.attempt.completion, success)
  }

  /** The attempt is over; an unanswered request for our mode is kept so that a rollback can wait for it. */
  function End(c: Client, success: bool): Client {
    c.(attempt := c.attempt.(completion := Nobody, pending := false, switchRequested := false, rpc := None),
       rollback := c.rollback.(inflight := if KeepsSwitch(c, success) then c.attempt.rpc else c.rollback.inflight),
       generation := c.generation + 1)
  }

  predicate KeepsSwitch(c: Client, success: bool) {
    !success && c.attempt.pending && !c.attempt.releasing && c.attempt.switchRequested
    && c.attempt.rpc.Some? && IsSwitch(c, c.attempt.rpc.value)
  }

  function Disown(c: Client, success: bool): Client {
    if !success && c.owned then Revoked(c.(owned := false)) else c
  }

  /** The owner is told that it lost the mode. */
  function Revoked(c: Client): Client {
    c.(revocations := c.revocations + 1)
  }

  function Call(c: Client, role: Role, gen: nat, env: Env): Client {
    if gen != c.generation then c
    else if env.ready then Send(c, role)
    else Finish(c, false, true, env)
  }

  function Send(c: Client, role: Role): Client {
    c.(log := c.log + [Sent(role)], attempt := c.attempt.(rpc := Some(|c.log|)))
  }

  function Acquire(c: Client, auto: bool, own: bool, env: Env): Client {
    if c.rollback.running || c.attempt.pending || c.rollback.unresolved.Some? then Refused(c, auto)
    else Call(Begun(c, auto), Checked(c.generation, c.owned && own), c.generation, env)
  }

  function Issued(c: Client): Client {
    c.(issued := c.issued + 1)
  }

  function NewCompletion(c: Client, auto: bool): Completion {
    if auto then AutoStart(c.issued) else Caller(c.issued)
  }

  /** An acquire that finds something open completes at once, without success. */
  function Refused(c: Client, auto: bool): Client {
    Complete(Issued(c), NewCompletion(c, auto), false)
  }

  /** An acquire that finds nothing open becomes the pending attempt. */
  function Begun(c: Client, auto: bool): Client {
    Begin(Issued(c), NewCompletion(c, auto))
  }

  /** A new pending attempt of the current generation, with its completion stored. */
  function Begin(c: Client, completion: Completion): Client {
    c.(attempt := c.attempt.(pending := true, releasing := false, switchRequested := false,
                             completion := completion),
       status := None)
  }

  function AutoStartObserve(c: Client, s: Status, env: Env): Client {
    if !c.auto.armed then c
    else if s.latched then Disarm(c)
    else if !c.attempt.pending && !c.owned && s.mode == Other then Disarm(c)
    else if Admissible(s) && s.mode == Idle && !c.attempt.pending && !c.owned && !c.rollback.running
            && c.rollback.unresolved.None? && env.intervalElapsed
    then Acquire(c, true, false, env)
    else c
  }

  /** A pending attempt cannot survive this status. */
  predicate Invalidates(c: Client, s: Status) {
    c.attempt.pending
    && (|| !Admissible(s)
        || s.mode == Other
        || (!c.attempt.releasing && s.mode == Idle && c.status.Some? && c.status.value.mode == Ours))
  }

  /** One observed status, from a notification or from an attempt's own read. */
  function Observe(c: Client, s: Status, env: Env): Client {
    var seen := c.(status := Some(s));
    var judged :=
      if c.owned && (!Admissible(s) || s.mode != Ours) then
        Revoked(Finish(Disarm(seen.(owned := false)), false, true, env))
      else if Invalidates(c, s) then
        Revoked(Finish(seen, false, true, env))
      else seen;
    AutoStartObserve(judged, s, env)
  }

  /** What arrives for an admission request: a status, a mode response, or nothing usable. */
  datatype Reply = Read(status: Status) | Response(success: bool) | Unusable

  function CheckedReply(c: Client, gen: nat, ownSession: bool, s: Status, env: Env): Client {
    var observed := Observe(c, s, env);
    if gen != observed.generation then observed
    else if !Admissible(s) then Finish(observed, false, true, env)
    else if ownSession && observed.owned && s.mode == Ours then Finish(observed, true, true, env)
    else if s.mode != Idle then Finish(observed, false, true, env)
    else Call(observed.(attempt := observed.attempt.(switchRequested := true)), Switched(gen), gen, env)
  }

  function SwitchedReply(c: Client, gen: nat, success: bool, env: Env): Client {
    if !success then Finish(c, false, true, env)
    else Call(c.(owned := true, rollback := c.rollback.(idleConfirmed := false)), Verified(gen), gen, env)
  }

  function VerifiedReply(c: Client, gen: nat, s: Status, env: Env): Client {
    var observed := Observe(c, s, env);
    if gen != observed.generation then observed else Finish(observed, true, true, env)
  }

  function ReleaseCheckedReply(c: Client, gen: nat, s: Status, env: Env): Client {
    if !s.bound then Finish(c, false, true, env)
    else if s.mode != Ours then Finish(c, true, true, env)
    else if s.latched then Finish(c, false, true, env)
    else Call(c, ReleaseIdled(gen), gen, env)
  }

  /** The completion of an admission request; `late` when the attempt's deadline has passed. */
  function Done(c: Client, request: nat, role: Role, reply: Reply, late: bool, env: Env): Client
    requires !IsRollback(role)
  {
    if role.gen != c.generation then c
    else
      var taken := c.(attempt := c.attempt.(rpc := None));
      if late || reply.Unusable? then Finish(taken, false, true, env)
      else if reply.Read? then
        var heard := taken.(log := taken.log + [Got(request, reply.status)]);
        match role
        case Checked(gen, own) => CheckedReply(heard, gen, own, reply.status, env)
        case Verified(gen) => VerifiedReply(heard, gen, reply.status, env)
        case ReleaseChecked(gen) => ReleaseCheckedReply(heard, gen, reply.status, env)
        case _ => Finish(taken, false, true, env)
      else
        match role
        case Switched(gen) => SwitchedReply(taken, gen, reply.success, env)
        case ReleaseIdled(gen) => Finish(taken, reply.success, true, env)
        case _ => Finish(taken, false, true, env)
  }

  function Cancel(c: Client, rollback: bool, env: Env): Client {
    if c.attempt.pending then Finish(c, false, rollback, env) else c.(generation := c.generation + 1)
  }

  function Timeout(c: Client, gen: nat, env: Env): Client {
    if c.attempt.pending && c.generation == gen then Finish(c, false, true, env) else c
  }

  /** `expired`: no admissible status was heard within the freshness window. */
  function CheckFreshness(c: Client, expired: bool, env: Env): Client {
    if c.owned && expired then Finish(c, false, true, env) else c
  }

  /** How the first, locked part of a release ends: with an answer, or with something to wait for. */
  datatype ReleaseOutcome = Returned(success: bool) | AwaitRollback | AwaitIdle

  function BeginRelease(c: Client, env: Env): (Client, ReleaseOutcome) {
    var switchInFlight := c.attempt.pending && c.attempt.switchRequested;
    var canceled := Cancel(c, false, env);
    if canceled.owned then
      (Call(Leave(canceled), ReleaseChecked(canceled.generation), canceled.generation, env), AwaitIdle)
    else if canceled.rollback.unresolved.Some? then
      (canceled, Returned(false))
    else
      var verifying :=
        if switchInFlight || !canceled.rollback.idleConfirmed then BeginRollback(canceled, env) else canceled;
      (verifying, if verifying.rollback.running then AwaitRollback else Returned(verifying.rollback.idleConfirmed))
  }

  /** An owned mode is being handed back: no longer owned, and the release is what is pending. */
  function Leave(c: Client): Client {
    c.(owned := false, attempt := c.attempt.(pending := true, releasing := true, completion := Release))
  }
}
