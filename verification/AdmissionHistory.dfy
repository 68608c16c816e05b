/**
 What the admission client's history and counters say in every reachable state: it only sets a
 mode directly after a status reply that justifies it, and it completes each attempt once.
 */
module AdmissionHistory {
  import opened Prelude
  import opened Admission
  import opened AdmissionRuns

  /** Which status reply, to which request, lets the client send a mode request for `role`. */
  predicate JustifiedBy(role: Role, asked: Role, s: Status) {
    match role
    case Switched(gen) => asked.Checked? && asked.gen == gen && Admissible(s) && s.mode == Idle
    case ReleaseIdled(gen) => asked == ReleaseChecked(gen) && s.bound && s.mode == Ours && !s.latched
    case RollbackMode(token) => asked == RollbackStatus(token) && s.bound && s.mode == Ours && !s.latched
    case _ => true
  }

  /** A request that sets a mode directly follows the status reply that justifies it. */
  ghost predicate Justified(log: seq<Entry>, k: nat)
    requires k < |log| && log[k].Sent?
  {
    Reads(log[k].role)
    || (&& k > 0 && log[k - 1].Got? && log[k - 1].request < k - 1
        && log[log[k - 1].request].Sent?
        && JustifiedBy(log[k].role, log[log[k - 1].request].role, log[k - 1].status))
  }

  ghost predicate CheckedThenSet(log: seq<Entry>) {
    forall k: nat | k < |log| && log[k].Sent? :: Justified(log, k)
  }

  /** Is this acquire the one whose completion is stored? */
  predicate Waiting(completion: Completion, id: nat) {
    (completion.Caller? || completion.AutoStart?) && completion.id == id
  }

  /** How often this acquire was answered, either way. */
  function Answers(fired: multiset<Answer>, id: nat): nat {
    fired[Answer(id, true)] + fired[Answer(id, false)]
  }

  /** Each acquire issued so far has completed once, except the one that is still waiting. */
  ghost predicate CompletedOnce(completion: Completion, issued: nat, fired: multiset<Answer>) {
    && (forall id: nat :: Answers(fired, id) == if id < issued && !Waiting(completion, id) then 1 else 0)
    && (completion.Caller? || completion.AutoStart? ==> completion.id < issued)
  }

  ghost predicate Ledger(c: Client) {
    && CheckedThenSet(c.log)
    && CompletedOnce(c.attempt.completion, c.issued, c.fired)
    && (c.attempt.pending <==> !c.attempt.completion.Nobody?)
  }

  // ---- Each part of the client keeps the ledger -------------------------------------------------

  /** Another entry at the end leaves what came before justified. */
  lemma EntryAdded(log: seq<Entry>, entry: Entry)
    requires CheckedThenSet(log)
    requires entry.Sent? ==> Justified(log + [entry], |log|)
    ensures CheckedThenSet(log + [entry])
  {
    forall k: nat | k < |log + [entry]| && (log + [entry])[k].Sent?
      ensures Justified(log + [entry], k)
    {
      if k < |log| {
        assert Justified(log, k);
      }
    }
  }

  lemma ReadSent(c: Client, role: Role)
    requires Ledger(c) && Reads(role)
    ensures CheckedThenSet(c.log + [Sent(role)])
  {
    EntryAdded(c.log, Sent(role));
  }

  lemma HeardLedger(c: Client, k: nat, s: Status)
    requires Ledger(c)
    ensures Ledger(c.(log := c.log + [Got(k, s)]))
  {
    EntryAdded(c.log, Got(k, s));
  }

  lemma SetSent(c: Client, role: Role)
    requires Ledger(c) && |c.log| > 0
    requires var last := c.log[|c.log| - 1];
             last.Got? && last.request < |c.log| - 1 && c.log[last.request].Sent?
             && JustifiedBy(role, c.log[last.request].role, last.status)
    ensures CheckedThenSet(c.log + [Sent(role)])
  {
    EntryAdded(c.log, Sent(role));
  }

  lemma BeginRollbackLedger(c: Client, env: Env)
    requires Ledger(c)
    ensures Ledger(BeginRollback(c, env))
  {
    ReadSent(c, RollbackStatus(c.rollback.token + 1));
  }

  lemma CompletedOne(completion: Completion, issued: nat, fired: multiset<Answer>, success: bool)
    requires CompletedOnce(completion, issued, fired)
    ensures completion.Caller? || completion.AutoStart? ==>
              CompletedOnce(Nobody, issued, fired + multiset{Answer(completion.id, success)})
    ensures completion.Nobody? || completion.Release? ==> CompletedOnce(Nobody, issued, fired)
  {
    if completion.Caller? || completion.AutoStart? {
      forall id: nat
        ensures Answers(fired + multiset{Answer(completion.id, success)}, id)
                == Answers(fired, id) + if id == completion.id then 1 else 0
      {
      }
    }
  }

  lemma CloseLedger(c: Client, success: bool)
    requires Ledger(c)
    ensures Ledger(Close(c, success))
  {
    CompletedOne(c.attempt.completion, c.issued, c.fired, success);
  }

  lemma FinishLedger(c: Client, success: bool, rollback: bool, env: Env)
    requires Ledger(c)
    ensures Ledger(Finish(c, success, rollback, env))
  {
    CloseLedger(c, success);
    BeginRollbackLedger(Close(c, success), env);
  }

  lemma CallLedger(c: Client, role: Role, gen: nat, env: Env)
    requires Ledger(c) && CheckedThenSet(c.log + [Sent(role)])
    ensures Ledger(Call(c, role, gen, env))
  {
    FinishLedger(c, false, true, env);
  }

  lemma BegunLedger(c: Client, auto: bool)
    requires Ledger(c) && !c.attempt.pending
    ensures Ledger(Begun(c, auto)) && Begun(c, auto).log == c.log
  {
  }

  lemma RefusedLedger(c: Client, auto: bool)
    requires Ledger(c)
    ensures Ledger(Refused(c, auto))
  {
  }

  lemma AcquireLedger(c: Client, auto: bool, own: bool, env: Env)
    requires Ledger(c)
    ensures Ledger(Acquire(c, auto, own, env))
  {
    var role := Checked(c.generation, c.owned && own);
    if c.rollback.running || c.attempt.pending || c.rollback.unresolved.Some? {
      RefusedLedger(c, auto);
    } else {
      BegunLedger(c, auto);
      ReadSent(c, role);
      CallLedger(Begun(c, auto), role, c.generation, env);
    }
  }

  lemma ObserveLedger(c: Client, s: Status, env: Env)
    requires Ledger(c)
    ensures Ledger(Observe(c, s, env))
  {
    var seen := c.(status := Some(s));
    var judged := seen;
    if c.owned && (!Admissible(s) || s.mode != Ours) {
      judged := Finish(Disarm(seen.(owned := false)), false, true, env);
      FinishLedger(Disarm(seen.(owned := false)), false, true, env);
      judged := Revoked(judged);
    } else if Invalidates(c, s) {
      FinishLedger(seen, false, true, env);
      judged := Revoked(Finish(seen, false, true, env));
    }
    AcquireLedger(judged, true, false, env);
  }

  /** The newest entry of the history is the reply to request `k`. */
  predicate JustHeard(c: Client, k: nat, role: Role, s: Status) {
    k < |c.log| - 1 && c.log[k] == Sent(role) && c.log[|c.log| - 1] == Got(k, s)
  }

  lemma CheckedReplyLedger(c: Client, k: nat, gen: nat, own: bool, s: Status, env: Env)
    requires Ledger(c) && c.attempt.pending && gen == c.generation && JustHeard(c, k, Checked(gen, own), s)
    ensures Ledger(CheckedReply(c, gen, own, s, env))
  {
    ObserveLedger(c, s, env);
    var observed := Observe(c, s, env);
    if gen == observed.generation {
      ObserveSpares(c, s, env);
      FinishLedger(observed, false, true, env);
      FinishLedger(observed, true, true, env);
      if Admissible(s) && s.mode == Idle {
        var requested := observed.(attempt := observed.attempt.(switchRequested := true));
        SetSent(requested, Switched(gen));
        CallLedger(requested, Switched(gen), gen, env);
      }
    }
  }

  lemma SwitchedReplyLedger(c: Client, gen: nat, success: bool, env: Env)
    requires Ledger(c)
    ensures Ledger(SwitchedReply(c, gen, success, env))
  {
    FinishLedger(c, false, true, env);
    var owner := c.(owned := true, rollback := c.rollback.(idleConfirmed := false));
    ReadSent(owner, Verified(gen));
    CallLedger(owner, Verified(gen), gen, env);
  }

  lemma VerifiedReplyLedger(c: Client, gen: nat, s: Status, env: Env)
    requires Ledger(c)
    ensures Ledger(VerifiedReply(c, gen, s, env))
  {
    ObserveLedger(c, s, env);
    FinishLedger(Observe(c, s, env), true, true, env);
  }

  lemma ReleaseCheckedReplyLedger(c: Client, k: nat, gen: nat, s: Status, env: Env)
    requires Ledger(c) && JustHeard(c, k, ReleaseChecked(gen), s)
    ensures Ledger(ReleaseCheckedReply(c, gen, s, env))
  {
    FinishLedger(c, false, true, env);
    FinishLedger(c, true, true, env);
    if s.bound && s.mode == Ours && !s.latched {
      SetSent(c, ReleaseIdled(gen));
      CallLedger(c, ReleaseIdled(gen), gen, env);
    }
  }

  lemma DoneLedger(c: Client, k: nat, reply: Reply, late: bool, env: Env)
    requires Ledger(c) && Exclusive(c) && Placed(c)
    requires IsRequest(c, k) && !IsRollback(c.log[k].role)
    ensures Ledger(Done(c, k, c.log[k].role, reply, late, env))
  {
    var role := c.log[k].role;
    var taken := c.(attempt := c.attempt.(rpc := None));
    FinishLedger(taken, false, true, env);
    if role.gen != c.generation || late || reply.Unusable? {
    } else if reply.Response? {
      FinishLedger(taken, reply.success, true, env);
      SwitchedReplyLedger(taken, role.gen, reply.success, env);
    } else {
      HeardLedger(taken, k, reply.status);
      var heard := taken.(log := taken.log + [Got(k, reply.status)]);
      match role
      case Checked(gen, own) => CheckedReplyLedger(heard, k, gen, own, reply.status, env);
      case Verified(gen) => VerifiedReplyLedger(heard, gen, reply.status, env);
      case ReleaseChecked(gen) => ReleaseCheckedReplyLedger(heard, k, gen, reply.status, env);
      case _ =>
    }
  }

  lemma RollbackStatusDoneLedger(c: Client, k: nat, token: nat, reply: Option<Status>, env: Env)
    requires Ledger(c) && IsRequest(c, k) && c.log[k].role == RollbackStatus(token)
    ensures Ledger(RollbackStatusDone(c, k, token, reply, env))
  {
    if reply.Some? {
      HeardLedger(c, k, reply.value);
      var heard := c.(log := c.log + [Got(k, reply.value)]);
      if reply.value.bound && reply.value.mode == Ours && !reply.value.latched {
        SetSent(heard, RollbackMode(token));
      }
    }
  }

  lemma SwitchAnsweredLedger(c: Client, k: nat, env: Env)
    requires Ledger(c)
    ensures Ledger(SwitchAnswered(c, k, env))
  {
    if k in c.rollback.answerToken {
      var cleared := ClearAnswered(c, k);
      ReadSent(cleared, RollbackStatus(c.rollback.answerToken[k]));
      BeginRollbackLedger(cleared, env);
    }
  }

  lemma BeginReleaseLedger(c: Client, env: Env)
    requires Ledger(c)
    ensures Ledger(BeginRelease(c, env).0)
  {
    FinishLedger(c, false, false, env);
    var canceled := Cancel(c, false, env);
    BeginRollbackLedger(canceled, env);
    if canceled.owned {
      assert !canceled.attempt.pending;
      ReadSent(Leave(canceled), ReleaseChecked(canceled.generation));
      CallLedger(Leave(canceled), ReleaseChecked(canceled.generation), canceled.generation, env);
    }
  }

  lemma NextLedger(w: World, e: Event)
    requires Inv(w) && Ledger(w.c) && Enabled(w, e)
    ensures Ledger(Next(w, e).c)
  {
    match e
    case CallAcquire(own, env) => AcquireLedger(w.c, false, own, env);
    case CallRelease(env) => BeginReleaseLedger(w.c, env);
    case CallCancel(env) => FinishLedger(w.c, false, true, env);
    case Notify(s, env) => ObserveLedger(w.c, s, env);
    case AttemptTimeout(gen, env) => FinishLedger(w.c, false, true, env);
    case FreshnessCheck(expired, env) => FinishLedger(w.c, false, true, env);
    case Deliver(k, usable, late, env) => DoneLedger(w.c, k, ReplyOf(w, k, usable), late, env);
    case AnswerSwitch(k, env) => SwitchAnsweredLedger(w.c, k, env);
    case DeliverRollback(k, usable, env) =>
      if w.c.log[k].role.RollbackStatus? {
        RollbackStatusDoneLedger(w.c, k, w.c.log[k].role.token, if usable then Some(w.rt.served[k]) else None, env);
      }
    case _ =>
  }
}
