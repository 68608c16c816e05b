/** The guarantees of the scheduled dispatcher, over every run. */
module ScheduledSafety {
  import opened Prelude
  import opened ChunkPlanning
  import opened Smoothing
  import opened Plans
  import opened Sessions
  import opened ScheduledWork
  import opened ScheduledRuns
  import Lifecycle = SessionRuns
  import LifeSafety = SessionSafety

  // ---- The invariant ---------------------------------------------------------------------------------

  /** The request in flight is the last one sent; it knows its deadline and observation, and what the
      active store has lost since it was first sent. */
  ghost predicate InflightOk(w: Work, sends: seq<Send>, consumed: nat) {
    w.inflight.request.Some? ==>
      && w.inflight.request.value == |sends| - 1
      && sends[|sends| - 1].deadline == w.inflight.deadline
      && sends[|sends| - 1].observation == w.inflight.observation
      && w.lengthAtStart - w.Length() == consumed
  }

  /** No request is in flight once an operation has frozen the output. */
  ghost predicate FrozenOk(s: Scheduled) {
    s.life.op.Held? && s.life.op.stage != Begun ==> s.work.inflight.request.None?
  }

  /** A retry directly follows the request it repeats, with the same deadline and observation time. */
  predicate SendOk(sends: seq<Send>, i: nat, maxRetries: nat)
    requires i < |sends|
  {
    && sends[i].attempt <= maxRetries && sends[i].attempt <= i
    && (sends[i].attempt > 0 ==>
          && sends[i].attempt == sends[i - 1].attempt + 1
          && sends[i].deadline == sends[i - 1].deadline && sends[i].observation == sends[i - 1].observation)
  }

  ghost predicate SendsOk(sends: seq<Send>, maxRetries: nat) {
    forall i: nat :: i < |sends| ==> SendOk(sends, i, maxRetries)
  }

  predicate TimerOk(t: Timer, sends: seq<Send>, maxRetries: nat) {
    t.request < |sends| && sends[t.request].attempt == t.attempt < maxRetries
  }

  ghost predicate AcceptedOk(accepted: seq<Acceptance>, inflight: Option<nat>, sent: nat) {
    && (forall i: nat :: i < |accepted| ==> accepted[i].key.request < sent
                                            && accepted[i].start == Min(accepted[i].consumed, accepted[i].executable))
    && (forall i: nat, j: nat :: i < j < |accepted| ==> accepted[i].key.request < accepted[j].key.request)
    && (inflight.Some? ==> forall i: nat :: i < |accepted| ==> accepted[i].key.request < inflight.value)
  }

  ghost predicate WorkOk(cfg: Config, s: Scheduled, g: Ledger) {
    && ValidWork(cfg, s.work)
    && InflightOk(s.work, g.sends, g.consumed)
    && FrozenOk(s)
    && SendsOk(g.sends, cfg.maxRetries)
    && (forall t :: t in g.timers ==> TimerOk(t, g.sends, cfg.maxRetries))
    && AcceptedOk(g.accepted, s.work.inflight.request, |g.sends|)
  }

  ghost predicate ScheduledOk(cfg: Config, s: Scheduled, g: Ledger) {
    WorkOk(cfg, s, g) && Lifecycle.Inv(s.life, g.book)
  }

  // ---- The lifecycle part ------------------------------------------------------------------------------

  lemma FailureIsLifeStep(s: Scheduled, request: nat, who: Identity)
    ensures FailCurrent(s, request, who).work == s.work
    ensures FailCurrent(s, request, who).life != s.life ==>
              who == Who(s.life)
              && FailCurrent(s, request, who).life == TryFailure(s.life, Failure(Some(request), Who(s.life)))
  {
  }

  /** Seen from the lifecycle, every step is a lifecycle step or none. */
  lemma StepsProject(cfg: Config, s: Scheduled, g: Ledger, ev: ScheduledEvent)
    requires ValidWork(cfg, s.work) && Enabled(s, g, ev)
    ensures var e := LifeEvent(cfg, s, g, ev);
            if e.Some? then Lifecycle.Enabled(s.life, g.book, e.value)
                            && Next(cfg, s, g, ev).life == Lifecycle.Next(s.life, g.book, e.value)
            else Next(cfg, s, g, ev).life == s.life
    ensures var e := LifeEvent(cfg, s, g, ev);
            Record(cfg, s, g, ev).book == if e.Some? then Lifecycle.Record(s.life, g.book, e.value) else g.book
  {
    match ev
    case RetryFired(replaced, _, _, _) => FailureIsLifeStep(s, replaced, Who(s.life));
    case ReplyArrived(request, reply) =>
      FailureIsLifeStep(s, request, Who(s.life));
      FailureIsLifeStep(s, request, g.sends[request].who);
    case _ =>
  }

  // ---- The work part --------------------------------------------------------------------------------------

  /** A lifecycle step either ends the request in flight or leaves everything about it alone. */
  lemma DiscardsWhole(cfg: Config, s: Scheduled, g: Ledger, e: Lifecycle.Event)
    requires ScheduledOk(cfg, s, g) && Enabled(s, g, LifeStep(e))
    ensures var w := Discard(cfg, s.life, g.book, s.work, e);
            && ValidWork(cfg, w)
            && (w.inflight.request.None?
                || (w.inflight == s.work.inflight && w.lengthAtStart == s.work.lengthAtStart
                    && w.Length() == s.work.Length()))
  {
  }

  lemma LifeStepKeepsWork(cfg: Config, s: Scheduled, g: Ledger, e: Lifecycle.Event)
    requires ScheduledOk(cfg, s, g) && Enabled(s, g, LifeStep(e))
    ensures WorkOk(cfg, Next(cfg, s, g, LifeStep(e)), Record(cfg, s, g, LifeStep(e)))
  {
    DiscardsWhole(cfg, s, g, e);
    assert FrozenOk(Next(cfg, s, g, LifeStep(e)));
  }

  lemma StartKeeps(cfg: Config, s: Scheduled, g: Ledger, id: nat, now: int, clock: int)
    requires ScheduledOk(cfg, s, g) && Enabled(s, g, RequestStarted(id, now, clock))
    ensures WorkOk(cfg, Next(cfg, s, g, RequestStarted(id, now, clock)), Record(cfg, s, g, RequestStarted(id, now, clock)))
  {
    var ev := RequestStarted(id, now, clock);
    SentKeeps(cfg, g, SendsNext(cfg, s, g, ev));
  }

  lemma SentKeeps(cfg: Config, g: Ledger, sends: seq<Send>)
    requires SendsOk(g.sends, cfg.maxRetries) && g.sends <= sends && |sends| <= |g.sends| + 1
    requires forall t :: t in g.timers ==> TimerOk(t, g.sends, cfg.maxRetries)
    requires |sends| > |g.sends| ==> SendOk(sends, |g.sends|, cfg.maxRetries)
    ensures SendsOk(sends, cfg.maxRetries)
    ensures forall t :: t in g.timers ==> TimerOk(t, sends, cfg.maxRetries)
  {
    forall i: nat | i < |sends|
      ensures SendOk(sends, i, cfg.maxRetries)
    {
      assert i < |g.sends| ==> SendOk(g.sends, i, cfg.maxRetries);
    }
    forall t | t in g.timers
      ensures TimerOk(t, sends, cfg.maxRetries)
    {
      assert TimerOk(t, g.sends, cfg.maxRetries);
    }
  }

  lemma RetryKeeps(cfg: Config, s: Scheduled, g: Ledger, replaced: nat, attempt: nat, id: nat, now: int)
    requires ScheduledOk(cfg, s, g) && Enabled(s, g, RetryFired(replaced, attempt, id, now))
    ensures var ev := RetryFired(replaced, attempt, id, now);
            WorkOk(cfg, Next(cfg, s, g, ev), Record(cfg, s, g, ev))
  {
    var ev := RetryFired(replaced, attempt, id, now);
    assert TimerOk(Timer(replaced, attempt), g.sends, cfg.maxRetries);
    assert SendOk(g.sends, replaced, cfg.maxRetries);
    SentKeeps(cfg, g, SendsNext(cfg, s, g, ev));
    FailureKeepsFrozen(s, replaced, Who(s.life));
  }

  /** A failure cannot find an operation past its freeze with a request in flight. */
  lemma FailureKeepsFrozen(s: Scheduled, request: nat, who: Identity)
    requires FrozenOk(s)
    ensures FrozenOk(FailCurrent(s, request, who))
  {
  }

  lemma ReplyKeeps(cfg: Config, s: Scheduled, g: Ledger, request: nat, reply: Reply)
    requires ScheduledOk(cfg, s, g) && Enabled(s, g, ReplyArrived(request, reply))
    ensures var ev := ReplyArrived(request, reply); WorkOk(cfg, Next(cfg, s, g, ev), Record(cfg, s, g, ev))
  {
    var ev := ReplyArrived(request, reply);
    var sent := g.sends[request];
    FailureIsLifeStep(s, request, Who(s.life));
    FailureIsLifeStep(s, request, sent.who);
    FailureKeepsFrozen(s, request, Who(s.life));
    FailureKeepsFrozen(s, request, sent.who);
    if Takes(cfg, s, request, sent.who, reply) {
      TakeKeeps(cfg, s, g, request, reply);
    } else {
      assert Next(cfg, s, g, ev).work == s.work;
    }
  }

  /** An accepted chunk starts at the number of actions executed since its request was first sent. */
  lemma CandidateStarts(cfg: Config, s: Scheduled, g: Ledger, request: nat, r: Reply)
    requires ScheduledOk(cfg, s, g) && request < |g.sends| && Takes(cfg, s, request, g.sends[request].who, r)
    ensures Candidate(cfg, s.work, r.actions, r.reportedSize, r.horizon).Ok?
    ensures var plan := Candidate(cfg, s.work, r.actions, r.reportedSize, r.horizon).value;
            && plan.Start() == Min(g.consumed, plan.Stop())
            && plan.Stop() == Executable(cfg.planner, r.actions, Some(r.horizon))
  {
    var checked := ValidateExecutionHorizon(Some(r.horizon), |r.actions.rows|).value;
    PlanStartsAtExecuted(cfg.planner, r.actions, Executed(s.work), checked);
  }

  lemma TakeKeeps(cfg: Config, s: Scheduled, g: Ledger, request: nat, reply: Reply)
    requires ScheduledOk(cfg, s, g) && Enabled(s, g, ReplyArrived(request, reply))
    requires Takes(cfg, s, request, g.sends[request].who, reply)
    ensures var ev := ReplyArrived(request, reply); WorkOk(cfg, Next(cfg, s, g, ev), Record(cfg, s, g, ev))
  {
    CandidateStarts(cfg, s, g, request, reply);
  }

  lemma TickKeeps(cfg: Config, s: Scheduled, g: Ledger, ev: ScheduledEvent)
    requires ScheduledOk(cfg, s, g) && (ev.ActionExecuted? || ev.SmoothingToggled?)
    ensures WorkOk(cfg, Next(cfg, s, g, ev), Record(cfg, s, g, ev))
  {
  }

  lemma NextKeeps(cfg: Config, s: Scheduled, g: Ledger, ev: ScheduledEvent)
    requires ScheduledOk(cfg, s, g) && Enabled(s, g, ev)
    ensures ScheduledOk(cfg, Next(cfg, s, g, ev), Record(cfg, s, g, ev))
  {
    StepsProject(cfg, s, g, ev);
    var e := LifeEvent(cfg, s, g, ev);
    if e.Some? {
      LifeSafety.NextKeeps(s.life, g.book, e.value);
    }
    match ev
    case LifeStep(e) => LifeStepKeepsWork(cfg, s, g, e);
    case RequestStarted(id, now, clock) => StartKeeps(cfg, s, g, id, now, clock);
    case RetryFired(replaced, attempt, id, now) => RetryKeeps(cfg, s, g, replaced, attempt, id, now);
    case ReplyArrived(request, reply) => ReplyKeeps(cfg, s, g, request, reply);
    case _ => TickKeeps(cfg, s, g, ev);
  }

  // ---- Every run --------------------------------------------------------------------------------------------

  ghost predicate IsRun(cfg: Config, ss: seq<Scheduled>, gs: seq<Ledger>, evs: seq<ScheduledEvent>) {
    && ValidConfig(cfg)
    && |ss| == |gs| == |evs| + 1
    && ss[0] == Scheduled(Sessions.INITIAL, NewWork(cfg, ss[0].work.smoothing))
    && gs[0] == Ledger(Lifecycle.EMPTY_BOOK, [], {}, [], 0)
    && (forall i {:trigger evs[i]} :: 0 <= i < |evs| ==>
          && ValidWork(cfg, ss[i].work) && Enabled(ss[i], gs[i], evs[i])
          && ss[i + 1] == Next(cfg, ss[i], gs[i], evs[i]) && gs[i + 1] == Record(cfg, ss[i], gs[i], evs[i]))
  }

  lemma {:induction false} Reachable(cfg: Config, ss: seq<Scheduled>, gs: seq<Ledger>, evs: seq<ScheduledEvent>, n: nat)
    requires IsRun(cfg, ss, gs, evs) && n < |ss|
    ensures ScheduledOk(cfg, ss[n], gs[n])
  {
    if n > 0 {
      Reachable(cfg, ss, gs, evs, n - 1);
      NextKeeps(cfg, ss[n - 1], gs[n - 1], evs[n - 1]);
    }
  }

  /** While a request is in flight, the length it started from exceeds that of the active store by the
      actions executed since it was first sent, across ticks, retries and toggles between the stores. */
  lemma RequestRelativeAlignment(cfg: Config, ss: seq<Scheduled>, gs: seq<Ledger>, evs: seq<ScheduledEvent>, n: nat)
    requires IsRun(cfg, ss, gs, evs) && n < |ss| && ss[n].work.inflight.request.Some?
    ensures ss[n].work.lengthAtStart - ss[n].work.Length() == gs[n].consumed
  {
    Reachable(cfg, ss, gs, evs, n);
  }

  /** So the plan that an accepted reply installs starts at that count, capped at the usable length. */
  lemma AcceptedChunkStartsAtConsumed(cfg: Config, ss: seq<Scheduled>, gs: seq<Ledger>, evs: seq<ScheduledEvent>,
                                      n: nat, request: nat, r: Reply)
    requires IsRun(cfg, ss, gs, evs) && n < |evs| && evs[n] == ReplyArrived(request, r)
    requires ValidWork(cfg, ss[n].work) && request < |gs[n].sends|
    requires Takes(cfg, ss[n], request, gs[n].sends[request].who, r)
    ensures var executable := Executable(cfg.planner, r.actions, Some(r.horizon));
            var start := Min(gs[n].consumed, executable);
            && ss[n + 1].work.Length() == executable - start <= |r.actions.rows|
            && (!ss[n].work.smoothing ==> ss[n + 1].work.queue.store.actions == r.actions.rows[start..executable])
            && ss[n + 1].work.ActivePlan().source == Some(SourceOf(Key(gs[n].sends[request].who, request)))
  {
    Reachable(cfg, ss, gs, evs, n);
    CandidateStarts(cfg, ss[n], gs[n], request, r);
    assert ss[n + 1] == Next(cfg, ss[n], gs[n], evs[n]);
  }

  /** No request enters a plan twice. */
  lemma AcceptedOnce(cfg: Config, ss: seq<Scheduled>, gs: seq<Ledger>, evs: seq<ScheduledEvent>, n: nat, i: nat, j: nat)
    requires IsRun(cfg, ss, gs, evs) && n < |ss| && i < j < |gs[n].accepted|
    ensures gs[n].accepted[i].key != gs[n].accepted[j].key
    ensures gs[n].accepted[i].key.request < gs[n].accepted[j].key.request
  {
    Reachable(cfg, ss, gs, evs, n);
  }

  /** All sends of one logical request stand in a row, with one deadline and one observation time. */
  lemma {:induction false} RetriesAgree(sends: seq<Send>, maxRetries: nat, i: nat, k: nat)
    requires SendsOk(sends, maxRetries) && i < |sends| && k <= sends[i].attempt
    ensures k <= i && sends[i - k].attempt == sends[i].attempt - k
    ensures sends[i - k].deadline == sends[i].deadline && sends[i - k].observation == sends[i].observation
  {
    assert SendOk(sends, i, maxRetries);
    if k > 0 {
      RetriesAgree(sends, maxRetries, i, k - 1);
      assert SendOk(sends, i - (k - 1), maxRetries);
    }
  }

  /** The first send of the logical request that send `i` belongs to. */
  function Root(sends: seq<Send>, i: nat): int
    requires i < |sends|
  {
    i - sends[i].attempt
  }

  /** One logical request is sent at most once more than the retries allowed: any two of its sends are
      that close together, share deadline and observation time, and the first has attempt zero. */
  lemma BoundedRetry(cfg: Config, ss: seq<Scheduled>, gs: seq<Ledger>, evs: seq<ScheduledEvent>, n: nat, i: nat, j: nat)
    requires IsRun(cfg, ss, gs, evs) && n < |ss| && i <= j < |gs[n].sends|
    requires Root(gs[n].sends, i) == Root(gs[n].sends, j)
    ensures 0 <= Root(gs[n].sends, i) && gs[n].sends[Root(gs[n].sends, i)].attempt == 0
    ensures j < Root(gs[n].sends, i) + cfg.maxRetries + 1
    ensures gs[n].sends[i].deadline == gs[n].sends[j].deadline
    ensures gs[n].sends[i].observation == gs[n].sends[j].observation
  {
    Reachable(cfg, ss, gs, evs, n);
    var sends := gs[n].sends;
    assert SendOk(sends, j, cfg.maxRetries);
    RetriesAgree(sends, cfg.maxRetries, j, j - i);
    RetriesAgree(sends, cfg.maxRetries, i, sends[i].attempt);
  }

  lemma {:induction false} NotCurrentAgain(cfg: Config, ss: seq<Scheduled>, gs: seq<Ledger>, evs: seq<ScheduledEvent>,
                                           i: nat, n: nat, request: nat)
    requires IsRun(cfg, ss, gs, evs) && i <= n < |ss|
    requires request < |gs[i].sends| && ss[i].work.inflight.request != Some(request)
    ensures request < |gs[n].sends| && ss[n].work.inflight.request != Some(request)
    ensures gs[i].sends <= gs[n].sends
  {
    if i < n {
      NotCurrentAgain(cfg, ss, gs, evs, i, n - 1, request);
      StaysGone(cfg, ss[n - 1], gs[n - 1], evs[n - 1], request);
    }
  }

  lemma StaysGone(cfg: Config, s: Scheduled, g: Ledger, ev: ScheduledEvent, request: nat)
    requires ValidWork(cfg, s.work) && Enabled(s, g, ev)
    requires request < |g.sends| && s.work.inflight.request != Some(request)
    ensures Next(cfg, s, g, ev).work.inflight.request != Some(request)
    ensures g.sends <= Record(cfg, s, g, ev).sends
  {
  }

  /** Once a request was replaced, answered or dropped, no reply to it changes anything. */
  lemma ReplacedRequestsAreIgnored(cfg: Config, ss: seq<Scheduled>, gs: seq<Ledger>, evs: seq<ScheduledEvent>,
                                   i: nat, n: nat, request: nat)
    requires IsRun(cfg, ss, gs, evs) && i <= n < |evs|
    requires request < |gs[i].sends| && ss[i].work.inflight.request != Some(request)
    requires evs[n].ReplyArrived? && evs[n].request == request
    ensures ss[n + 1] == ss[n]
  {
    NotCurrentAgain(cfg, ss, gs, evs, i, n, request);
    assert ss[n + 1] == Next(cfg, ss[n], gs[n], evs[n]);
  }

  /** Actions are executed, requests sent and chunks accepted only in an active session. */
  lemma WorkOnlyWhileActive(cfg: Config, ss: seq<Scheduled>, gs: seq<Ledger>, evs: seq<ScheduledEvent>, n: nat)
    requires IsRun(cfg, ss, gs, evs) && n < |evs| && ss[n].life.state != Active
    ensures gs[n + 1].sends == gs[n].sends && gs[n + 1].accepted == gs[n].accepted
    ensures evs[n].ActionExecuted? ==> ss[n + 1] == ss[n]
    ensures ss[n + 1].work.Length() > ss[n].work.Length() ==> evs[n].SmoothingToggled?
  {
    assert gs[n + 1] == Record(cfg, ss[n], gs[n], evs[n]);
  }

  // ---- The lifecycle guarantees hold of the whole -------------------------------------------------------------

  /** The lifecycle steps of a run of the whole are a run of the session lifecycle. */
  lemma {:induction false} RunsProject(cfg: Config, ss: seq<Scheduled>, gs: seq<Ledger>, evs: seq<ScheduledEvent>, n: nat)
    returns (ls: seq<Life>, bs: seq<Lifecycle.Book>, es: seq<Lifecycle.Event>)
    requires IsRun(cfg, ss, gs, evs) && n < |ss|
    ensures LifeSafety.IsRun(ls, bs, es)
    ensures ls[|ls| - 1] == ss[n].life && bs[|bs| - 1] == gs[n].book
  {
    if n == 0 {
      ls, bs, es := [ss[0].life], [gs[0].book], [];
    } else {
      ls, bs, es := RunsProject(cfg, ss, gs, evs, n - 1);
      StepsProject(cfg, ss[n - 1], gs[n - 1], evs[n - 1]);
      var e := LifeEvent(cfg, ss[n - 1], gs[n - 1], evs[n - 1]);
      if e.Some? {
        LifeSafety.RunExtends(ls, bs, es, e.value);
        ls, bs, es := ls + [ss[n].life], bs + [gs[n].book], es + [e.value];
      }
    }
  }

  /** So an active dispatcher has a session that no close was sent for, and every close that was sent
      names its session under the generation it was granted. */
  lemma ActiveSessionIsNotBeingClosed(cfg: Config, ss: seq<Scheduled>, gs: seq<Ledger>, evs: seq<ScheduledEvent>, n: nat,
                                      who: Identity)
    requires IsRun(cfg, ss, gs, evs) && n < |ss|
    ensures ss[n].life.state == Active ==> ss[n].life.session.id.Some? && ss[n].life.session.generation > 0
    ensures who in gs[n].book.closes ==>
              && !(ss[n].life.state == Active && ss[n].life.session.id == Some(who.session))
              && (who.generation > 0 ==> who.session in gs[n].book.granted
                                         && gs[n].book.granted[who.session] == who.generation)
  {
    var ls, bs, es := RunsProject(cfg, ss, gs, evs, n);
    LifeSafety.StatesMeanSessions(ls, bs, es, |ls| - 1);
    if who in gs[n].book.closes {
      LifeSafety.ClosesNameOwnGeneration(ls, bs, es, |ls| - 1, who);
    }
  }
}
