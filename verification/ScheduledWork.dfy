/**
 The scheduled dispatcher's own work under a session: one logical request at a time with its retries,
 and two retained plan stores between which smoothing is toggled.
 */
module ScheduledWork {
  import opened Prelude
  import opened ChunkPlanning
  import opened Smoothing
  import opened Plans
  import opened Sessions

  datatype Config = Config(
    queue: Settings,
    smoother: Settings,
    planner: Planner,
    dimension: nat,
    maxRetries: nat,
    requestTimeout: int
  )

  /** The plain store fails closed when a chunk does not fit; requests get a positive timeout. */
  predicate ValidConfig(cfg: Config) {
    && ValidSettings(cfg.queue) && !cfg.queue.smoothed && cfg.queue.overflow == FailClosed
    && ValidSettings(cfg.smoother) && cfg.smoother.smoothed
    && cfg.requestTimeout > 0
  }

  datatype Inflight = Inflight(request: Option<nat>, deadline: int, observation: int)

  const NO_REQUEST := Inflight(None, 0, 0)

  datatype Key = Key(who: Identity, request: nat)

  datatype Work = Work(
    inflight: Inflight,
    lengthAtStart: int,
    queue: Plan,
    smoothed: Plan,
    smoothing: bool,
    received: set<Key>,
    lastAction: Option<Action>
  ) {
    function ActivePlan(): Plan {
      if smoothing then smoothed else queue
    }

    function Length(): nat {
      Remaining(ActivePlan())
    }
  }

  function NewWork(cfg: Config, smoothing: bool): Work {
    Work(NO_REQUEST, 0, NewPlan(cfg.queue, false), NewPlan(cfg.smoother, smoothing), smoothing, {}, None)
  }

  predicate ValidWork(cfg: Config, w: Work) {
    ValidConfig(cfg) && ValidPlan(cfg.queue, w.queue) && ValidPlan(cfg.smoother, w.smoothed)
  }

  // ---- Clearing --------------------------------------------------------------------------------------

  function ClearInflight(w: Work): Work {
    w.(inflight := NO_REQUEST)
  }

  function ClearPlans(cfg: Config, w: Work): Work {
    w.(queue := Clear(cfg.queue, w.queue), smoothed := Clear(cfg.smoother, w.smoothed))
  }

  // ---- Requests and retries ------------------------------------------------------------------------------

  predicate MayStart(active: bool, w: Work) {
    active && w.inflight.request.None?
  }

  /** A fresh logical request fixes the deadline and the observation time for all its retries. */
  function StartRequest(cfg: Config, active: bool, w: Work, id: nat, now: int, clock: int): Work {
    if !MayStart(active, w) then w
    else w.(inflight := Inflight(Some(id), now + cfg.requestTimeout, clock), lengthAtStart := w.Length())
  }

  datatype RetryOutcome = Abandoned | Superseded | Expired | Resent

  function RetryOutcomeOf(active: bool, w: Work, replaced: nat, now: int): RetryOutcome {
    if !active then Abandoned
    else if w.inflight.request != Some(replaced) then Superseded
    else if w.inflight.deadline <= now then Expired
    else Resent
  }

  /** A retry takes the place of the request it repeats. */
  function RetryRequest(active: bool, w: Work, replaced: nat, id: nat, now: int): Work {
    match RetryOutcomeOf(active, w, replaced, now)
    case Abandoned => if w.inflight.request == Some(replaced) then ClearInflight(w) else w
    case Superseded => w
    case Expired => w
    case Resent => w.(inflight := w.inflight.(request := Some(id)))
  }

  predicate RequestIsCurrent(l: Life, w: Work, request: nat, who: Identity) {
    l.state == Active && w.inflight.request == Some(request) && l.session.Is(who)
  }

  // ---- Results -------------------------------------------------------------------------------------------

  predicate ValidChunk(cfg: Config, actions: Chunk, reportedSize: int) {
    && actions.rank == 2 && |actions.rows| > 0 && actions.width == cfg.dimension
    && reportedSize == |actions.rows| && actions.finite
  }

  /** What the store has lost since the request was first sent. */
  function Executed(w: Work): int {
    Max(0, w.lengthAtStart - w.Length())
  }

  function Candidate(cfg: Config, w: Work, actions: Chunk, reportedSize: int, horizon: int)
    : Result<ChunkPlan, PlanError>
  {
    if !ValidChunk(cfg, actions, reportedSize) then Err(WrongDimension)
    else
      var checked := ValidateExecutionHorizon(Some(horizon), |actions.rows|);
      if checked.Err? then Err(checked.error) else PlanChunk(cfg.planner, actions, Executed(w), checked.value)
  }

  function SourceOf(key: Key): PlanSource {
    PlanSource(key.request, 0, key.who.session, key.who.generation)
  }

  function AcceptedPlan(cfg: Config, w: Work, key: Key, actions: Chunk, reportedSize: int, horizon: int)
    : Result<Plan, PlanError>
    requires ValidWork(cfg, w)
  {
    var candidate := Candidate(cfg, w, actions, reportedSize, horizon);
    if candidate.Err? then Err(candidate.error)
    else Accept(if w.smoothing then cfg.smoother else cfg.queue, w.ActivePlan(), candidate.value, SourceOf(key),
                Some(cfg.dimension))
  }

  /** The chunk enters the active store, its key is remembered and the request is over. */
  function Enqueue(w: Work, key: Key, plan: Plan): Work {
    ClearInflight(w).(queue := if w.smoothing then w.queue else plan,
                      smoothed := if w.smoothing then plan else w.smoothed,
                      received := w.received + {key})
  }

  // ---- Ticks and toggles ---------------------------------------------------------------------------------

  function ExecuteNext(active: bool, w: Work): Work {
    if !active then w
    else
      var taken := Take(w.ActivePlan(), w.lastAction);
      if taken.Nothing? then w
      else w.(queue := if w.smoothing then w.queue else AfterTake(w.queue),
              smoothed := if w.smoothing then AfterTake(w.smoothed) else w.smoothed,
              lastAction := Some(taken.action))
  }

  /** Switching the smoother off discards its plan; the length that a request started from moves along
      with the length of the store in use. */
  function Toggle(cfg: Config, w: Work): Work {
    var enabled := !w.smoothing;
    var kept := SetSmoothing(cfg.smoother, w.smoothed, enabled);
    var toggled := w.(smoothing := enabled, smoothed := if enabled then kept else Clear(cfg.smoother, kept));
    if w.inflight.request.None? then toggled
    else toggled.(lengthAtStart := w.lengthAtStart + toggled.Length() - w.Length())
  }
}

/** The scheduled dispatcher as a whole: its session lifecycle and its work. */
module ScheduledRuns {
  import opened Prelude
  import opened ChunkPlanning
  import opened Smoothing
  import opened Plans
  import opened Sessions
  import opened ScheduledWork
  import Lifecycle = SessionRuns

  datatype Scheduled = Scheduled(life: Life, work: Work)

  datatype Reply =
    | GoalRejected
    | OutcomeUnknown
    | WrongIdentity
    | NotStarted(retryable: bool)
    | Failed
    | Predicted(actions: Chunk, reportedSize: int, horizon: int)

  datatype ScheduledEvent =
    | LifeStep(ev: Lifecycle.Event)
    | RequestStarted(id: nat, now: int, clock: int)
    | RetryFired(replaced: nat, attempt: nat, id: nat, now: int)
    | ReplyArrived(request: nat, reply: Reply)
    | ActionExecuted
    | SmoothingToggled

  /** One sent request. Requests are numbered in the order in which they are sent. */
  datatype Send = Send(attempt: nat, deadline: int, observation: int, who: Identity)

  datatype Timer = Timer(request: nat, attempt: nat)

  datatype Acceptance = Acceptance(key: Key, start: int, executable: int, consumed: nat)

  /** What an observer writes down; `consumed` counts the actions executed since the logical request
      in flight was first sent. */
  datatype Ledger = Ledger(book: Lifecycle.Book, sends: seq<Send>, timers: set<Timer>, accepted: seq<Acceptance>,
                           consumed: nat)

  function Who(l: Life): Identity {
    Identity(l.session.id.GetOr(0), l.session.generation)
  }

  predicate Enabled(s: Scheduled, g: Ledger, ev: ScheduledEvent) {
    match ev
    case LifeStep(e) =>
      && Lifecycle.Enabled(s.life, g.book, e)
      && (e.FailureReported? ==> e.failure.request.None?)
      && (e.MailboxDrained? ==> MailStands(s))
      && (e.MailboxDropped? ==> !MailStands(s))
    case RequestStarted(id, _, _) => id == |g.sends|
    case RetryFired(replaced, attempt, id, _) => Timer(replaced, attempt) in g.timers && id == |g.sends|
    case ReplyArrived(request, _) => request < |g.sends|
    case _ => true
  }

  /** Mail about a request is void once that request is no longer in flight. */
  predicate MailStands(s: Scheduled) {
    s.life.mailbox.Some? && s.life.mailbox.value.request.Some? ==>
      s.work.inflight.request == s.life.mailbox.value.request
  }

  /** What a lifecycle step discards of the work. */
  function Discard(cfg: Config, l: Life, b: Lifecycle.Book, w: Work, ev: Lifecycle.Event): Work
    requires Lifecycle.Enabled(l, b, ev)
  {
    match ev
    case OpenBegins(_) => if MayOpen(l) then ClearPlans(cfg, ClearInflight(w)).(received := {}) else w
    case OpSafeStops(provider, ok) =>
      ClearPlans(cfg, ClearInflight(w)).(lastAction := if provider || ok then None else w.lastAction)
    case OpBeginsCloseSync => ClearPlans(cfg, ClearInflight(w))
    case OpCloses => ClearPlans(cfg, ClearInflight(w))
    case OpenFollowsUp(session) =>
      if b.chains[session].next.ThenClose? && l.session.Is(Identity(session, b.chains[session].next.generation))
      then ClearPlans(cfg, ClearInflight(w)) else w
    case OpFinishes(_) =>
      if l.op.kind == Restart then ClearPlans(cfg, w).(received := {}, lastAction := None) else w
    case RuntimeRevoked => ClearPlans(cfg, ClearInflight(w)).(lastAction := None)
    case _ => w
  }

  function FailCurrent(s: Scheduled, request: nat, who: Identity): Scheduled {
    if RequestIsCurrent(s.life, s.work, request, who)
    then s.(life := TryFailure(s.life, Failure(Some(request), who))) else s
  }

  predicate Takes(cfg: Config, s: Scheduled, request: nat, who: Identity, reply: Reply)
    requires ValidWork(cfg, s.work)
  {
    && RequestIsCurrent(s.life, s.work, request, who) && reply.Predicted?
    && Key(who, request) !in s.work.received
    && AcceptedPlan(cfg, s.work, Key(who, request), reply.actions, reply.reportedSize, reply.horizon).Ok?
  }

  /** A reply acts only while its request is the one in flight under the session it was sent for. */
  function Answer(cfg: Config, s: Scheduled, request: nat, sent: Send, reply: Reply): Scheduled
    requires ValidWork(cfg, s.work)
  {
    match reply
    case GoalRejected => FailCurrent(s, request, Who(s.life))
    case NotStarted(retryable) =>
      if retryable && sent.attempt < cfg.maxRetries then s else FailCurrent(s, request, Who(s.life))
    case Predicted(actions, reportedSize, horizon) =>
      if !RequestIsCurrent(s.life, s.work, request, sent.who) || Key(sent.who, request) in s.work.received then s
      else
        var key := Key(sent.who, request);
        var accepted := AcceptedPlan(cfg, s.work, key, actions, reportedSize, horizon);
        if accepted.Err? then FailCurrent(s, request, sent.who)
        else s.(work := Enqueue(s.work, key, accepted.value))
    case _ => FailCurrent(s, request, sent.who)
  }

  function Next(cfg: Config, s: Scheduled, g: Ledger, ev: ScheduledEvent): Scheduled
    requires ValidWork(cfg, s.work) && Enabled(s, g, ev)
  {
    var active := s.life.state == Active;
    match ev
    case LifeStep(e) => Scheduled(Lifecycle.Next(s.life, g.book, e), Discard(cfg, s.life, g.book, s.work, e))
    case RequestStarted(id, now, clock) => s.(work := StartRequest(cfg, active, s.work, id, now, clock))
    case RetryFired(replaced, _, id, now) =>
      if RetryOutcomeOf(active, s.work, replaced, now).Expired? then FailCurrent(s, replaced, Who(s.life))
      else s.(work := RetryRequest(active, s.work, replaced, id, now))
    case ReplyArrived(request, reply) => Answer(cfg, s, request, g.sends[request], reply)
    case ActionExecuted => s.(work := ExecuteNext(active, s.work))
    case SmoothingToggled => s.(work := Toggle(cfg, s.work))
  }

  // ---- The ledger ------------------------------------------------------------------------------------------

  /** The lifecycle step that a step of the whole amounts to. */
  function LifeEvent(cfg: Config, s: Scheduled, g: Ledger, ev: ScheduledEvent): Option<Lifecycle.Event>
    requires ValidWork(cfg, s.work) && Enabled(s, g, ev)
  {
    var next := Next(cfg, s, g, ev);
    match ev
    case LifeStep(e) => Some(e)
    case RetryFired(replaced, _, _, _) =>
      if next.life != s.life then Some(Lifecycle.FailureReported(Failure(Some(replaced), Who(s.life)))) else None
    case ReplyArrived(request, _) =>
      if next.life != s.life then Some(Lifecycle.FailureReported(Failure(Some(request), Who(s.life)))) else None
    case _ => None
  }

  function SendsNext(cfg: Config, s: Scheduled, g: Ledger, ev: ScheduledEvent): seq<Send> {
    var active := s.life.state == Active;
    match ev
    case RequestStarted(_, now, clock) =>
      if MayStart(active, s.work) then g.sends + [Send(0, now + cfg.requestTimeout, clock, Who(s.life))] else g.sends
    case RetryFired(replaced, attempt, _, now) =>
      if RetryOutcomeOf(active, s.work, replaced, now).Resent?
      then g.sends + [Send(attempt + 1, s.work.inflight.deadline, s.work.inflight.observation, Who(s.life))]
      else g.sends
    case _ => g.sends
  }

  function TimersNext(cfg: Config, g: Ledger, ev: ScheduledEvent): set<Timer>
    requires ev.ReplyArrived? ==> ev.request < |g.sends|
  {
    if ev.ReplyArrived? && ev.reply.NotStarted? && ev.reply.retryable
       && g.sends[ev.request].attempt < cfg.maxRetries
    then g.timers + {Timer(ev.request, g.sends[ev.request].attempt)} else g.timers
  }

  function AcceptedNext(cfg: Config, s: Scheduled, g: Ledger, ev: ScheduledEvent): seq<Acceptance>
    requires ValidWork(cfg, s.work) && Enabled(s, g, ev)
  {
    if ev.ReplyArrived? && Takes(cfg, s, ev.request, g.sends[ev.request].who, ev.reply) then
      var r := ev.reply;
      g.accepted + [Acceptance(Key(g.sends[ev.request].who, ev.request),
                               Candidate(cfg, s.work, r.actions, r.reportedSize, r.horizon).value.Start(),
                               Executable(cfg.planner, r.actions, Some(r.horizon)),
                               g.consumed)]
    else g.accepted
  }

  function ConsumedNext(s: Scheduled, g: Ledger, ev: ScheduledEvent): nat {
    match ev
    case RequestStarted(_, _, _) => if MayStart(s.life.state == Active, s.work) then 0 else g.consumed
    case ActionExecuted => if s.life.state == Active && s.work.Length() > 0 then g.consumed + 1 else g.consumed
    case _ => g.consumed
  }

  function Record(cfg: Config, s: Scheduled, g: Ledger, ev: ScheduledEvent): Ledger
    requires ValidWork(cfg, s.work) && Enabled(s, g, ev)
  {
    var e := LifeEvent(cfg, s, g, ev);
    Ledger(if e.Some? then Lifecycle.Record(s.life, g.book, e.value) else g.book,
           SendsNext(cfg, s, g, ev), TimersNext(cfg, g, ev), AcceptedNext(cfg, s, g, ev), ConsumedNext(s, g, ev))
  }
}
