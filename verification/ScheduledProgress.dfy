/**
 What each reply, retry and tick of the scheduled dispatcher leads to: when a request goes out again, when its
 chunk is taken, when its session fails, and which action is executed.
 */
module ScheduledProgress {
  import opened Prelude
  import opened ChunkPlanning
  import opened Smoothing
  import opened Plans
  import opened PlanRuns
  import opened Sessions
  import opened ScheduledWork
  import opened ScheduledRuns
  import opened ScheduledSafety
  import Lifecycle = SessionRuns
  import LifeProgress = SessionProgress

  // ---- Requests and retries ------------------------------------------------------------------------------

  /** An active dispatcher with no request in flight starts one: its deadline is one timeout away, and from here on
      its executed actions are counted. In any other state nothing is sent. */
  lemma RequestVerdict(cfg: Config, ss: seq<Scheduled>, gs: seq<Ledger>, evs: seq<ScheduledEvent>, n: nat,
                       id: nat, now: int, clock: int)
    requires IsRun(cfg, ss, gs, evs) && n < |evs| && evs[n] == RequestStarted(id, now, clock)
    ensures var s, s' := ss[n], ss[n + 1];
            if s.life.state == Active && s.work.inflight.request.None? then
              && s'.work == s.work.(inflight := Inflight(Some(id), now + cfg.requestTimeout, clock),
                                    lengthAtStart := Remaining(s.work.ActivePlan()))
              && s'.life == s.life && gs[n + 1].consumed == 0
              && gs[n + 1].sends == gs[n].sends + [Send(0, now + cfg.requestTimeout, clock, Who(s.life))]
            else
              s' == s && gs[n + 1].sends == gs[n].sends
  {
    assert ss[n + 1] == Next(cfg, ss[n], gs[n], evs[n]) && gs[n + 1] == Record(cfg, ss[n], gs[n], evs[n]);
  }

  /** A retry of the request in flight takes its place with the same deadline, observation time and count, unless
      the deadline has passed: then the session fails. A retry of any other request is void. */
  lemma RetryVerdict(cfg: Config, ss: seq<Scheduled>, gs: seq<Ledger>, evs: seq<ScheduledEvent>, n: nat,
                     replaced: nat, attempt: nat, id: nat, now: int)
    requires IsRun(cfg, ss, gs, evs) && n < |evs| && evs[n] == RetryFired(replaced, attempt, id, now)
    ensures var s, s' := ss[n], ss[n + 1];
            if s.work.inflight.request != Some(replaced) then s' == s && gs[n + 1].sends == gs[n].sends
            else if s.life.state != Active then
              s'.life == s.life && s'.work == s.work.(inflight := NO_REQUEST) && gs[n + 1].sends == gs[n].sends
            else if s.work.inflight.deadline <= now then
              s'.work == s.work && Fails(s, s', replaced) && gs[n + 1].sends == gs[n].sends
            else
              && s'.life == s.life && s'.work == s.work.(inflight := s.work.inflight.(request := Some(id)))
              && gs[n + 1].consumed == gs[n].consumed
              && gs[n + 1].sends == gs[n].sends + [Send(attempt + 1, s.work.inflight.deadline,
                                                        s.work.inflight.observation, Who(s.life))]
  {
    Reachable(cfg, ss, gs, evs, n);
    assert ss[n + 1] == Next(cfg, ss[n], gs[n], evs[n]) && gs[n + 1] == Record(cfg, ss[n], gs[n], evs[n]);
  }

  /** The failure of this request is taken up: its session is frozen and being failed, or it will be once the
      operation that holds the lock has ended. */
  predicate Fails(s: Scheduled, s': Scheduled, request: nat) {
    var failure := Failure(Some(request), Who(s.life));
    if s.life.op == Free then s'.life == s.life.(state := Closing, op := Held(Fail, true, Begun))
    else s'.life == s.life.(mailbox := Some(failure))
  }

  // ---- Replies ---------------------------------------------------------------------------------------------

  /** The request is the one in flight, in the active session that it was sent for. */
  predicate Expected(s: Scheduled, g: Ledger, request: nat)
    requires request < |g.sends|
  {
    && s.life.state == Active && s.work.inflight.request == Some(request)
    && s.life.session == Session(Some(g.sends[request].who.session), g.sends[request].who.generation)
  }

  /** A reply that the request did not start leaves session, request and plans as they are and sets the timer of
      its next retry, as long as it may be retried; every other reply that is no chunk fails the session. */
  lemma RefusalVerdict(cfg: Config, ss: seq<Scheduled>, gs: seq<Ledger>, evs: seq<ScheduledEvent>, n: nat,
                       request: nat, reply: Reply)
    requires IsRun(cfg, ss, gs, evs) && n < |evs| && evs[n] == ReplyArrived(request, reply)
    requires request < |gs[n].sends| && Expected(ss[n], gs[n], request) && !reply.Predicted?
    ensures if reply == ScheduledRuns.Reply.NotStarted(true) && gs[n].sends[request].attempt < cfg.maxRetries then
              ss[n + 1] == ss[n] && Timer(request, gs[n].sends[request].attempt) in gs[n + 1].timers
            else
              ss[n + 1].work == ss[n].work && Fails(ss[n], ss[n + 1], request)
  {
    Reachable(cfg, ss, gs, evs, n);
    assert ss[n + 1] == Next(cfg, ss[n], gs[n], evs[n]) && gs[n + 1] == Record(cfg, ss[n], gs[n], evs[n]);
  }

  /** A chunk that the store in use can take: a finite nonempty matrix of the right width and of the size reported,
      with a horizon within it; and from the first action not yet executed, a plain store has room for it, and for a
      smoother its rows have one width, that of the plan they would be combined with. */
  predicate Acceptable(cfg: Config, w: Work, consumed: nat, actions: Chunk, reportedSize: int, horizon: int) {
    && actions.rank == 2 && |actions.rows| > 0 && actions.width == cfg.dimension > 0 && actions.finite
    && reportedSize == |actions.rows| && 0 <= horizon <= |actions.rows|
    && var rest := Rest(cfg, consumed, actions, horizon);
    && (if w.smoothing then
          && (forall k :: 0 <= k < |rest| ==> |rest[k]| == |rest[0]|)
          && (|rest| > 0 && Remaining(w.smoothed) > 0 ==> |rest[0]| == |w.smoothed.store.actions[0]|)
        else |rest| <= cfg.queue.capacity)
  }

  /** What is still to be executed of a chunk. */
  function Rest(cfg: Config, consumed: nat, actions: Chunk, horizon: int): seq<Action>
    requires 0 <= horizon <= |actions.rows|
  {
    var stop := Executable(cfg.planner, actions, Some(horizon));
    actions.rows[Min(consumed, stop)..stop]
  }

  /** No chunk of the request in flight was taken yet. */
  ghost predicate NotYetReceived(w: Work, sends: nat) {
    forall key :: key in w.received ==>
      key.request < sends && (w.inflight.request.Some? ==> key.request < w.inflight.request.value)
  }

  lemma ReceivedStep(cfg: Config, s: Scheduled, g: Ledger, ev: ScheduledEvent)
    requires ScheduledOk(cfg, s, g) && Enabled(s, g, ev) && NotYetReceived(s.work, |g.sends|)
    ensures NotYetReceived(Next(cfg, s, g, ev).work, |Record(cfg, s, g, ev).sends|)
  {
    match ev
    case LifeStep(e) => DiscardsReceived(cfg, s, g, e);
    case ReplyArrived(request, reply) => ReplyReceives(cfg, s, request, g.sends[request], reply, |g.sends|);
    case _ =>
  }

  lemma DiscardsReceived(cfg: Config, s: Scheduled, g: Ledger, e: Lifecycle.Event)
    requires Enabled(s, g, LifeStep(e)) && NotYetReceived(s.work, |g.sends|)
    ensures NotYetReceived(Discard(cfg, s.life, g.book, s.work, e), |g.sends|)
  {
  }

  lemma ReplyReceives(cfg: Config, s: Scheduled, request: nat, sent: Send, reply: Reply, sends: nat)
    requires ValidWork(cfg, s.work) && NotYetReceived(s.work, sends) && request < sends
    ensures NotYetReceived(Answer(cfg, s, request, sent, reply).work, sends)
  {
  }

  lemma {:induction false} ReceivedAreOver(cfg: Config, ss: seq<Scheduled>, gs: seq<Ledger>, evs: seq<ScheduledEvent>, n: nat)
    requires IsRun(cfg, ss, gs, evs) && n < |ss|
    ensures NotYetReceived(ss[n].work, |gs[n].sends|)
  {
    if n > 0 {
      ReceivedAreOver(cfg, ss, gs, evs, n - 1);
      Reachable(cfg, ss, gs, evs, n - 1);
      ReceivedStep(cfg, ss[n - 1], gs[n - 1], evs[n - 1]);
    }
  }

  /** The smoother smooths exactly while it is in use. */
  lemma {:induction false} SmootherInUse(cfg: Config, ss: seq<Scheduled>, gs: seq<Ledger>, evs: seq<ScheduledEvent>, n: nat)
    requires IsRun(cfg, ss, gs, evs) && n < |ss|
    ensures ss[n].work.smoothed.enabled == ss[n].work.smoothing
  {
    if n > 0 {
      SmootherInUse(cfg, ss, gs, evs, n - 1);
      SmootherStep(cfg, ss[n - 1], gs[n - 1], evs[n - 1]);
    }
  }

  lemma SmootherStep(cfg: Config, s: Scheduled, g: Ledger, ev: ScheduledEvent)
    requires ValidWork(cfg, s.work) && Enabled(s, g, ev) && s.work.smoothed.enabled == s.work.smoothing
    ensures Next(cfg, s, g, ev).work.smoothed.enabled == Next(cfg, s, g, ev).work.smoothing
  {
  }

  /** The chunk of the expected request is taken into the store in use exactly if that store can take it: the request
      is over, and the plan is what is still to be executed of the chunk, combined with the old plan only by a
      smoother that has one. Any other chunk fails the session. */
  lemma ChunkVerdict(cfg: Config, ss: seq<Scheduled>, gs: seq<Ledger>, evs: seq<ScheduledEvent>, n: nat,
                     request: nat, actions: Chunk, reportedSize: int, horizon: int)
    requires IsRun(cfg, ss, gs, evs) && n < |evs| && evs[n] == ReplyArrived(request, Predicted(actions, reportedSize, horizon))
    requires request < |gs[n].sends| && Expected(ss[n], gs[n], request)
    ensures ChunkMeans(cfg, ss[n], ss[n + 1], gs[n].consumed, request, actions, reportedSize, horizon)
    ensures |gs[n + 1].accepted| == |gs[n].accepted|
                                    + if Acceptable(cfg, ss[n].work, gs[n].consumed, actions, reportedSize, horizon) then 1 else 0
  {
    Reachable(cfg, ss, gs, evs, n);
    ReceivedAreOver(cfg, ss, gs, evs, n);
    SmootherInUse(cfg, ss, gs, evs, n);
    assert ss[n + 1] == Next(cfg, ss[n], gs[n], evs[n]) && gs[n + 1] == Record(cfg, ss[n], gs[n], evs[n]);
    AcceptableIff(cfg, ss[n], gs[n].consumed, Key(gs[n].sends[request].who, request), actions, reportedSize, horizon);
    AnswerVerdict(cfg, ss[n], gs[n].consumed, request, gs[n].sends[request], actions, reportedSize, horizon);
  }

  /** What this chunk means for a dispatcher that expects it. */
  predicate ChunkMeans(cfg: Config, s: Scheduled, s': Scheduled, consumed: nat, request: nat,
                       actions: Chunk, reportedSize: int, horizon: int)
  {
    if Acceptable(cfg, s.work, consumed, actions, reportedSize, horizon) then
      && s'.life == s.life && s'.work.inflight == NO_REQUEST && s'.work.lastAction == s.work.lastAction
      && s'.work.received == s.work.received + {Key(Who(s.life), request)}
      && Holds(s.work, s'.work, Rest(cfg, consumed, actions, horizon))
    else
      s'.work == s.work && Fails(s, s', request)
  }

  /** These rows are now the plan in use, or have been combined with it; the other store is as it was. */
  predicate Holds(w: Work, w': Work, rest: seq<Action>) {
    && w'.smoothing == w.smoothing && (if w.smoothing then w'.queue == w.queue else w'.smoothed == w.smoothed)
    && Remaining(w'.ActivePlan()) == |rest|
    && (!w.smoothing || Remaining(w.smoothed) == 0 ==> w'.ActivePlan().store.actions == rest)
  }

  lemma AcceptableIff(cfg: Config, s: Scheduled, consumed: nat, key: Key, actions: Chunk, reportedSize: int, horizon: int)
    requires ValidWork(cfg, s.work) && ScheduledWork.Executed(s.work) == consumed
    requires s.work.smoothing ==> s.work.smoothed.enabled
    ensures var r := AcceptedPlan(cfg, s.work, key, actions, reportedSize, horizon);
            && (r.Ok? <==> Acceptable(cfg, s.work, consumed, actions, reportedSize, horizon))
            && (r.Ok? ==>
                  && Remaining(r.value) == |Rest(cfg, consumed, actions, horizon)|
                  && (!s.work.smoothing || Remaining(s.work.smoothed) == 0 ==>
                        r.value.store.actions == Rest(cfg, consumed, actions, horizon)))
  {
    var candidate := Candidate(cfg, s.work, actions, reportedSize, horizon);
    if ValidChunk(cfg, actions, reportedSize) && ValidateExecutionHorizon(Some(horizon), |actions.rows|).Ok? {
      PlanStartsAtExecuted(cfg.planner, actions, consumed, ValidateExecutionHorizon(Some(horizon), |actions.rows|).value);
      if candidate.Ok? {
        StoreTakes(cfg, s.work, candidate.value, SourceOf(key));
      }
    }
  }

  lemma StoreTakes(cfg: Config, w: Work, candidate: ChunkPlan, source: PlanSource)
    requires ValidWork(cfg, w) && (w.smoothing ==> w.smoothed.enabled)
    requires ValidateChunkPlan(candidate, None).Ok? && candidate.actions.width == cfg.dimension
    ensures var r := Accept(if w.smoothing then cfg.smoother else cfg.queue, w.ActivePlan(), candidate, source, Some(cfg.dimension));
            var rest := candidate.actions.rows[candidate.Start()..candidate.Stop()];
            && (r.Ok? <==>
                  if w.smoothing then
                    && (forall k :: 0 <= k < |rest| ==> |rest[k]| == |rest[0]|)
                    && (|rest| > 0 && Remaining(w.smoothed) > 0 ==> |rest[0]| == |w.smoothed.store.actions[0]|)
                  else |rest| <= cfg.queue.capacity)
            && (r.Ok? ==> Remaining(r.value) == |rest|)
            && (r.Ok? && (!w.smoothing || Remaining(w.smoothed) == 0) ==> r.value.store.actions == rest)
  {
    var g := if w.smoothing then cfg.smoother else cfg.queue;
    CandidateAcceptedIff(g, w.ActivePlan(), candidate, source, Some(cfg.dimension));
    ChunkPlanValidIff(candidate, Some(cfg.dimension));
    if Accept(g, w.ActivePlan(), candidate, source, Some(cfg.dimension)).Ok? {
      AcceptedInterval(g, w.ActivePlan(), candidate, source, Some(cfg.dimension));
    }
  }

  lemma AnswerVerdict(cfg: Config, s: Scheduled, consumed: nat, request: nat, sent: Send,
                      actions: Chunk, reportedSize: int, horizon: int)
    requires ValidWork(cfg, s.work) && ScheduledWork.Executed(s.work) == consumed
    requires s.work.smoothing ==> s.work.smoothed.enabled
    requires RequestIsCurrent(s.life, s.work, request, sent.who) && Key(sent.who, request) !in s.work.received
    ensures ChunkMeans(cfg, s, Answer(cfg, s, request, sent, Predicted(actions, reportedSize, horizon)), consumed, request,
                       actions, reportedSize, horizon)
  {
    AcceptableIff(cfg, s, consumed, Key(sent.who, request), actions, reportedSize, horizon);
  }

  // ---- Ticks and toggles -------------------------------------------------------------------------------------

  /** A tick of the active dispatcher executes the next action of the store in use and takes it off that store. From
      an empty store it executes the last action again, and does nothing if there was none. The other store is left
      alone, and so is everything while no session is active. */
  lemma TickVerdict(cfg: Config, ss: seq<Scheduled>, gs: seq<Ledger>, evs: seq<ScheduledEvent>, n: nat)
    requires IsRun(cfg, ss, gs, evs) && n < |evs| && evs[n] == ActionExecuted
    ensures var w, w' := ss[n].work, ss[n + 1].work;
            var taken := Take(w.ActivePlan(), w.lastAction);
            if ss[n].life.state != Active then ss[n + 1] == ss[n]
            else if Remaining(w.ActivePlan()) > 0 then
              && w'.lastAction.Some? && taken == FromPlan(w'.lastAction.value) && w'.smoothing == w.smoothing
              && [w'.lastAction.value] + w'.ActivePlan().store.actions == w.ActivePlan().store.actions
              && (if w.smoothing then w'.queue == w.queue else w'.smoothed == w.smoothed) && w'.inflight == w.inflight
            else
              w' == w && taken == if w.lastAction.Some? then Hold(w.lastAction.value) else Nothing
  {
    assert ss[n + 1] == Next(cfg, ss[n], gs[n], evs[n]);
  }

  /** Toggling changes the store in use. Both keep what they hold, except that switching the smoother off empties it;
      what was executed since the request in flight was sent does not change. */
  lemma ToggleVerdict(cfg: Config, ss: seq<Scheduled>, gs: seq<Ledger>, evs: seq<ScheduledEvent>, n: nat)
    requires IsRun(cfg, ss, gs, evs) && n < |evs| && evs[n] == SmoothingToggled
    ensures var w, w' := ss[n].work, ss[n + 1].work;
            && w'.smoothing == !w.smoothing && w'.smoothed.enabled == w'.smoothing && w'.queue == w.queue
            && w'.inflight == w.inflight && w'.lastAction == w.lastAction && ss[n + 1].life == ss[n].life
            && w'.smoothed.store == (if w'.smoothing then w.smoothed.store else EMPTY)
            && (w.inflight.request.Some? ==> w'.lengthAtStart - Remaining(w'.ActivePlan())
                                             == w.lengthAtStart - Remaining(w.ActivePlan()))
  {
    assert ss[n + 1] == Next(cfg, ss[n], gs[n], evs[n]);
  }

  // ---- What the lifecycle leaves behind ------------------------------------------------------------------------

  /** Opening a session, freezing the output, closing a session and losing the runtime leave no request and no plan.
      The last action survives an opening, a closing and a safe stop that failed. */
  lemma NothingIsLeft(cfg: Config, ss: seq<Scheduled>, gs: seq<Ledger>, evs: seq<ScheduledEvent>, n: nat, e: Lifecycle.Event)
    requires IsRun(cfg, ss, gs, evs) && n < |evs| && evs[n] == LifeStep(e)
    requires || (e.OpenBegins? && (ss[n].life.state == WaitingReady || ss[n].life.state == Stopped))
             || e.OpSafeStops? || e.OpBeginsCloseSync? || e.OpCloses? || e.RuntimeRevoked?
    ensures var w' := ss[n + 1].work;
            && w'.inflight == NO_REQUEST && Remaining(w'.queue) == 0 && Remaining(w'.smoothed) == 0
            && w'.smoothing == ss[n].work.smoothing && (e.OpenBegins? ==> w'.received == {})
            && w'.lastAction == if e.RuntimeRevoked? || (e.OpSafeStops? && (e.provider || e.ok)) then None
                                else ss[n].work.lastAction
  {
    assert ss[n + 1] == Next(cfg, ss[n], gs[n], evs[n]);
  }

  /** A restart that finishes has forgotten every result and the last action; a stop or a failure that finishes leaves
      the work as it was. */
  lemma RestartForgets(cfg: Config, ss: seq<Scheduled>, gs: seq<Ledger>, evs: seq<ScheduledEvent>, n: nat, released: bool)
    requires IsRun(cfg, ss, gs, evs) && n < |evs| && evs[n] == LifeStep(Lifecycle.OpFinishes(released))
    ensures var w, w' := ss[n].work, ss[n + 1].work;
            if ss[n].life.op.kind == Restart then
              w'.received == {} && w'.lastAction.None? && Remaining(w'.queue) == 0 && Remaining(w'.smoothed) == 0
            else w' == w
  {
    assert ss[n + 1] == Next(cfg, ss[n], gs[n], evs[n]);
  }

  /** The callback of an open that closes its own session discards the work, and otherwise leaves it alone. */
  lemma OwnCloseDiscards(cfg: Config, ss: seq<Scheduled>, gs: seq<Ledger>, evs: seq<ScheduledEvent>, n: nat,
                         session: nat, generation: nat)
    requires IsRun(cfg, ss, gs, evs) && n < |evs| && evs[n] == LifeStep(Lifecycle.OpenFollowsUp(session))
    requires session in gs[n].book.chains && gs[n].book.chains[session].Completed?
    requires gs[n].book.chains[session].next == ThenClose(generation)
    ensures var w, w' := ss[n].work, ss[n + 1].work;
            if ss[n].life.session == Session(Some(session), generation) then
              w'.inflight == NO_REQUEST && Remaining(w'.queue) == 0 && Remaining(w'.smoothed) == 0
            else w' == w
  {
    assert ss[n + 1] == Next(cfg, ss[n], gs[n], evs[n]);
  }
}
