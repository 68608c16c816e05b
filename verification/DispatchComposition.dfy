/**
 The dispatcher composes its parts: it drives its episode only through the guarded calls of the episode
 state machine, and its plan only through the operations of the plan store. So what is proved of every
 run of either part holds of the dispatcher.
 */
module DispatchComposition {
  import opened Prelude
  import opened ChunkPlanning
  import opened Smoothing
  import opened Plans
  import opened PlanRuns
  import opened Episodes
  import EpisodeRuns
  import opened Dispatching
  import opened DispatchRuns
  import DispatchSafety

  /** The states of the parts after some calls on each, starting from `e` and `p`. */
  function Replay(e: Episode, calls: seq<Episodes.Event>): Episode
    decreases |calls|
  {
    if calls == [] then e else Episodes.Step(Replay(e, calls[..|calls| - 1]), calls[|calls| - 1])
  }

  function ReplayPlan(g: Settings, p: Plan, ops: seq<Op>): (r: Plan)
    requires ValidPlan(g, p)
    ensures ValidPlan(g, r)
    decreases |ops|
  {
    if ops == [] then p else PlanRuns.Step(g, ReplayPlan(g, p, ops[..|ops| - 1]), ops[|ops| - 1])
  }

  /** What was called so far. */
  datatype Trace = Trace(calls: seq<Episodes.Event>, ops: seq<Op>) {
    function Call(c: Episodes.Event): Trace {
      Trace(calls + [c], ops)
    }

    function Operate(op: Op): Trace {
      Trace(calls, ops + [op])
    }
  }

  const SILENT := Trace([], [])

  /** `d` has been reached from `start` by the calls of this trace. */
  ghost predicate Explains(cfg: Config, start: Dispatcher, tr: Trace, d: Dispatcher)
    requires ValidPlan(cfg.settings, start.plan)
  {
    Replay(start.episode, tr.calls) == d.episode && ReplayPlan(cfg.settings, start.plan, tr.ops) == d.plan
  }

  /** One call more on the episode, one operation more on the plan. */
  lemma Called(start: Episode, tr: Trace, c: Episodes.Event)
    ensures Replay(start, tr.Call(c).calls) == Episodes.Step(Replay(start, tr.calls), c)
  {
    assert tr.Call(c).calls[..|tr.calls|] == tr.calls;
  }

  lemma Operated(g: Settings, start: Plan, tr: Trace, op: Op)
    requires ValidPlan(g, start)
    ensures ReplayPlan(g, start, tr.Operate(op).ops) == PlanRuns.Step(g, ReplayPlan(g, start, tr.ops), op)
  {
    assert tr.Operate(op).ops[..|tr.ops|] == tr.ops;
  }

  /** One call and one operation bring the parts to where `d'` has them. */
  lemma BothExplained(cfg: Config, start: Dispatcher, tr: Trace, d: Dispatcher, c: Episodes.Event, op: Op, d': Dispatcher)
    returns (tr': Trace)
    requires ValidPlan(cfg.settings, start.plan) && Explains(cfg, start, tr, d) && ValidPlan(cfg.settings, d.plan)
    requires d'.episode == Episodes.Step(d.episode, c) && d'.plan == PlanRuns.Step(cfg.settings, d.plan, op)
    ensures Explains(cfg, start, tr', d')
  {
    Called(start.episode, tr, c);
    Operated(cfg.settings, start.plan, tr, op);
    tr' := Trace(tr.Call(c).calls, tr.Operate(op).ops);
  }

  lemma CallExplained(cfg: Config, start: Dispatcher, tr: Trace, d: Dispatcher, c: Episodes.Event, d': Dispatcher)
    returns (tr': Trace)
    requires ValidPlan(cfg.settings, start.plan) && Explains(cfg, start, tr, d)
    requires d'.episode == Episodes.Step(d.episode, c) && d'.plan == d.plan
    ensures Explains(cfg, start, tr', d')
  {
    Called(start.episode, tr, c);
    tr' := tr.Call(c);
  }

  lemma OperationExplained(cfg: Config, start: Dispatcher, tr: Trace, d: Dispatcher, op: Op, d': Dispatcher)
    returns (tr': Trace)
    requires ValidPlan(cfg.settings, start.plan) && Explains(cfg, start, tr, d) && ValidPlan(cfg.settings, d.plan)
    requires d'.episode == d.episode && d'.plan == PlanRuns.Step(cfg.settings, d.plan, op)
    ensures Explains(cfg, start, tr', d')
  {
    Operated(cfg.settings, start.plan, tr, op);
    tr' := tr.Operate(op);
  }

  /** Ending a goal is one guarded close and one clear, or nothing. */
  lemma EndExplained(cfg: Config, start: Dispatcher, tr: Trace, d: Dispatcher, kind: Conclusion, reason: Reason)
    returns (tr': Trace)
    requires ValidPlan(cfg.settings, start.plan) && Explains(cfg, start, tr, d) && ValidPlan(cfg.settings, d.plan)
    ensures Explains(cfg, start, tr', End(cfg, d, kind, reason))
  {
    if CanClose(d.episode, d.Generation()) {
      var close := DoClose(d.Generation(), if kind == Aborts then Faulty else Normally, reason);
      tr' := BothExplained(cfg, start, tr, d, close, DoClear, End(cfg, d, kind, reason));
    } else {
      tr' := tr;
    }
  }

  lemma ConsumeExplained(cfg: Config, start: Dispatcher, tr: Trace, d: Dispatcher, c: Completion, now: int)
    returns (tr': Trace)
    requires ValidPlan(cfg.settings, start.plan) && Explains(cfg, start, tr, d) && Handle(d, c, now).Consumes?
    ensures Explains(cfg, start, tr', Consume(d, c, now))
  {
    var call, op := Episodes.DoCommit(d.Generation(), c.data, now), PlanRuns.DoCommit(d.pending.reservation);
    tr' := BothExplained(cfg, start, tr, d, call, op, Consume(d, c, now));
  }

  lemma CommitExplained(cfg: Config, start: Dispatcher, tr: Trace, d: Dispatcher, c: Completion, now: int)
    returns (tr': Trace)
    requires ValidPlan(cfg.settings, start.plan) && Explains(cfg, start, tr, d)
    ensures Explains(cfg, start, tr', Apply(cfg, d, Transition.Commit(c), now))
  {
    match Handle(d, c, now)
    case PlanReplaced =>
      if d.HasGoal() {
        tr' := EndExplained(cfg, start, tr, Forget(d), Aborts, ExecutionUncertain);
      } else {
        tr' := tr;
      }
    case WrongIdentity => tr' := EndExplained(cfg, start, tr, d, Aborts, IdentityMismatch);
    case Ungated =>
      tr' := OperationExplained(cfg, start, tr, d, PlanRuns.DoCommit(d.pending.reservation),
                                Apply(cfg, d, Transition.Commit(c), now));
    case Consumes(reason) =>
      tr' := ConsumeExplained(cfg, start, tr, d, c, now);
      if reason.Some? {
        tr' := EndExplained(cfg, start, tr', Consume(d, c, now), Finishes, reason.value);
      }
    case _ => tr' := tr;
  }

  lemma TransitionExplained(cfg: Config, start: Dispatcher, tr: Trace, d: Dispatcher, t: Transition, now: int)
    returns (tr': Trace)
    requires ValidPlan(cfg.settings, start.plan) && Explains(cfg, start, tr, d)
    ensures Explains(cfg, start, tr', Apply(cfg, d, t, now))
  {
    match t
    case Ignore => tr' := tr;
    case Commit(c) => tr' := CommitExplained(cfg, start, tr, d, c, now);
    case FailClosed(fault) =>
      if d.HasGoal() {
        tr' := EndExplained(cfg, start, tr, Forget(d), Aborts, FaultReason(fault));
      } else {
        tr' := tr;
      }
  }

  lemma SubmitExplained(cfg: Config, start: Dispatcher, tr: Trace, d: Dispatcher, correlation: nat, receipt: Receipt,
                        now: int) returns (tr': Trace)
    requires ValidPlan(cfg.settings, start.plan) && Explains(cfg, start, tr, d)
    ensures Explains(cfg, start, tr', Submit(cfg, d, correlation, receipt, now))
  {
    tr' := tr;
    if MaySubmit(d) {
      tr' := OperationExplained(cfg, start, tr, d, DoReserve, d.(plan := Reserve(d.plan)));
      match receipt
      case Submitted =>
      case Declined =>
        if d.HasGoal() {
          tr' := EndExplained(cfg, start, tr', d.(plan := Reserve(d.plan)), Aborts, ExecutionRejected);
        }
      case Immediate(t) => tr' := TransitionExplained(cfg, start, tr', Reserved(d, correlation), t, now);
    }
  }

  lemma AnswerExplained(cfg: Config, start: Dispatcher, tr: Trace, d: Dispatcher, id: nat, sent: Sent, reply: Reply,
                        now: int) returns (tr': Trace)
    requires ValidPlan(cfg.settings, start.plan) && Explains(cfg, start, tr, d) && ValidPlan(cfg.settings, d.plan)
    ensures Explains(cfg, start, tr', Answer(cfg, d, id, sent, reply, now))
  {
    tr' := tr;
    var done := CompleteInflight(d, id);
    if Refills(cfg, d, id, sent, reply) {
      var source := PlanSource(id, sent.requestGeneration, 0, 0);
      var op := PlanRuns.DoAccept(Planned(cfg, d, reply.actions, reply.horizon).value, source, cfg.dimension);
      var call := DoInferenceSuccess(sent.goalGeneration);
      tr' := BothExplained(cfg, start, tr, d, call, op, Answer(cfg, d, id, sent, reply, now));
    } else if CurrentRequest(d, id, sent) && CurrentGoal(d, sent)
              && !(reply.NotReady? && now < d.readinessDeadline) {
      tr' := EndExplained(cfg, start, tr, done, Aborts,
                          if reply.NotReady? then ObservationStartupTimeout else InferenceFailed);
    }
  }

  lemma ServiceExplained(cfg: Config, start: Dispatcher, tr: Trace, d: Dispatcher, ev: DispatchEvent) returns (tr': Trace)
    requires ValidPlan(cfg.settings, start.plan) && Explains(cfg, start, tr, d) && ValidPlan(cfg.settings, d.plan)
    requires ev.ResetCalled? || ev.RuntimeRevoked? || ev.SmoothingToggled?
    ensures Explains(cfg, start, tr', Next(cfg, d, ev))
  {
    if ev.ResetCalled? && d.episode.ActiveGoal() {
      tr' := EndExplained(cfg, start, tr, d, Aborts, ExternalReset);
    } else {
      var op := if ev.SmoothingToggled? then DoToggle(ev.enabled) else DoClear;
      tr' := OperationExplained(cfg, start, tr, d, op, Next(cfg, d, ev));
    }
  }

  /** Preparing, accepting and binding a goal. */
  lemma GoalExplained(cfg: Config, start: Dispatcher, tr: Trace, d: Dispatcher, ev: DispatchEvent) returns (tr': Trace)
    requires ValidPlan(cfg.settings, start.plan) && Explains(cfg, start, tr, d) && ValidPlan(cfg.settings, d.plan)
    requires ev.PrepareBegins? || ev.PrepareEnds? || ev.GoalRequested? || ev.HandleAccepted?
    ensures Explains(cfg, start, tr', Next(cfg, d, ev))
  {
    match ev
    case PrepareBegins =>
      if d.episode.CanPrepare() {
        tr' := BothExplained(cfg, start, tr, d, DoBeginPreparing, DoClear, Next(cfg, d, ev));
      } else {
        tr' := tr;
      }
    case PrepareEnds(succeeded) =>
      tr' := CallExplained(cfg, start, tr, d, if succeeded then DoCompletePrepare else DoFailPrepare, Next(cfg, d, ev));
    case GoalRequested(spec, _) => tr' := CallExplained(cfg, start, tr, d, Episodes.DoAccept(spec), Next(cfg, d, ev));
    case HandleAccepted(_, now) => tr' := CallExplained(cfg, start, tr, d, DoBind(d.Generation(), now), Next(cfg, d, ev));
  }

  lemma TickExplained(cfg: Config, start: Dispatcher, tr: Trace, d: Dispatcher, ev: DispatchEvent) returns (tr': Trace)
    requires ValidPlan(cfg.settings, start.plan) && Explains(cfg, start, tr, d) && ValidPlan(cfg.settings, d.plan)
    requires ev.CancelSeen? || ev.StartupChecked? || ev.DurationChecked?
    ensures Explains(cfg, start, tr', Next(cfg, d, ev))
  {
    tr' := tr;
    if ev.CancelSeen? && d.HasGoal() {
      tr' := EndExplained(cfg, start, tr, d, Cancels, Canceled);
    } else if ev.StartupChecked? && StartupDeadline(d.episode, d.Generation(), ev.now).Some? {
      tr' := EndExplained(cfg, start, tr, d, Aborts, ObservationStartupTimeout);
    } else if ev.DurationChecked? && d.episode.GateOpen() && EpisodeDeadline(d.episode, d.Generation(), ev.now).Some? {
      tr' := EndExplained(cfg, start, tr, d, Finishes, MaxDuration);
    }
  }

  lemma StepExplained(cfg: Config, start: Dispatcher, tr: Trace, d: Dispatcher, ev: DispatchEvent) returns (tr': Trace)
    requires ValidPlan(cfg.settings, start.plan) && Explains(cfg, start, tr, d) && ValidPlan(cfg.settings, d.plan)
    ensures Explains(cfg, start, tr', Next(cfg, d, ev))
  {
    match ev
    case Answered(id, sent, reply, now) => tr' := AnswerExplained(cfg, start, tr, d, id, sent, reply, now);
    case ActionSubmitted(correlation, receipt, now) => tr' := SubmitExplained(cfg, start, tr, d, correlation, receipt, now);
    case Decided(t, now) => tr' := TransitionExplained(cfg, start, tr, d, t, now);
    case CancelSeen => tr' := TickExplained(cfg, start, tr, d, ev);
    case StartupChecked(_) => tr' := TickExplained(cfg, start, tr, d, ev);
    case DurationChecked(_) => tr' := TickExplained(cfg, start, tr, d, ev);
    case RequestSent(_) => tr' := tr;
    case RequestRefused(_) => tr' := tr;
    case InferenceExpired => tr' := tr;
    case ExecuteReturned(_) => tr' := tr;
    case ResetCalled => tr' := ServiceExplained(cfg, start, tr, d, ev);
    case RuntimeRevoked => tr' := ServiceExplained(cfg, start, tr, d, ev);
    case SmoothingToggled(_) => tr' := ServiceExplained(cfg, start, tr, d, ev);
    case _ => tr' := GoalExplained(cfg, start, tr, d, ev);
  }

  /** Every run of the dispatcher is explained by the calls that it made on its two parts. */
  lemma {:induction false} RunExplained(cfg: Config, ds: seq<Dispatcher>, ls: seq<Ledger>, evs: seq<DispatchEvent>, n: nat)
    returns (tr: Trace)
    requires DispatchSafety.IsRun(cfg, ds, ls, evs) && n < |ds|
    ensures ds[0].episode == Episodes.INITIAL && ValidPlan(cfg.settings, ds[0].plan)
    ensures Explains(cfg, ds[0], tr, ds[n])
  {
    if n == 0 {
      tr := SILENT;
    } else {
      tr := RunExplained(cfg, ds, ls, evs, n - 1);
      tr := StepExplained(cfg, ds[0], tr, ds[n - 1], evs[n - 1]);
    }
  }

  /** The states that the episode went through. */
  lemma {:induction false} ReplayIsEpisodeRun(calls: seq<Episodes.Event>) returns (es: seq<Episode>)
    ensures EpisodeRuns.IsRun(es, calls) && es[|calls|] == Replay(Episodes.INITIAL, calls)
  {
    if calls == [] {
      es := [Episodes.INITIAL];
    } else {
      var n := |calls| - 1;
      var before := ReplayIsEpisodeRun(calls[..n]);
      es := before + [Replay(Episodes.INITIAL, calls)];
      forall i | 0 <= i < |calls|
        ensures es[i + 1] == Episodes.Step(es[i], calls[i])
      {
        assert i < n ==> calls[..n][i] == calls[i] && es[i + 1] == before[i + 1];
        assert es[i] == before[i];
      }
    }
  }

  /** In particular the token discipline holds: whatever reached the dispatcher, a preparation token is
      live exactly while it is prepared, and the episode it drives is that of some run of its own. */
  lemma DispatcherKeepsTokenDiscipline(cfg: Config, ds: seq<Dispatcher>, ls: seq<Ledger>, evs: seq<DispatchEvent>, n: nat)
    returns (es: seq<Episode>, calls: seq<Episodes.Event>)
    requires DispatchSafety.IsRun(cfg, ds, ls, evs) && n < |ds|
    ensures EpisodeRuns.IsRun(es, calls) && es[|calls|] == ds[n].episode
    ensures ds[n].episode.tokens.current != 0 <==> ds[n].episode.phase == Prepared
  {
    var tr := RunExplained(cfg, ds, ls, evs, n);
    calls := tr.calls;
    es := ReplayIsEpisodeRun(calls);
    EpisodeRuns.TokenLiveExactlyInPrepared(es, calls, |calls|);
  }
}
