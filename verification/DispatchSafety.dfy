/** The guarantees of the dispatcher, over every run. */
module DispatchSafety {
  import opened Prelude
  import opened ChunkPlanning
  import opened Smoothing
  import opened Plans
  import opened Episodes
  import opened Dispatching
  import opened DispatchRuns
  import opened DispatchInvariant
  import opened DispatchSteps

  ghost predicate IsRun(cfg: Config, ds: seq<Dispatcher>, ls: seq<Ledger>, evs: seq<DispatchEvent>) {
    && ValidSettings(cfg.settings)
    && |ds| == |ls| == |evs| + 1
    && ds[0] == NewDispatcher(cfg, ds[0].plan.enabled) && ls[0] == NEW_LEDGER
    && (forall i {:trigger evs[i]} :: 0 <= i < |evs| ==>
          && ValidPlan(cfg.settings, ds[i].plan) && Enabled(ds[i], ls[i], evs[i])
          && ds[i + 1] == Next(cfg, ds[i], evs[i]) && ls[i + 1] == Record(cfg, ds[i], ls[i], evs[i]))
  }

  lemma {:induction false} Reachable(cfg: Config, ds: seq<Dispatcher>, ls: seq<Ledger>, evs: seq<DispatchEvent>, n: nat)
    requires IsRun(cfg, ds, ls, evs) && n < |ds|
    ensures DispatchOk(cfg, ds[n], ls[n])
  {
    if n > 0 {
      Reachable(cfg, ds, ls, evs, n - 1);
      NextKeeps(cfg, ds[n - 1], ls[n - 1], evs[n - 1]);
    }
  }

  // ---- Commit and consume are one transaction ------------------------------------------------------------

  /** Since the goal was accepted, as many actions were served from plans as steps were committed and
      feedbacks published. The steps are 0, 1, ... in order, and never more than the goal allows; the action
      served for each of them is the one that was submitted for it. */
  lemma CommitAndConsumeAreOne(cfg: Config, ds: seq<Dispatcher>, ls: seq<Ledger>, evs: seq<DispatchEvent>, n: nat)
    requires IsRun(cfg, ds, ls, evs) && n < |ds|
    ensures var committed := ds[n].episode.progress.committed;
            var log := ls[n].log;
            && |log.served| == |log.feedback| == committed <= ds[n].episode.goal.maxActions
            && (ds[n].episode.GateOpen() ==> committed < ds[n].episode.goal.maxActions)
            && (forall k: nat :: k < committed ==>
                  log.feedback[k].step.stepId == Some(k) && log.feedback[k].published == k + 1)
            && (forall k: nat :: k < committed ==> log.feedback[k].action == Some(log.served[k].action))
  {
    Reachable(cfg, ds, ls, evs, n);
    var log := ls[n].log;
    forall k: nat | k < |log.feedback|
      ensures log.feedback[k].step.stepId == Some(k) && log.feedback[k].published == k + 1
      ensures log.feedback[k].action == Some(log.served[k].action)
    {
      assert FeedbackOk(log.feedback[k], k);
      assert Submits(log.feedback[k], log.served[k]);
    }
  }

  /** The action that is pending is the next one of the plan, for as long as its reservation stands. */
  lemma PendingIsNextAction(cfg: Config, ds: seq<Dispatcher>, ls: seq<Ledger>, evs: seq<DispatchEvent>, n: nat)
    requires IsRun(cfg, ds, ls, evs) && n < |ds|
    requires ds[n].pending.correlation.Some? && IsCurrent(ds[n].plan, ds[n].pending.reservation)
    ensures Remaining(ds[n].plan) > 0 && ds[n].pending.action == Some(ds[n].plan.store.actions[0])
  {
    Reachable(cfg, ds, ls, evs, n);
  }

  /** However often a completion is repeated, no submission is committed twice under one goal. */
  lemma SubmissionsCommitOnce(cfg: Config, ds: seq<Dispatcher>, ls: seq<Ledger>, evs: seq<DispatchEvent>,
                              n: nat, i: nat, j: nat)
    requires IsRun(cfg, ds, ls, evs) && n < |ds| && i < j < |ls[n].log.feedback|
    ensures ls[n].log.feedback[i].correlation < ls[n].log.feedback[j].correlation
  {
    Reachable(cfg, ds, ls, evs, n);
  }

  /** Did this step put a new chunk into the plan? */
  predicate Fills(cfg: Config, d: Dispatcher, ev: DispatchEvent)
    requires ValidPlan(cfg.settings, d.plan)
  {
    ev.Answered? && Refills(cfg, d, ev.id, ev.sent, ev.reply)
  }

  function Actions(served: seq<Served>): seq<Action> {
    seq(|served|, k requires 0 <= k < |served| => served[k].action)
  }

  /** Unless a step refills or discards the plan, exactly what it logs as served has left the plan. */
  lemma OnlyServedActionsLeave(cfg: Config, ds: seq<Dispatcher>, ls: seq<Ledger>, evs: seq<DispatchEvent>, n: nat)
    requires IsRun(cfg, ds, ls, evs) && n < |evs| && ValidPlan(cfg.settings, ds[n].plan)
    requires !Fills(cfg, ds[n], evs[n]) && !Discards(cfg, ds[n], evs[n])
    ensures evs[n].GoalRequested? ==> ds[n + 1].plan.store.actions == ds[n].plan.store.actions
    ensures !evs[n].GoalRequested? ==>
              && ls[n].log.served <= ls[n + 1].log.served
              && Actions(ls[n + 1].log.served[|ls[n].log.served|..]) + ds[n + 1].plan.store.actions
                 == ds[n].plan.store.actions
  {
    Reachable(cfg, ds, ls, evs, n);
    assert ds[n + 1] == Next(cfg, ds[n], evs[n]) && ls[n + 1] == Record(cfg, ds[n], ls[n], evs[n]);
    LeavesPlan(cfg, ds[n], ls[n], evs[n]);
  }

  lemma LeavesPlan(cfg: Config, d: Dispatcher, l: Ledger, ev: DispatchEvent)
    requires DispatchOk(cfg, d, l) && Enabled(d, l, ev) && !Fills(cfg, d, ev) && !Discards(cfg, d, ev)
    ensures var served := LogNext(cfg, d, l.log, ev).served;
            if ev.GoalRequested? then Next(cfg, d, ev).plan.store.actions == d.plan.store.actions
            else && l.log.served <= served
                 && Actions(served[|l.log.served|..]) + Next(cfg, d, ev).plan.store.actions == d.plan.store.actions
  {
    if ev.Decided? {
      TransitionLeaves(cfg, d, l.log, d, ev.transition, ev.now);
    } else if ev.ActionSubmitted? && ev.receipt.Immediate? {
      if MaySubmit(d) {
        TransitionLeaves(cfg, d, l.log, Reserved(d, ev.correlation), ev.receipt.transition, ev.now);
      } else {
        NoActions(l.log);
      }
    } else if ev.Answered? {
      AnswerLeaves(cfg, d, ev.id, ev.sent, ev.reply, ev.now);
      NoActions(l.log);
    } else {
      QuietLeaves(cfg, d, l, ev);
      NoActions(l.log);
    }
  }

  lemma NoActions(log: Log)
    ensures Actions(log.served[|log.served|..]) == []
  {
  }

  lemma AnswerLeaves(cfg: Config, d: Dispatcher, id: nat, sent: Sent, reply: Reply, now: int)
    requires ValidPlan(cfg.settings, d.plan) && !Refills(cfg, d, id, sent, reply)
    ensures var d' := Answer(cfg, d, id, sent, reply, now);
            d'.plan == d.plan || (Remaining(d'.plan) == 0 && d'.plan.source.None?)
  {
    NoGoalLeft(cfg, CompleteInflight(d, id), Aborts, InferenceFailed);
    NoGoalLeft(cfg, CompleteInflight(d, id), Aborts, ObservationStartupTimeout);
  }

  lemma NoGoalLeft(cfg: Config, d: Dispatcher, kind: Conclusion, reason: Reason)
    ensures var d' := End(cfg, d, kind, reason);
            d'.plan == d.plan || (Remaining(d'.plan) == 0 && d'.plan.source.None?)
  {
  }

  lemma TransitionLeaves(cfg: Config, d: Dispatcher, log: Log, mid: Dispatcher, t: Transition, now: int)
    requires mid.plan.store == d.plan.store
    ensures var d' := Apply(cfg, mid, t, now);
            var served := if t.Commit? then LogCommit(mid, log, t.completion, now).served else log.served;
            && log.served <= served
            && ((Remaining(d'.plan) == 0 && d'.plan.source.None?)
                || Actions(served[|log.served|..]) + d'.plan.store.actions == d.plan.store.actions)
  {
    assert Actions([]) == [];
    assert log.served[|log.served|..] == [];
    if t.Commit? && (Handle(mid, t.completion, now).Consumes? || Handle(mid, t.completion, now).Ungated?) {
      var one := [Served(mid.plan.store.actions[0], log.origins)];
      assert (log.served + one)[|log.served|..] == one;
      assert Actions(one) == [mid.plan.store.actions[0]];
    }
  }

  lemma QuietLeaves(cfg: Config, d: Dispatcher, l: Ledger, ev: DispatchEvent)
    requires ValidPlan(cfg.settings, d.plan) && !Fills(cfg, d, ev) && !Discards(cfg, d, ev)
    requires Asked(d, ev).None? && !ev.Decided? && !ev.Answered? && !(ev.ActionSubmitted? && ev.receipt.Immediate?)
    ensures Next(cfg, d, ev).plan.store.actions == d.plan.store.actions
    ensures !ev.GoalRequested? ==> LogNext(cfg, d, l.log, ev).served == l.log.served
  {
  }

  // ---- No leakage between episodes -------------------------------------------------------------------------

  /** The plan is empty whenever the gate is closed, so also when it opens. */
  lemma GateOpensOnEmptyPlan(cfg: Config, ds: seq<Dispatcher>, ls: seq<Ledger>, evs: seq<DispatchEvent>, n: nat)
    requires IsRun(cfg, ds, ls, evs) && n < |evs|
    ensures !ds[n].episode.GateOpen() ==> Remaining(ds[n].plan) == 0
    ensures !ds[n].episode.GateOpen() && ds[n + 1].episode.GateOpen() ==>
              Remaining(ds[n + 1].plan) == 0 && ds[n + 1].episode.progress.committed == 0
  {
    Reachable(cfg, ds, ls, evs, n);
    if !ds[n].episode.GateOpen() {
      OpensByBinding(cfg, ds[n], evs[n]);
    }
  }

  lemma OpensByBinding(cfg: Config, d: Dispatcher, ev: DispatchEvent)
    requires ValidPlan(cfg.settings, d.plan) && Inv(d.episode)
    requires !d.episode.GateOpen()
    ensures Next(cfg, d, ev).episode.GateOpen() ==>
              ev.HandleAccepted? && Next(cfg, d, ev).plan == d.plan
              && Next(cfg, d, ev).episode.progress.committed == 0
  {
  }

  /** Every action committed under a goal came from a plan that only that goal's requests had filled. */
  lemma ServedByOwnRequests(cfg: Config, ds: seq<Dispatcher>, ls: seq<Ledger>, evs: seq<DispatchEvent>, n: nat, k: nat)
    requires IsRun(cfg, ds, ls, evs) && n < |ds| && k < |ls[n].log.served|
    ensures forall g :: g in ls[n].log.served[k].origins ==> g == ds[n].Generation()
  {
    Reachable(cfg, ds, ls, evs, n);
    assert ServedUnder(ls[n].log.served[k], ds[n].Generation());
  }

  lemma {:induction false} SentStays(cfg: Config, ds: seq<Dispatcher>, ls: seq<Ledger>, evs: seq<DispatchEvent>,
                                     i: nat, n: nat)
    requires IsRun(cfg, ds, ls, evs) && i <= n < |ds|
    ensures ls[i].traffic.sent <= ls[n].traffic.sent
  {
    if i < n {
      SentStays(cfg, ds, ls, evs, i, n - 1);
      assert ls[n] == Record(cfg, ds[n - 1], ls[n - 1], evs[n - 1]);
    }
  }

  /** The answer to a request sent under an earlier goal leaves plan and episode as they are. */
  lemma OlderResultsAreInert(cfg: Config, ds: seq<Dispatcher>, ls: seq<Ledger>, evs: seq<DispatchEvent>,
                             i: nat, n: nat, id: nat)
    requires IsRun(cfg, ds, ls, evs) && i < n < |evs|
    requires evs[i] == RequestSent(id) && MayRequest(ds[i]) && ds[i].Generation() != ds[n].Generation()
    requires evs[n].Answered? && evs[n].id == id
    ensures ds[n + 1].plan == ds[n].plan && ds[n + 1].episode == ds[n].episode
  {
    assert ls[i + 1] == Record(cfg, ds[i], ls[i], evs[i]);
    SentStays(cfg, ds, ls, evs, i + 1, n);
    assert ls[n].traffic.sent[id] == Sent(ds[i].requests.generation, ds[i].Generation());
    assert ds[n + 1] == Next(cfg, ds[n], evs[n]);
  }

  // ---- Results are written once ------------------------------------------------------------------------------

  lemma ClosuresGrow(cfg: Config, d: Dispatcher, l: Ledger, ev: DispatchEvent, g: nat)
    requires DispatchOk(cfg, d, l)
    ensures var l' := Record(cfg, d, l, ev);
            && (g in l.goals.closures ==> g in l'.goals.closures && l'.goals.closures[g] == l.goals.closures[g])
            && (g in l'.goals.closures && g !in l.goals.closures ==>
                  && g == d.Generation() && Ended(d, Next(cfg, d, ev))
                  && l'.goals.closures[g].outcome == FinalOutcome(Next(cfg, d, ev).episode))
  {
  }

  /** Once a goal's end is on record, it stays as it is, whatever later goals do. */
  lemma {:induction false} ClosuresStay(cfg: Config, ds: seq<Dispatcher>, ls: seq<Ledger>, evs: seq<DispatchEvent>,
                                        i: nat, n: nat, g: nat)
    requires IsRun(cfg, ds, ls, evs) && i <= n < |ds| && g in ls[i].goals.closures
    ensures g in ls[n].goals.closures && ls[n].goals.closures[g] == ls[i].goals.closures[g]
  {
    if i < n {
      ClosuresStay(cfg, ds, ls, evs, i, n - 1, g);
      Reachable(cfg, ds, ls, evs, n - 1);
      ClosuresGrow(cfg, ds[n - 1], ls[n - 1], evs[n - 1], g);
    }
  }

  /** The step at which a goal on record was closed. */
  lemma {:induction false} ClosingStep(cfg: Config, ds: seq<Dispatcher>, ls: seq<Ledger>, evs: seq<DispatchEvent>,
                                       n: nat, g: nat) returns (j: nat)
    requires IsRun(cfg, ds, ls, evs) && n < |ds| && g in ls[n].goals.closures
    ensures j < n && ds[j].Generation() == g && Ended(ds[j], ds[j + 1])
    ensures ls[n].goals.closures[g].outcome == FinalOutcome(ds[j + 1].episode)
  {
    assert ls[0].goals.closures == map[];
    Reachable(cfg, ds, ls, evs, n - 1);
    assert ds[n] == Next(cfg, ds[n - 1], evs[n - 1]) && ls[n] == Record(cfg, ds[n - 1], ls[n - 1], evs[n - 1]);
    ClosuresGrow(cfg, ds[n - 1], ls[n - 1], evs[n - 1], g);
    if g in ls[n - 1].goals.closures {
      j := ClosingStep(cfg, ds, ls, evs, n - 1, g);
    } else {
      j := n - 1;
    }
  }

  lemma {:induction false} GoalOfStays(cfg: Config, ds: seq<Dispatcher>, ls: seq<Ledger>, evs: seq<DispatchEvent>,
                                       i: nat, n: nat, uuid: nat)
    requires IsRun(cfg, ds, ls, evs) && i <= n < |ds| && uuid in ls[i].goals.goalOf
    ensures uuid in ls[n].goals.goalOf && ls[n].goals.goalOf[uuid] == ls[i].goals.goalOf[uuid]
  {
    if i < n {
      GoalOfStays(cfg, ds, ls, evs, i, n - 1, uuid);
      assert ls[n] == Record(cfg, ds[n - 1], ls[n - 1], evs[n - 1]);
    }
  }

  /** The execute callback of a goal accepted at step `i` returns the outcome frozen by the one step that
      closed that goal's generation, however many later episodes ran before it woke up. Its result counts
      one published action per served action and per feedback, and names the last step. */
  lemma ExecuteReturnsOwnOutcome(cfg: Config, ds: seq<Dispatcher>, ls: seq<Ledger>, evs: seq<DispatchEvent>,
                                 i: nat, n: nat, uuid: nat) returns (j: nat)
    requires IsRun(cfg, ds, ls, evs) && i < n < |evs|
    requires evs[i].GoalRequested? && evs[i].uuid == uuid && ValidateGoal(ds[i].episode, evs[i].spec).None?
    requires evs[n] == ExecuteReturned(uuid) && Awaited(ds[n], uuid).Some?
    ensures i < j < n && ds[j].Generation() == ds[i].Generation() + 1 && Ended(ds[j], ds[j + 1])
    ensures Awaited(ds[n], uuid).value == FinalOutcome(ds[j + 1].episode)
    ensures var g := ds[j].Generation();
            g in ls[n].goals.closures && CountsAgree(ls[n].goals.closures[g])
            && ls[n].goals.closures[g].outcome == Awaited(ds[n], uuid).value
  {
    assert ls[i + 1] == Record(cfg, ds[i], ls[i], evs[i]);
    GoalOfStays(cfg, ds, ls, evs, i + 1, n, uuid);
    Reachable(cfg, ds, ls, evs, n);
    var at := FindContext(ds[n].contexts, uuid).value;
    assert ContextOk(ds[n].contexts[at], ds[n].episode, ls[n].goals);
    var g := ds[i].Generation() + 1;
    assert ClosureOk(ls[n].goals.closures[g], g);
    j := ClosingStep(cfg, ds, ls, evs, n, g);
    if j <= i {
      GenerationsGrow(cfg, ds, ls, evs, j, i);
    }
  }

  lemma {:induction false} GenerationsGrow(cfg: Config, ds: seq<Dispatcher>, ls: seq<Ledger>, evs: seq<DispatchEvent>,
                                           i: nat, n: nat)
    requires IsRun(cfg, ds, ls, evs) && i <= n < |ds|
    ensures ds[i].Generation() <= ds[n].Generation()
  {
    if i < n {
      GenerationsGrow(cfg, ds, ls, evs, i, n - 1);
      GenerationGrows(cfg, ds[n - 1], evs[n - 1]);
    }
  }

  lemma GenerationGrows(cfg: Config, d: Dispatcher, ev: DispatchEvent)
    requires ValidPlan(cfg.settings, d.plan)
    ensures d.Generation() <= Next(cfg, d, ev).Generation() <= d.Generation() + 1
  {
  }

  /** A running goal always has its own unfrozen context, and its handle is the active one. */
  lemma RunningGoalIsBound(cfg: Config, ds: seq<Dispatcher>, ls: seq<Ledger>, evs: seq<DispatchEvent>, n: nat)
    requires IsRun(cfg, ds, ls, evs) && n < |ds| && ds[n].episode.GateOpen()
    ensures ds[n].activeHandle.Some? && ds[n].activeHandle.value in ls[n].goals.goalOf
    ensures ls[n].goals.goalOf[ds[n].activeHandle.value] == ds[n].Generation()
    ensures Awaited(ds[n], ds[n].activeHandle.value).None?
  {
    Reachable(cfg, ds, ls, evs, n);
    var last := |ds[n].contexts| - 1;
    assert ContextOk(ds[n].contexts[last], ds[n].episode, ls[n].goals);
  }

  // ---- Handles that come late ----------------------------------------------------------------------------------

  /** The handle of a goal is bound to that goal's generation exactly while it is still the current one
      and still waits for a handle. */
  lemma HandleBindsOwnGoalIff(d: Dispatcher, uuid: nat, generation: nat, now: int)
    ensures BindHandle(d, uuid, now).contexts == d.contexts + [GoalContext(uuid, generation, None)]
            <==> CanBind(d.episode, generation)
  {
    var contexts := BindHandle(d, uuid, now).contexts;
    if contexts == d.contexts + [GoalContext(uuid, generation, None)] {
      assert |contexts| == |d.contexts| + 1;
      assert contexts[|d.contexts|] == GoalContext(uuid, generation, None);
    }
  }

  /** A goal is accepted and reset before its handle arrives, and the next goal is accepted: the late
      handle of the first goal is bound to the second one. Hence handles are taken to arrive in time. */
  lemma LateHandleBindsNextGoal(cfg: Config, d: Dispatcher, first: GoalSpec, second: GoalSpec, uuid: nat, now: int)
    requires ValidateGoal(d.episode, first).None?
    requires second == first.(preparationId := d.episode.tokens.counter + 1)
    ensures var accepted := RequestGoal(d, first);
            var prepared := EndPrepare(BeginPrepare(cfg, Reset(cfg, accepted)), true);
            var bound := BindHandle(RequestGoal(prepared, second), uuid, now);
            && ValidateGoal(prepared.episode, second).None?
            && |bound.contexts| > 0
            && bound.contexts[|bound.contexts| - 1] == GoalContext(uuid, accepted.Generation() + 1, None)
            && bound.activeHandle == Some(uuid) && bound.episode.GateOpen()
  {
    var prepared := EndPrepare(BeginPrepare(cfg, Reset(cfg, RequestGoal(d, first))), true);
    assert prepared.episode.phase == Prepared;
    assert ValidateGoal(prepared.episode, second).None?;
    assert CanBind(RequestGoal(prepared, second).episode, d.Generation() + 2);
  }
}
