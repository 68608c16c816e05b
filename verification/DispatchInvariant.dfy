/** The dispatcher's invariant, and that every step keeps it. */
module DispatchInvariant {
  import opened Prelude
  import opened ChunkPlanning
  import opened Smoothing
  import opened Plans
  import opened Episodes
  import opened Dispatching
  import opened DispatchRuns

  // ---- The parts -------------------------------------------------------------------------------------

  /** What is pending was reserved from this plan or an earlier one; if the plan still holds that reservation,
      its next action is the one that was submitted. */
  predicate PendingOk(p: Plan, pending: Pending) {
    pending.correlation.Some? ==>
      && pending.reservation.Some?
      && var r := pending.reservation.value;
      && (r.revision < p.revision || (r.revision == p.revision && r.consumed <= p.consumed))
      && (r.revision == p.revision && r.consumed == p.consumed ==>
            p.reservation == Some(r) && Remaining(p) > 0 && pending.action == Some(p.store.actions[0]))
  }

  /** With the gate closed there is no plan; with it open, the plan came from this goal's requests only. */
  ghost predicate PlanOk(cfg: Config, d: Dispatcher, origins: set<nat>, submitted: nat) {
    && ValidPlan(cfg.settings, d.plan) && PendingOk(d.plan, d.pending)
    && (if d.episode.GateOpen() then origins <= {d.Generation()}
        else Remaining(d.plan) == 0 && origins == {} && d.pending.correlation.None?)
    && (d.pending.correlation.Some? ==> d.pending.correlation.value < submitted)
  }

  predicate FeedbackOk(f: Feedback, k: nat) {
    f.published == k + 1 && f.step.stepId == Some(k)
  }

  predicate ServedUnder(s: Served, generation: nat) {
    s.origins <= {generation}
  }

  /** The action that left the plan is the one that was submitted. */
  predicate Submits(f: Feedback, s: Served) {
    f.action == Some(s.action)
  }

  /** One served action and one feedback per committed step, in step order. */
  ghost predicate LogOk(served: seq<Served>, feedback: seq<Feedback>, committed: nat, generation: nat) {
    && |served| == |feedback| == committed
    && (forall k: nat :: k < |feedback| ==> FeedbackOk(feedback[k], k))
    && (forall k: nat :: k < |served| ==> ServedUnder(served[k], generation))
    && (forall k: nat :: k < |served| == |feedback| ==> Submits(feedback[k], served[k]))
  }

  /** No submission has been fed back twice, nor will the one that is pending. */
  ghost predicate CorrelationsOk(feedback: seq<Feedback>, pending: Option<nat>, submitted: nat) {
    && (forall i: nat, j: nat :: i < j < |feedback| ==> feedback[i].correlation < feedback[j].correlation)
    && (forall i: nat :: i < |feedback| ==> feedback[i].correlation < submitted)
    && (pending.Some? ==> forall i: nat :: i < |feedback| ==> feedback[i].correlation < pending.value)
  }

  predicate CountsAgree(c: Closure) {
    var n := c.outcome.result.publishedActions;
    && |c.served| == |c.feedback| == n <= c.maxActions
    && c.outcome.result.finalStepId == if n == 0 then None else Some(n - 1)
  }

  ghost predicate ClosureOk(c: Closure, generation: nat) {
    CountsAgree(c) && LogOk(c.served, c.feedback, |c.served|, generation)
  }

  ghost predicate ClosuresOk(closures: map<nat, Closure>, e: Episode) {
    forall g: nat :: g in closures ==>
      g <= e.goal.generation && (g == e.goal.generation ==> !e.ActiveGoal()) && ClosureOk(closures[g], g)
  }

  ghost predicate ContextOk(c: GoalContext, e: Episode, goals: Goals) {
    && c.uuid in goals.goalOf && goals.goalOf[c.uuid] == c.generation <= e.goal.generation
    && (if c.outcome.Some?
        then c.generation in goals.closures && goals.closures[c.generation].outcome == c.outcome.value
        else e.GateOpen() && c.generation == e.goal.generation)
  }

  ghost predicate ContextsOk(contexts: seq<GoalContext>, e: Episode, goals: Goals) {
    && (forall i: nat :: i < |contexts| ==> ContextOk(contexts[i], e, goals))
    && (forall i: nat, j: nat :: i < j < |contexts| ==> contexts[i].generation < contexts[j].generation)
  }

  ghost predicate HandleOk(d: Dispatcher) {
    d.episode.GateOpen() ==>
      && |d.contexts| > 0
      && d.contexts[|d.contexts| - 1].generation == d.Generation()
      && d.activeHandle == Some(d.contexts[|d.contexts| - 1].uuid)
  }

  ghost predicate ReturnedOk(r: Returned, goals: Goals) {
    && r.uuid in goals.goalOf && goals.goalOf[r.uuid] in goals.closures
    && goals.closures[goals.goalOf[r.uuid]].outcome == r.outcome
  }

  ghost predicate GoalsOk(goals: Goals, generation: nat) {
    && (forall u: nat :: u in goals.goalOf ==> goals.goalOf[u] <= generation)
    && (goals.pendingUuid.Some? ==>
          goals.pendingUuid.value in goals.goalOf && goals.goalOf[goals.pendingUuid.value] == generation)
    && (forall k: nat :: k < |goals.returned| ==> ReturnedOk(goals.returned[k], goals))
  }

  /** All but that the goal still has actions left. */
  ghost predicate Mid(cfg: Config, d: Dispatcher, goals: Goals, log: Log, submitted: nat) {
    && Inv(d.episode)
    && PlanOk(cfg, d, log.origins, submitted)
    && d.episode.progress.committed <= d.episode.goal.maxActions
    && LogOk(log.served, log.feedback, d.episode.progress.committed, d.Generation())
    && CorrelationsOk(log.feedback, d.pending.correlation, submitted)
    && ClosuresOk(goals.closures, d.episode)
    && ContextsOk(d.contexts, d.episode, goals)
    && HandleOk(d)
    && GoalsOk(goals, d.Generation())
  }

  ghost predicate HasBudget(e: Episode) {
    e.GateOpen() ==> e.progress.committed < e.goal.maxActions
  }

  ghost predicate DispatchOk(cfg: Config, d: Dispatcher, l: Ledger) {
    Mid(cfg, d, l.goals, l.log, l.traffic.submitted) && HasBudget(d.episode)
  }

  // ---- Ending a goal ---------------------------------------------------------------------------------

  lemma {:induction false} FreezeOne(contexts: seq<GoalContext>, generation: nat, outcome: Outcome, i: nat)
    requires i < |contexts|
    requires forall i: nat, j: nat :: i < j < |contexts| ==> contexts[i].generation < contexts[j].generation
    ensures Freeze(contexts, generation, outcome)[i]
            == if contexts[i].generation == generation && contexts[i].outcome.None?
               then contexts[i].(outcome := Some(outcome)) else contexts[i]
  {
    if contexts[0].generation != generation && i > 0 {
      FreezeOne(contexts[1..], generation, outcome, i - 1);
    }
  }

  predicate Fitting(kind: Conclusion, reason: Reason) {
    (reason == Canceled) == (kind == Cancels)
  }

  /** The frozen outcome is the one that the closed episode still tells. */
  lemma FrozenIsFinal(cfg: Config, d: Dispatcher, kind: Conclusion, reason: Reason)
    requires CanClose(d.episode, d.Generation()) && Fitting(kind, reason)
    ensures FinalOutcome(End(cfg, d, kind, reason).episode)
            == Outcome(CloseResult(d.episode, d.Generation(), reason).value, reason, StatusOf(kind))
  {
  }

  /** The goals after a goal ended in state `d`. */
  function Closed(cfg: Config, d: Dispatcher, goals: Goals, log: Log, kind: Conclusion, reason: Reason): Goals {
    var e := End(cfg, d, kind, reason).episode;
    goals.(closures := goals.closures[d.Generation() := Closure(FinalOutcome(e), e.goal.maxActions,
                                                                log.served, log.feedback)])
  }

  lemma EndCloses(cfg: Config, d: Dispatcher, goals: Goals, log: Log, submitted: nat,
                  kind: Conclusion, reason: Reason)
    requires Mid(cfg, d, goals, log, submitted) && CanClose(d.episode, d.Generation()) && Fitting(kind, reason)
    ensures ClosuresOk(Closed(cfg, d, goals, log, kind, reason).closures, End(cfg, d, kind, reason).episode)
    ensures d.Generation() !in goals.closures
  {
    FrozenIsFinal(cfg, d, kind, reason);
    var closed := Closed(cfg, d, goals, log, kind, reason);
    assert ClosureOk(closed.closures[d.Generation()], d.Generation());
  }

  lemma EndKeepsContexts(cfg: Config, d: Dispatcher, goals: Goals, log: Log, submitted: nat,
                         kind: Conclusion, reason: Reason)
    requires Mid(cfg, d, goals, log, submitted) && CanClose(d.episode, d.Generation()) && Fitting(kind, reason)
    ensures ContextsOk(End(cfg, d, kind, reason).contexts, End(cfg, d, kind, reason).episode,
                       Closed(cfg, d, goals, log, kind, reason))
  {
    FrozenIsFinal(cfg, d, kind, reason);
    var d' := End(cfg, d, kind, reason);
    var outcome := Outcome(CloseResult(d.episode, d.Generation(), reason).value, reason, StatusOf(kind));
    forall i: nat | i < |d'.contexts|
      ensures ContextOk(d'.contexts[i], d'.episode, Closed(cfg, d, goals, log, kind, reason))
      ensures d'.contexts[i].generation == d.contexts[i].generation
    {
      FreezeOne(d.contexts, d.Generation(), outcome, i);
      assert ContextOk(d.contexts[i], d.episode, goals);
    }
  }

  lemma ClosedKeepsReturned(cfg: Config, d: Dispatcher, goals: Goals, log: Log,
                            kind: Conclusion, reason: Reason)
    requires d.Generation() !in goals.closures && GoalsOk(goals, d.Generation())
    ensures GoalsOk(Closed(cfg, d, goals, log, kind, reason), d.Generation())
  {
    forall k: nat | k < |goals.returned|
      ensures ReturnedOk(goals.returned[k], Closed(cfg, d, goals, log, kind, reason))
    {
      assert ReturnedOk(goals.returned[k], goals);
    }
  }

  /** What the end of a goal leaves of everything but its context. */
  lemma EndShape(cfg: Config, d: Dispatcher, kind: Conclusion, reason: Reason)
    requires ValidPlan(cfg.settings, d.plan) && CanClose(d.episode, d.Generation()) && Inv(d.episode)
    ensures var d' := End(cfg, d, kind, reason);
            && ValidPlan(cfg.settings, d'.plan) && Remaining(d'.plan) == 0 && d'.plan.source.None?
            && d'.pending == NOTHING_PENDING && d'.Generation() == d.Generation()
            && d'.episode.progress.committed == d.episode.progress.committed
            && d'.episode.goal.maxActions == d.episode.goal.maxActions
            && !d'.episode.ActiveGoal() && Inv(d'.episode)
  {
    StepKeeps(d.episode, DoClose(d.Generation(), if kind == Aborts then Faulty else Normally, reason));
  }

  lemma EndKeeps(cfg: Config, d: Dispatcher, goals: Goals, log: Log, submitted: nat,
                 kind: Conclusion, reason: Reason)
    requires Mid(cfg, d, goals, log, submitted) && CanClose(d.episode, d.Generation()) && Fitting(kind, reason)
    ensures Mid(cfg, End(cfg, d, kind, reason), Closed(cfg, d, goals, log, kind, reason),
                log.(origins := {}), submitted)
    ensures !End(cfg, d, kind, reason).episode.ActiveGoal()
  {
    EndShape(cfg, d, kind, reason);
    EndCloses(cfg, d, goals, log, submitted, kind, reason);
    EndKeepsContexts(cfg, d, goals, log, submitted, kind, reason);
    ClosedKeepsReturned(cfg, d, goals, log, kind, reason);
    var d' := End(cfg, d, kind, reason);
    assert PlanOk(cfg, d', {}, submitted);
    assert HandleOk(d');
  }
}
