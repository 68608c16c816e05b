/**
 Runs of a smoothed plan between requests, consumption and arriving chunks.

 Every consumed action gets an absolute index, counted since the plan was last cleared. A chunk asked
 for when `n` actions had been consumed predicts the actions with indices `n`, `n + 1`, and so on.
 */
module SmoothingRuns {
  import opened Prelude
  import opened ChunkPlanning
  import opened Smoothing
  import opened Plans

  /** The usable rows of an accepted chunk, the first of which predicts action number `first`.
      `standalone`: smoothing was off, so that the rows were installed without blending. */
  datatype Batch = Batch(first: nat, rows: seq<Action>, standalone: bool)

  predicate Covers(b: Batch, index: nat) {
    b.first <= index < b.first + |b.rows|
  }

  function Prediction(b: Batch, index: nat): Action
    requires Covers(b, index)
  {
    b.rows[index - b.first]
  }

  /** The prediction for the action `k` places after action `total`. */
  predicate Predicts(b: Batch, total: nat, k: nat, value: Action) {
    Covers(b, total + k) && Prediction(b, total + k) == value
  }

  /** Every prediction ever accepted for the action with this index, oldest first. */
  function AllPredictions(log: seq<Batch>, index: nat): seq<Action> {
    if log == [] then []
    else
      var b := log[|log| - 1];
      AllPredictions(log[..|log| - 1], index) + if Covers(b, index) then [Prediction(b, index)] else []
  }

  /** The predictions that can still be in the plan: those since a chunk last ended before this index
      or was installed without blending. */
  function Contributions(log: seq<Batch>, index: nat): seq<Action> {
    if log == [] then []
    else
      var b := log[|log| - 1];
      if !Covers(b, index) then []
      else if b.standalone then [Prediction(b, index)]
      else Contributions(log[..|log| - 1], index) + [Prediction(b, index)]
  }

  datatype InFlight = InFlight(sentAt: nat, lengthAtStart: nat)

  datatype RunState = RunState(plan: Plan, total: nat, inFlight: Option<InFlight>, log: seq<Batch>)

  datatype Event =
    | Request
    | GiveUp
    | Pop
    | Deliver(planner: Planner, actions: Chunk, horizon: Option<int>, source: PlanSource, dimension: Option<nat>)
    | Toggle(enabled: bool)
    | Reset

  /** How many actions the dispatcher takes to have been executed during inference. */
  function ExecutedDuring(lengthAtStart: nat, remaining: nat): nat {
    Max(0, lengthAtStart - remaining)
  }

  function Arrived(g: Settings, s: RunState, e: Event): Result<Plan, PlanError>
    requires ValidPlan(g, s.plan) && e.Deliver? && s.inFlight.Some?
  {
    var executed := ExecutedDuring(s.inFlight.value.lengthAtStart, Remaining(s.plan));
    var planned := PlanChunk(e.planner, e.actions, executed, e.horizon);
    if planned.Err? then Err(planned.error) else Accept(g, s.plan, planned.value, e.source, e.dimension)
  }

  function BatchOf(s: RunState, e: Event): Batch
    requires e.Deliver? && s.inFlight.Some?
  {
    var stop := Executable(e.planner, e.actions, e.horizon);
    var usable := if 0 <= stop <= |e.actions.rows| then e.actions.rows[..stop] else [];
    Batch(s.inFlight.value.sentAt, usable, !s.plan.enabled)
  }

  function Step(g: Settings, s: RunState, e: Event): (r: RunState)
    requires ValidPlan(g, s.plan)
    ensures ValidPlan(g, r.plan)
  {
    match e
    case Request =>
      if s.inFlight.Some? then s else s.(inFlight := Some(InFlight(s.total, Remaining(s.plan))))
    case GiveUp => s.(inFlight := None)
    case Pop => s.(plan := AfterTake(s.plan), total := s.total + Min(1, Remaining(s.plan)))
    case Deliver(_, _, _, _, _) =>
      if s.inFlight.None? then s
      else if Arrived(g, s, e).Err? then s.(inFlight := None)
      else s.(plan := Arrived(g, s, e).value, inFlight := None, log := s.log + [BatchOf(s, e)])
    case Toggle(enabled) => s.(plan := SetSmoothing(g, s.plan, enabled))
    case Reset => RunState(Clear(g, s.plan), 0, None, [])
  }

  // ---- The invariant -----------------------------------------------------------------------------------

  /** The slot that will become action `index` is the mean of the first of its contributions, as many
      as there are weights, and counts them. */
  ghost predicate SlotIsMean(w: seq<real>, value: Action, count: nat, log: seq<Batch>, index: nat) {
    var cs := Contributions(log, index);
    |cs| > 0 && count == Min(|cs|, |w|) && IsMean(w, value, cs, count)
  }

  ghost predicate SlotsAreMeans(w: seq<real>, s: Store, log: seq<Batch>, total: nat) {
    |s.counts| == |s.actions|
    && forall k: nat :: k < |s.actions| ==> SlotIsMean(w, s.actions[k], s.counts[k], log, total + k)
  }

  ghost predicate NothingBeyond(log: seq<Batch>, end: nat) {
    |log| > 0 ==> log[|log| - 1].first + |log[|log| - 1].rows| <= end
  }

  ghost predicate Aligned(inFlight: Option<InFlight>, total: nat, remaining: nat) {
    inFlight.Some? ==>
      inFlight.value.sentAt <= total && inFlight.value.lengthAtStart == remaining + (total - inFlight.value.sentAt)
  }

  ghost predicate InOrder(log: seq<Batch>, total: nat, inFlight: Option<InFlight>) {
    && (forall j :: 0 <= j < |log| ==> log[j].first <= total)
    && (forall i, j :: 0 <= i < j < |log| ==> log[i].first <= log[j].first)
    && (inFlight.Some? ==> forall j :: 0 <= j < |log| ==> log[j].first <= inFlight.value.sentAt)
  }

  ghost predicate Inv(g: Settings, s: RunState) {
    && g.smoothed && ValidPlan(g, s.plan)
    && SlotsAreMeans(g.weights, s.plan.store, s.log, s.total)
    && NothingBeyond(s.log, s.total + Remaining(s.plan))
    && Aligned(s.inFlight, s.total, Remaining(s.plan))
    && InOrder(s.log, s.total, s.inFlight)
  }

  // ---- An arriving chunk -------------------------------------------------------------------------------

  lemma SingleIsMean(w: seq<real>, value: Action)
    requires Positive(w)
    ensures IsMean(w, value, [value], 1)
  {
    assert Cumulative(w, 1) == Cumulative(w, 0) + w[0];
    forall i | 0 <= i < |value|
      ensures value[i] * Cumulative(w, 1) == WeightedSum(w, [value], 1, i)
    {
      assert WeightedSum(w, [value], 1, i) == WeightedSum(w, [value], 0, i) + w[0] * value[i];
    }
  }

  lemma LaterPredictionsLeaveMean(w: seq<real>, value: Action, cs: seq<Action>, more: seq<Action>, n: nat)
    requires IsMean(w, value, cs, n)
    ensures IsMean(w, value, cs + more, n)
  {
    forall i | 0 <= i < |value|
      ensures value[i] * Cumulative(w, n) == WeightedSum(w, cs + more, n, i)
    {
      WeightedSumPrefix(w, cs, cs + more, n, i);
    }
  }

  lemma ContributionsBeyond(log: seq<Batch>, end: nat, index: nat)
    requires NothingBeyond(log, end) && end <= index
    ensures Contributions(log, index) == []
  {
  }

  lemma ContributionsAppend(log: seq<Batch>, b: Batch, index: nat)
    requires Covers(b, index)
    ensures Contributions(log + [b], index)
            == (if b.standalone then [] else Contributions(log, index)) + [Prediction(b, index)]
  {
    assert (log + [b])[..|log|] == log;
  }

  /** A slot that no earlier prediction shares. */
  lemma FreshSlot(w: seq<real>, value: Action, log: seq<Batch>, b: Batch, index: nat)
    requires Positive(w) && Covers(b, index) && value == Prediction(b, index)
    requires b.standalone || Contributions(log, index) == []
    ensures SlotIsMean(w, value, 1, log + [b], index)
  {
    ContributionsAppend(log, b, index);
    SingleIsMean(w, value);
  }

  /** A slot that absorbs one more prediction, or is frozen. */
  lemma BlendedSlot(w: seq<real>, s: Store, incoming: seq<Action>, k: nat, log: seq<Batch>, b: Batch, index: nat)
    requires Positive(w) && ValidStore(s, w) && Compatible(s, incoming) && k < |s.actions| && k < |incoming|
    requires SlotIsMean(w, s.actions[k], s.counts[k], log, index)
    requires Covers(b, index) && !b.standalone && incoming[k] == Prediction(b, index)
    ensures SlotIsMean(w, BlendSlot(s, incoming, w, k), CountSlot(s, w, k), log + [b], index)
  {
    var cs := Contributions(log, index);
    ContributionsAppend(log, b, index);
    assert |incoming[k]| == |incoming[0]| == |s.actions[0]| == |s.actions[k]|;
    if s.counts[k] < |w| {
      BlendIsMean(w, s.actions[k], incoming[k], cs, s.counts[k]);
    } else {
      LaterPredictionsLeaveMean(w, s.actions[k], cs, [incoming[k]], s.counts[k]);
    }
  }

  /** A prepared plan is right for every slot, if its rows are those that the chunk predicts from
      the first unconsumed action on. */
  lemma PreparedSlots(w: seq<real>, s: Store, enabled: bool, rows: seq<Action>, log: seq<Batch>, b: Batch, total: nat)
    requires Positive(w) && ValidStore(s, w) && Fits(s, enabled, rows)
    requires SlotsAreMeans(w, s, log, total) && NothingBeyond(log, total + |s.actions|)
    requires b.standalone == !enabled
    requires forall k: nat :: k < |rows| ==> Predicts(b, total, k, rows[k])
    ensures SlotsAreMeans(w, Prepare(s, enabled, rows, w), log + [b], total)
  {
    var r := Prepare(s, enabled, rows, w);
    forall k: nat | k < |rows|
      ensures SlotIsMean(w, r.actions[k], r.counts[k], log + [b], total + k)
    {
      assert Predicts(b, total, k, rows[k]);
      if |s.actions| == 0 || !enabled || k >= |s.actions| {
        if enabled {
          ContributionsBeyond(log, total + |s.actions|, total + k);
        }
        FreshSlot(w, rows[k], log, b, total + k);
        assert r.actions[k] == rows[k] && r.counts[k] == 1;
      } else {
        SmoothedSlot(s, rows, w, k);
        BlendedSlot(w, s, rows, k, log, b, total + k);
      }
    }
  }

  /** The accepted rows are the chunk's own predictions for the actions not yet consumed. */
  lemma DeliverAligns(g: Settings, s: RunState, e: Event)
    requires Inv(g, s) && e.Deliver? && s.inFlight.Some? && Arrived(g, s, e).Ok?
    ensures var b := BatchOf(s, e);
            var kept := Max(0, b.first + |b.rows| - s.total);
            && b.first <= s.total
            && (var rows := b.rows[|b.rows| - kept..];
                && Fits(s.plan.store, s.plan.enabled, rows)
                && Arrived(g, s, e).value.store == Prepare(s.plan.store, s.plan.enabled, rows, g.weights))
  {
    var executed := ExecutedDuring(s.inFlight.value.lengthAtStart, Remaining(s.plan));
    assert executed == s.total - s.inFlight.value.sentAt;
    PlanStartsAtExecuted(e.planner, e.actions, executed, e.horizon);
    var planned := PlanChunk(e.planner, e.actions, executed, e.horizon).value;
    AcceptedRows(g, s.plan, planned, e.source, e.dimension);
    var b := BatchOf(s, e);
    var kept := Max(0, b.first + |b.rows| - s.total);
    assert planned.actions.rows[planned.Start()..planned.Stop()] == b.rows[|b.rows| - kept..];
  }

  /** A smoothed store prepares the whole interval of its candidate. */
  lemma AcceptedRows(g: Settings, p: Plan, candidate: ChunkPlan, source: PlanSource, dimension: Option<nat>)
    requires g.smoothed && ValidPlan(g, p) && Accept(g, p, candidate, source, dimension).Ok?
    ensures 0 <= candidate.Start() <= candidate.Stop() <= |candidate.actions.rows|
    ensures var rows := candidate.actions.rows[candidate.Start()..candidate.Stop()];
            && Fits(p.store, p.enabled, rows)
            && Accept(g, p, candidate, source, dimension).value.store == Prepare(p.store, p.enabled, rows, g.weights)
  {
  }

  /** What is left of a batch after its first rows expired predicts the actions still to come. */
  lemma KeptRows(b: Batch, total: nat)
    requires b.first <= total
    ensures var kept := Max(0, b.first + |b.rows| - total);
            var rows := b.rows[|b.rows| - kept..];
            forall k: nat :: k < |rows| ==> Predicts(b, total, k, rows[k])
  {
  }

  lemma DeliveredSlots(g: Settings, s: RunState, e: Event)
    requires Inv(g, s) && e.Deliver? && s.inFlight.Some? && Arrived(g, s, e).Ok?
    ensures var b := BatchOf(s, e);
            && SlotsAreMeans(g.weights, Arrived(g, s, e).value.store, s.log + [b], s.total)
            && b.first <= s.total
            && Remaining(Arrived(g, s, e).value) == Max(0, b.first + |b.rows| - s.total)
  {
    DeliverAligns(g, s, e);
    KeptSlots(g, s.plan, s.log, BatchOf(s, e), s.total);
  }

  lemma KeptSlots(g: Settings, p: Plan, log: seq<Batch>, b: Batch, total: nat)
    requires ValidPlan(g, p) && g.smoothed && SlotsAreMeans(g.weights, p.store, log, total) && b.first <= total
    requires b.standalone == !p.enabled && NothingBeyond(log, total + Remaining(p))
    requires Fits(p.store, p.enabled, b.rows[|b.rows| - Max(0, b.first + |b.rows| - total)..])
    ensures var rows := b.rows[|b.rows| - Max(0, b.first + |b.rows| - total)..];
            var next := Prepare(p.store, p.enabled, rows, g.weights);
            SlotsAreMeans(g.weights, next, log + [b], total) && |next.actions| == Max(0, b.first + |b.rows| - total)
  {
    KeptRows(b, total);
    PreparedSlots(g.weights, p.store, p.enabled, b.rows[|b.rows| - Max(0, b.first + |b.rows| - total)..], log, b, total);
  }

  lemma DeliverKeeps(g: Settings, s: RunState, e: Event)
    requires Inv(g, s) && e.Deliver? && s.inFlight.Some? && Arrived(g, s, e).Ok?
    ensures Inv(g, Step(g, s, e))
  {
    DeliveredSlots(g, s, e);
  }

  lemma PopKeeps(g: Settings, s: RunState)
    requires Inv(g, s) && Remaining(s.plan) > 0
    ensures Inv(g, Step(g, s, Pop))
  {
    var t := Step(g, s, Pop);
    forall k: nat | k < Remaining(t.plan)
      ensures SlotIsMean(g.weights, t.plan.store.actions[k], t.plan.store.counts[k], t.log, t.total + k)
    {
      assert SlotIsMean(g.weights, s.plan.store.actions[k + 1], s.plan.store.counts[k + 1], s.log, s.total + (k + 1));
    }
  }

  lemma StepKeeps(g: Settings, s: RunState, e: Event)
    requires Inv(g, s)
    ensures Inv(g, Step(g, s, e))
  {
    match e
    case Deliver(_, _, _, _, _) =>
      if s.inFlight.Some? && Arrived(g, s, e).Ok? {
        DeliverKeeps(g, s, e);
      }
    case Pop =>
      if Remaining(s.plan) > 0 {
        PopKeeps(g, s);
      }
    case _ =>
  }

  /** Nothing planned, smoothing on. */
  function Initial(g: Settings): RunState {
    RunState(NewPlan(g, true), 0, None, [])
  }

  // ---- Whole runs --------------------------------------------------------------------------------------

  ghost predicate IsRun(g: Settings, ss: seq<RunState>, es: seq<Event>) {
    && |ss| == |es| + 1
    && ss[0] == Initial(g).(plan := ss[0].plan) && ss[0].plan == NewPlan(g, ss[0].plan.enabled)
    && (forall i :: 0 <= i < |es| ==> ValidPlan(g, ss[i].plan) && ss[i + 1] == Step(g, ss[i], es[i]))
  }

  lemma {:induction false} RunKeeps(g: Settings, ss: seq<RunState>, es: seq<Event>, n: nat)
    requires g.smoothed && ValidSettings(g) && IsRun(g, ss, es) && n < |ss|
    ensures Inv(g, ss[n])
  {
    if n > 0 {
      RunKeeps(g, ss, es, n - 1);
      StepKeeps(g, ss[n - 1], es[n - 1]);
    }
  }

  /** At every point of every run, the slot that will become action `total + k` has counted as many of
      its contributions as there are weights, and is exactly their weighted mean. */
  lemma SlotsAverageContributions(g: Settings, ss: seq<RunState>, es: seq<Event>, n: nat, k: nat)
    requires g.smoothed && ValidSettings(g) && IsRun(g, ss, es) && n < |ss| && k < Remaining(ss[n].plan)
    ensures var s := ss[n];
            var cs := Contributions(s.log, s.total + k);
            && |s.plan.store.counts| == Remaining(s.plan)
            && s.plan.store.counts[k] == Min(|cs|, |g.weights|) > 0
            && IsMean(g.weights, s.plan.store.actions[k], cs, s.plan.store.counts[k])
  {
    RunKeeps(g, ss, es, n);
    assert SlotIsMean(g.weights, ss[n].plan.store.actions[k], ss[n].plan.store.counts[k], ss[n].log, ss[n].total + k);
  }

  /** So every planned value lies between the least and the greatest of the predictions made for it. */
  lemma SlotsWithinContributions(g: Settings, ss: seq<RunState>, es: seq<Event>, n: nat, k: nat, i: nat,
                                 lo: real, hi: real)
    requires g.smoothed && ValidSettings(g) && IsRun(g, ss, es) && n < |ss| && k < Remaining(ss[n].plan)
    requires i < |ss[n].plan.store.actions[k]|
    requires forall c :: c in Contributions(ss[n].log, ss[n].total + k) && i < |c| ==> lo <= c[i] <= hi
    ensures lo <= ss[n].plan.store.actions[k][i] <= hi
  {
    SlotsAverageContributions(g, ss, es, n, k);
    MeanWithinContributions(g.weights, ss[n].plan.store.actions[k], Contributions(ss[n].log, ss[n].total + k),
                            ss[n].plan.store.counts[k], i, lo, hi);
  }

  /** Once a slot has used up the weights, no further chunk changes it while smoothing is on. */
  lemma FrozenSlot(g: Settings, s: RunState, e: Event, k: nat)
    requires Inv(g, s) && e.Deliver? && s.inFlight.Some? && Arrived(g, s, e).Ok? && s.plan.enabled
    requires k < Remaining(s.plan) && s.plan.store.counts[k] == |g.weights|
    requires k < Remaining(Step(g, s, e).plan)
    ensures Step(g, s, e).plan.store.actions[k] == s.plan.store.actions[k]
  {
    DeliverAligns(g, s, e);
    var b := BatchOf(s, e);
    var kept := Max(0, b.first + |b.rows| - s.total);
    SmoothedSlot(s.plan.store, b.rows[|b.rows| - kept..], g.weights, k);
  }

  // ---- Contributions against the whole history ---------------------------------------------------------

  /** After a chunk that predicts this action, every later one predicts it too and is blended. */
  predicate Unbroken(log: seq<Batch>, index: nat) {
    forall i, j :: 0 <= i < j < |log| && Covers(log[i], index) ==> Covers(log[j], index) && !log[j].standalone
  }

  lemma {:induction false} ContributionsAtMostAll(log: seq<Batch>, index: nat)
    ensures |Contributions(log, index)| <= |AllPredictions(log, index)|
  {
    if log != [] {
      ContributionsAtMostAll(log[..|log| - 1], index);
    }
  }

  lemma {:induction false} NoPredictions(log: seq<Batch>, index: nat)
    ensures AllPredictions(log, index) == [] <==> forall i :: 0 <= i < |log| ==> !Covers(log[i], index)
  {
    if log != [] {
      NoPredictions(log[..|log| - 1], index);
    }
  }

  lemma UnbrokenPrefix(log: seq<Batch>, index: nat)
    requires |log| > 0
    ensures var n := |log| - 1;
            Unbroken(log, index) <==>
              Unbroken(log[..n], index)
              && ((exists i :: 0 <= i < n && Covers(log[i], index)) ==> Covers(log[n], index) && !log[n].standalone)
  {
    var n := |log| - 1;
    assert forall i :: 0 <= i < n ==> log[..n][i] == log[i];
  }

  /** A slot averages the whole history of its predictions exactly when that history is unbroken. */
  lemma {:induction false} WholeHistoryIffUnbroken(log: seq<Batch>, index: nat)
    ensures Contributions(log, index) == AllPredictions(log, index) <==> Unbroken(log, index)
  {
    if log != [] {
      var n := |log| - 1;
      WholeHistoryIffUnbroken(log[..n], index);
      UnbrokenPrefix(log, index);
      LastBatchKeepsHistory(log, index);
    }
  }

  /** With its last batch, a history stays whole if the batch blends one more prediction in, or if there
      was no prediction before. */
  lemma LastBatchKeepsHistory(log: seq<Batch>, index: nat)
    requires |log| > 0
    ensures var n := |log| - 1;
            Contributions(log, index) == AllPredictions(log, index) <==>
              Contributions(log[..n], index) == AllPredictions(log[..n], index)
              && ((exists i :: 0 <= i < n && Covers(log[i], index)) ==> Covers(log[n], index) && !log[n].standalone)
  {
    var n := |log| - 1;
    var b := log[n];
    var before, all := Contributions(log[..n], index), AllPredictions(log[..n], index);
    NoPredictions(log[..n], index);
    ContributionsAtMostAll(log[..n], index);
    assert forall i :: 0 <= i < n ==> log[..n][i] == log[i];
    assert all == [] <==> !exists i :: 0 <= i < n && Covers(log[i], index);
    if Covers(b, index) && !b.standalone {
      var p := [Prediction(b, index)];
      assert before + p == all + p <==> before == all by {
        assert (before + p)[..|before|] == before && (all + p)[..|all|] == all;
      }
    }
  }

  /** Chunks that never end before an earlier one, all blended, leave no history out. */
  lemma GrowingChunksAreUnbroken(g: Settings, s: RunState, index: nat)
    requires Inv(g, s) && s.total <= index
    requires forall j :: 0 <= j < |s.log| ==> !s.log[j].standalone
    requires forall i, j :: 0 <= i < j < |s.log| ==>
               s.log[i].first + |s.log[i].rows| <= s.log[j].first + |s.log[j].rows|
    ensures Contributions(s.log, index) == AllPredictions(s.log, index)
  {
    WholeHistoryIffUnbroken(s.log, index);
  }

  function Arrive(rows: seq<Action>, source: PlanSource): Event {
    Deliver(FullChunk, Chunk(2, rows, 1, true), None, source, None)
  }

  /** One request and its answer, with nothing consumed in between. */
  function Answered(g: Settings, s: RunState, rows: seq<Action>, source: PlanSource): RunState
    requires ValidPlan(g, s.plan)
  {
    Step(g, Step(g, s, Request), Arrive(rows, source))
  }

  lemma AnswerAtOnce(g: Settings, s: RunState, rows: seq<Action>, source: PlanSource)
    requires g.smoothed && ValidPlan(g, s.plan) && s.total == 0 && s.inFlight.None? && s.plan.enabled && |rows| > 0
    requires Compatible(s.plan.store, rows)
    ensures var t := Answered(g, s, rows, source);
            && t.total == 0 && t.inFlight.None? && t.plan.enabled
            && t.plan.store == Prepare(s.plan.store, true, rows, g.weights)
            && t.log == s.log + [Batch(0, rows, false)]
  {
    PlanStartsAtExecuted(FullChunk, Arrive(rows, source).actions, 0, None);
    assert rows[0..|rows|] == rows;
  }

  /** A chunk that ends early drops the plan beyond its end, so that the next longer chunk starts those
      slots afresh: action `k` was predicted twice, and its slot has absorbed the last prediction only. */
  lemma ShorterChunkForgets(g: Settings, a: seq<Action>, b: seq<Action>, c: seq<Action>, k: nat, source: PlanSource)
    requires g.smoothed && ValidSettings(g)
    requires 0 < |b| <= k < |a| && k < |c|
    requires OneWidth(a) && OneWidth(b) && OneWidth(c) && |a[0]| == |b[0]| == |c[0]| == 1
    ensures var s := Answered(g, Answered(g, Answered(g, Initial(g), a, source), b, source), c, source);
            && k < Remaining(s.plan) && s.plan.store.actions[k] == c[k]
            && k < |s.plan.store.counts| && s.plan.store.counts[k] == 1
            && AllPredictions(s.log, k) == [a[k], c[k]]
  {
    FirstAnswer(g, a, source);
    var s1 := Answered(g, Initial(g), a, source);
    NextAnswer(g, s1, b, source, |b| - 1);
    var s2 := Answered(g, s1, b, source);
    NextAnswer(g, s2, c, source, k);
    HistoryOfThree(Answered(g, s2, c, source).log, k);
  }

  /** Smoothing a plan of single-valued actions of which none was consumed. */
  predicate Unconsumed(g: Settings, s: RunState, n: nat) {
    && g.smoothed && ValidPlan(g, s.plan) && s.total == 0 && s.inFlight.None? && s.plan.enabled
    && |s.plan.store.actions| == n && (n > 0 ==> |s.plan.store.actions[0]| == 1)
  }

  lemma FirstAnswer(g: Settings, a: seq<Action>, source: PlanSource)
    requires g.smoothed && ValidSettings(g) && 0 < |a| && OneWidth(a) && |a[0]| == 1
    ensures var s := Answered(g, Initial(g), a, source);
            Unconsumed(g, s, |a|) && s.log == [Batch(0, a, false)]
  {
    AnswerAtOnce(g, Initial(g), a, source);
  }

  lemma NextAnswer(g: Settings, s: RunState, rows: seq<Action>, source: PlanSource, k: nat)
    requires 0 < Remaining(s.plan) && Unconsumed(g, s, Remaining(s.plan))
    requires 0 < |rows| && OneWidth(rows) && |rows[0]| == 1 && k < |rows|
    ensures var t := Answered(g, s, rows, source);
            && Unconsumed(g, t, |rows|) && t.log == s.log + [Batch(0, rows, false)]
            && k < |t.plan.store.counts|
            && (Remaining(s.plan) <= k ==> t.plan.store.actions[k] == rows[k] && t.plan.store.counts[k] == 1)
  {
    AnswerAtOnce(g, s, rows, source);
    PreparedWidth(g.weights, s.plan.store, rows);
  }

  lemma PreparedWidth(w: seq<real>, s: Store, rows: seq<Action>)
    requires Positive(w) && ValidStore(s, w) && Compatible(s, rows) && |rows| > 0 && |s.actions| > 0
    ensures var r := Prepare(s, true, rows, w);
            && |r.actions| == |r.counts| == |rows| && |r.actions[0]| == |rows[0]|
            && forall k :: |s.actions| <= k < |rows| ==> r.actions[k] == rows[k] && r.counts[k] == 1
  {
    forall k: nat | k < |rows|
      ensures var r := Prepare(s, true, rows, w);
              && |r.actions[k]| == |rows[k]|
              && (|s.actions| <= k ==> r.actions[k] == rows[k] && r.counts[k] == 1)
    {
      SmoothedSlot(s, rows, w, k);
    }
  }

  lemma HistoryOfThree(log: seq<Batch>, k: nat)
    requires |log| == 3 && !Covers(log[1], k) && Covers(log[0], k) && Covers(log[2], k)
    ensures AllPredictions(log, k) == [Prediction(log[0], k), Prediction(log[2], k)]
  {
    assert log[..2][..1] == log[..1] && log[..1][..0] == [];
    assert AllPredictions(log[..1], k) == [Prediction(log[0], k)];
    assert AllPredictions(log[..2], k) == [Prediction(log[0], k)];
  }
}
