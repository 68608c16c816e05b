/** Runs of a plan store: it refines a plain queue, and reservations are used at most once. */
module PlanRuns {
  import opened Prelude
  import opened ChunkPlanning
  import opened Smoothing
  import opened Plans

  datatype Op =
    | DoAccept(candidate: ChunkPlan, source: PlanSource, dimension: Option<nat>)
    | DoClear
    | DoToggle(enabled: bool)
    | DoReserve
    | DoCommit(reservation: Option<PlanReservation>)
    | DoTake

  function Step(g: Settings, p: Plan, op: Op): (r: Plan)
    requires ValidPlan(g, p)
    ensures ValidPlan(g, r)
  {
    match op
    case DoAccept(candidate, source, dimension) =>
      var r := Accept(g, p, candidate, source, dimension);
      if r.Ok? then r.value else p
    case DoClear => Clear(g, p)
    case DoToggle(enabled) => SetSmoothing(g, p, enabled)
    case DoReserve => Reserve(p)
    case DoCommit(reservation) => Commit(p, reservation)
    case DoTake => AfterTake(p)
  }

  /** The action that a step consumes, if any. */
  function Consumes(p: Plan, op: Op): seq<Action> {
    if |p.store.actions| > 0 && (op.DoTake? || (op.DoCommit? && IsCurrent(p, op.reservation)))
    then [p.store.actions[0]] else []
  }

  /** Does this step install or discard a plan? */
  predicate Replaces(g: Settings, p: Plan, op: Op)
    requires ValidPlan(g, p)
  {
    op.DoClear? || (op.DoAccept? && Accept(g, p, op.candidate, op.source, op.dimension).Ok?)
  }

  ghost predicate IsPlanRun(g: Settings, ps: seq<Plan>, ops: seq<Op>) {
    && |ps| == |ops| + 1
    && ValidPlan(g, ps[0])
    && (forall i :: 0 <= i < |ops| ==> ValidPlan(g, ps[i]) && ps[i + 1] == Step(g, ps[i], ops[i]))
  }

  /** Everything consumed by the steps from `i` up to `j`, in order. */
  ghost function Consumed(ps: seq<Plan>, ops: seq<Op>, i: nat, j: nat): seq<Action>
    requires i <= j <= |ops| < |ps|
  {
    if i == j then [] else Consumed(ps, ops, i, j - 1) + Consumes(ps[j - 1], ops[j - 1])
  }

  /** Without a replacement, a step either takes the head off the plan or leaves the plan alone. */
  lemma StepConsumes(g: Settings, p: Plan, op: Op)
    requires ValidPlan(g, p) && !Replaces(g, p, op)
    ensures var q := Step(g, p, op);
            if Consumes(p, op) == [] then q.store.actions == p.store.actions && q.consumed == p.consumed
            else Consumes(p, op) + q.store.actions == p.store.actions && q.consumed == p.consumed + 1
                 && |Consumes(p, op)| == 1
  {
  }

  /** `taken` is the first `n` actions of an interval, and `rest` is what comes after them. */
  ghost predicate Splits(interval: seq<Action>, n: nat, taken: seq<Action>, rest: seq<Action>) {
    n == |taken| && interval == taken + rest
  }

  lemma StepSplits(g: Settings, p: Plan, op: Op, interval: seq<Action>, taken: seq<Action>)
    requires ValidPlan(g, p) && !Replaces(g, p, op) && Splits(interval, p.consumed, taken, p.store.actions)
    ensures Splits(interval, Step(g, p, op).consumed, taken + Consumes(p, op), Step(g, p, op).store.actions)
  {
    StepConsumes(g, p, op);
  }

  /** Between replacements the store hands out its interval in order, without skip or repeat, and what
      was consumed and what remains add up to the interval. */
  lemma {:induction false} RefinesQueue(g: Settings, ps: seq<Plan>, ops: seq<Op>, i: nat, j: nat)
    requires IsPlanRun(g, ps, ops) && i < j <= |ops|
    requires Replaces(g, ps[i], ops[i])
    requires forall k :: i < k < j ==> ValidPlan(g, ps[k]) && !Replaces(g, ps[k], ops[k])
    ensures Splits(ps[i + 1].store.actions, ps[j].consumed, Consumed(ps, ops, i + 1, j), ps[j].store.actions)
  {
    if j > i + 1 {
      RefinesQueue(g, ps, ops, i, j - 1);
      StepSplits(g, ps[j - 1], ops[j - 1], ps[i + 1].store.actions, Consumed(ps, ops, i + 1, j - 1));
    }
  }

  // ---- What the ticks hand out ------------------------------------------------------------------------

  /** The action a tick was handed, from the plan or by holding the last one. */
  function HandedOut(taken: Taken): seq<Action> {
    if taken.Nothing? then [] else [taken.action]
  }

  function Latest(actions: seq<Action>): Option<Action> {
    if actions == [] then None else Some(actions[|actions| - 1])
  }

  /** What the ticks before step `j` were handed, in order. The caller of a tick passes in the action that it
      was handed last. */
  ghost function Executed(ps: seq<Plan>, ops: seq<Op>, j: nat): seq<Action>
    requires j <= |ops| < |ps|
  {
    if j == 0 then []
    else
      var before := Executed(ps, ops, j - 1);
      if ops[j - 1].DoTake? then before + HandedOut(Take(ps[j - 1], Latest(before))) else before
  }

  /** What the ticks of the steps from `i` up to `j` got from the plan itself, in order. */
  ghost function FromThePlan(ps: seq<Plan>, ops: seq<Op>, i: nat, j: nat): seq<Action>
    requires i <= j <= |ops| < |ps|
  {
    if i == j then []
    else
      var taken := Take(ps[j - 1], Latest(Executed(ps, ops, j - 1)));
      FromThePlan(ps, ops, i, j - 1)
      + if ops[j - 1].DoTake? && taken.FromPlan? then [taken.action] else []
  }

  /** A tick is handed exactly the action that it takes off the plan. From an empty plan it is handed what the
      latest tick was handed, and nothing if no tick was handed anything. */
  lemma TickIsHanded(g: Settings, ps: seq<Plan>, ops: seq<Op>, n: nat)
    requires IsPlanRun(g, ps, ops) && n < |ops| && ops[n] == DoTake
    ensures var before, after := Executed(ps, ops, n), Executed(ps, ops, n + 1);
            if Remaining(ps[n]) > 0 then
              exists a :: after == before + [a] && [a] + ps[n + 1].store.actions == ps[n].store.actions
            else if |before| > 0 then
              after == before + [before[|before| - 1]] && ps[n + 1] == ps[n]
            else
              after == [] && ps[n + 1] == ps[n]
  {
    var before, after := Executed(ps, ops, n), Executed(ps, ops, n + 1);
    assert ps[n + 1] == Step(g, ps[n], ops[n]);
    if Remaining(ps[n]) > 0 {
      var a := ps[n].store.actions[0];
      assert after == before + [a];
      assert [a] + ps[n + 1].store.actions == ps[n].store.actions;
    }
  }

  lemma {:induction false} TakesAreConsumed(g: Settings, ps: seq<Plan>, ops: seq<Op>, i: nat, j: nat)
    requires IsPlanRun(g, ps, ops) && i <= j <= |ops|
    requires forall k {:trigger ops[k]} :: i <= k < j ==> !ops[k].DoCommit?
    ensures FromThePlan(ps, ops, i, j) == Consumed(ps, ops, i, j)
  {
    if i < j {
      TakesAreConsumed(g, ps, ops, i, j - 1);
    }
  }

  /** Between replacements the ticks are handed the installed interval in order, without skip or repeat: what
      they got from the plan and what remains add up to the interval. */
  lemma TicksHandOutTheInterval(g: Settings, ps: seq<Plan>, ops: seq<Op>, i: nat, j: nat)
    requires IsPlanRun(g, ps, ops) && i < j <= |ops|
    requires Replaces(g, ps[i], ops[i])
    requires forall k :: i < k < j ==> ValidPlan(g, ps[k]) && !Replaces(g, ps[k], ops[k])
    requires forall k {:trigger ops[k]} :: i < k < j ==> !ops[k].DoCommit?
    ensures ps[i + 1].store.actions == FromThePlan(ps, ops, i + 1, j) + ps[j].store.actions
    ensures ps[j].consumed == |FromThePlan(ps, ops, i + 1, j)|
  {
    var taken := FromThePlan(ps, ops, i + 1, j);
    assert taken == Consumed(ps, ops, i + 1, j) by {
      TakesAreConsumed(g, ps, ops, i + 1, j);
    }
    assert Splits(ps[i + 1].store.actions, ps[j].consumed, taken, ps[j].store.actions) by {
      RefinesQueue(g, ps, ops, i, j);
    }
  }

  /** The interval that an accepted candidate installs: as long as what was selected and, for a queue
      or a smoother with nothing to smooth, exactly that; a bounded queue keeps the newest actions. */
  lemma AcceptedInterval(g: Settings, p: Plan, candidate: ChunkPlan, source: PlanSource, dimension: Option<nat>)
    requires ValidPlan(g, p) && Accept(g, p, candidate, source, dimension).Ok?
    ensures var q := Accept(g, p, candidate, source, dimension).value;
            var rows := candidate.actions.rows;
            && 0 <= candidate.Start() <= candidate.Stop() <= |rows|
            && (g.smoothed ==> Remaining(q) == candidate.Stop() - candidate.Start())
            && (!g.smoothed ==> Remaining(q) == Min(g.capacity, candidate.Stop() - candidate.Start()))
            && (!g.smoothed || Remaining(p) == 0 || !p.enabled ==>
                  q.store.actions == rows[candidate.Stop() - Remaining(q)..candidate.Stop()])
            && q.revision == p.revision + 1 && q.consumed == 0 && q.reservation.None? && q.source == Some(source)
            && q.watermark == candidate.replenishmentWatermark.GetOr(g.watermark)
            && (q.position.None? <==> g.smoothed && p.enabled)
            && (q.position.Some? ==> q.position.value == candidate.Stop() - Remaining(q))
  {
  }

  /** A store takes a valid candidate exactly when it has room for it, or may drop its oldest actions, and, for
      a smoother, when the rows it would combine have one width; it refuses any other one unchanged. */
  lemma CandidateAcceptedIff(g: Settings, p: Plan, candidate: ChunkPlan, source: PlanSource, dimension: Option<nat>)
    requires ValidPlan(g, p)
    ensures var r := Accept(g, p, candidate, source, dimension);
            var valid := ValidateChunkPlan(candidate, dimension);
            && (valid.Err? ==> r == Err(valid.error))
            && (valid.Ok? && !g.smoothed ==>
                  (r.Err? <==> candidate.Stop() - candidate.Start() > g.capacity && g.overflow == FailClosed)
                  && (r.Err? ==> r.error == OverCapacity))
            && (valid.Ok? && g.smoothed ==>
                  var rows := candidate.actions.rows[candidate.Start()..candidate.Stop()];
                  (r.Ok? <==>
                     && (forall k :: 0 <= k < |rows| ==> |rows[k]| == |rows[0]|)
                     && (p.enabled && |rows| > 0 && Remaining(p) > 0 ==> |rows[0]| == |p.store.actions[0]|))
                  && (r.Err? ==> r.error == WidthMismatch))
            && Step(g, p, DoAccept(candidate, source, dimension)) == if r.Ok? then r.value else p
  {
  }

  /** Clearing discards the plan with all that was known of it; switching the smoothing leaves the plan alone, and
      means nothing to a plain queue. */
  lemma ClearedAndToggled(g: Settings, ps: seq<Plan>, ops: seq<Op>, n: nat)
    requires IsPlanRun(g, ps, ops) && n < |ops|
    ensures ops[n] == DoClear ==>
              && Remaining(ps[n + 1]) == 0 && ps[n + 1].source.None? && ps[n + 1].position.None?
              && ps[n + 1].reservation.None? && ps[n + 1].consumed == 0 && ps[n + 1].watermark == g.watermark
              && ps[n + 1].revision == ps[n].revision + 1 && ps[n + 1].enabled == ps[n].enabled
    ensures ops[n].DoToggle? ==> ps[n + 1] == if g.smoothed then ps[n].(enabled := ops[n].enabled) else ps[n]
  {
    assert ps[n + 1] == Step(g, ps[n], ops[n]);
  }

  /** Until the next replacement the plan keeps its source and watermark, and its position in the chunk
      advances by exactly what was consumed. */
  lemma {:induction false} PositionFollowsConsumption(g: Settings, ps: seq<Plan>, ops: seq<Op>, i: nat, j: nat)
    requires IsPlanRun(g, ps, ops) && i <= j <= |ops|
    requires forall k :: i <= k < j ==> ValidPlan(g, ps[k]) && !Replaces(g, ps[k], ops[k])
    ensures ps[j].source == ps[i].source && ps[j].watermark == ps[i].watermark && ps[j].revision == ps[i].revision
    ensures ps[j].position == if ps[i].position.None? then None
                              else Some(ps[i].position.value + ps[j].consumed - ps[i].consumed)
  {
    if i < j {
      PositionFollowsConsumption(g, ps, ops, i, j - 1);
      assert ps[j] == Step(g, ps[j - 1], ops[j - 1]);
    }
  }

  // ---- Reservations ---------------------------------------------------------------------------------

  /** Plans are ordered by revision, then by how much of that revision was consumed. */
  predicate NoLater(p: Plan, q: Plan) {
    p.revision < q.revision || (p.revision == q.revision && p.consumed <= q.consumed)
  }

  lemma {:induction false} StampGrows(g: Settings, ps: seq<Plan>, ops: seq<Op>, i: nat, j: nat)
    requires IsPlanRun(g, ps, ops) && i <= j < |ps|
    ensures NoLater(ps[i], ps[j])
  {
    if i < j {
      StampGrows(g, ps, ops, i, j - 1);
      assert ps[j] == Step(g, ps[j - 1], ops[j - 1]);
    }
  }

  lemma {:induction false} UntouchedStaysCurrent(g: Settings, ps: seq<Plan>, ops: seq<Op>, i: nat, j: nat,
                                                 r: Option<PlanReservation>)
    requires IsPlanRun(g, ps, ops) && i <= j <= |ops| && IsCurrent(ps[i], r)
    requires forall k :: i <= k < j ==> ValidPlan(g, ps[k]) && !Replaces(g, ps[k], ops[k]) && Consumes(ps[k], ops[k]) == []
    ensures IsCurrent(ps[j], r) && ps[j].store.actions == ps[i].store.actions
  {
    if i < j {
      UntouchedStaysCurrent(g, ps, ops, i, j - 1, r);
      assert ps[j] == Step(g, ps[j - 1], ops[j - 1]);
    }
  }

  lemma TouchedIsNotCurrent(g: Settings, ps: seq<Plan>, ops: seq<Op>, i: nat, k: nat, j: nat, r: PlanReservation)
    requires IsPlanRun(g, ps, ops) && i <= k < j <= |ops| && ValidPlan(g, ps[k])
    requires r.revision == ps[i].revision && r.consumed == ps[i].consumed
    requires Replaces(g, ps[k], ops[k]) || Consumes(ps[k], ops[k]) != []
    ensures !IsCurrent(ps[j], Some(r))
  {
    StampGrows(g, ps, ops, i, k);
    StampGrows(g, ps, ops, k + 1, j);
    assert ps[k + 1] == Step(g, ps[k], ops[k]);
  }

  /** A reservation of the next action stays current for exactly as long as no plan is installed or discarded
      and nothing is consumed. */
  lemma ReservationIsCurrentIff(g: Settings, ps: seq<Plan>, ops: seq<Op>, i: nat, j: nat)
    requires IsPlanRun(g, ps, ops) && i < j <= |ops| && ops[i] == DoReserve && Remaining(ps[i]) > 0
    requires forall k :: i < k < j ==> ValidPlan(g, ps[k])
    ensures IsCurrent(ps[j], ps[i + 1].reservation)
            <==> forall k :: i < k < j ==> !Replaces(g, ps[k], ops[k]) && Consumes(ps[k], ops[k]) == []
  {
    assert ps[i + 1] == Step(g, ps[i], ops[i]);
    var r := ps[i + 1].reservation;
    assert IsCurrent(ps[i + 1], r);
    if k :| i < k < j && (Replaces(g, ps[k], ops[k]) || Consumes(ps[k], ops[k]) != []) {
      TouchedIsNotCurrent(g, ps, ops, i + 1, k, j, r.value);
    } else {
      UntouchedStaysCurrent(g, ps, ops, i + 1, j, r);
    }
  }

  /** Committing a reservation that is still current consumes the action that was next when it was taken. */
  lemma CommitConsumesReserved(g: Settings, ps: seq<Plan>, ops: seq<Op>, i: nat, j: nat)
    requires IsPlanRun(g, ps, ops) && i < j < |ops| && ops[i] == DoReserve && Remaining(ps[i]) > 0
    requires forall k :: i < k < j ==> ValidPlan(g, ps[k]) && !Replaces(g, ps[k], ops[k]) && Consumes(ps[k], ops[k]) == []
    requires ops[j] == DoCommit(ps[i + 1].reservation)
    ensures [ps[i].store.actions[0]] + ps[j + 1].store.actions == ps[i].store.actions
  {
    assert ps[i + 1] == Step(g, ps[i], ops[i]);
    UntouchedStaysCurrent(g, ps, ops, i + 1, j, ps[i + 1].reservation);
    assert ps[j + 1] == Step(g, ps[j], ops[j]);
  }

  /** A reservation commits at most once, whatever happens in between. */
  lemma CommitsAtMostOnce(g: Settings, ps: seq<Plan>, ops: seq<Op>, i: nat, j: nat, r: Option<PlanReservation>)
    requires IsPlanRun(g, ps, ops) && i < j < |ops|
    requires ops[i] == DoCommit(r) && IsCurrent(ps[i], r)
    ensures !IsCurrent(ps[j], r)
  {
    StampGrows(g, ps, ops, i + 1, j);
  }

  /** A reservation taken before the plan was replaced is never current again. */
  lemma ReplacementRevokes(g: Settings, ps: seq<Plan>, ops: seq<Op>, h: nat, i: nat, j: nat)
    requires IsPlanRun(g, ps, ops) && h <= i < j < |ps| && i < |ops|
    requires ps[h].reservation.Some? && ValidPlan(g, ps[i]) && Replaces(g, ps[i], ops[i])
    ensures !IsCurrent(ps[j], ps[h].reservation)
  {
    StampGrows(g, ps, ops, h, i);
    StampGrows(g, ps, ops, i + 1, j);
    assert ValidPlan(g, ps[h]);
  }
}
