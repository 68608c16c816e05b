/**
 The local plan store. A candidate enters in one transaction; an action leaves either at once or
 through a reservation that a later accept or clear revokes.

 Two kinds of store share the bookkeeping: a plain queue and a temporally smoothed plan.
 */
module Plans {
  import opened Prelude
  import opened ChunkPlanning
  import opened Smoothing

  /** Which request an accepted plan came from. Identifiers are numbered in the order they are drawn. */
  datatype PlanSource = PlanSource(requestId: nat, requestGeneration: nat, sessionId: nat, sessionGeneration: nat)

  datatype Overflow = Bounded | FailClosed

  datatype Settings = Settings(capacity: nat, watermark: int, overflow: Overflow, smoothed: bool, weights: seq<real>)

  predicate ValidSettings(g: Settings) {
    g.capacity > 0 && (g.smoothed ==> Positive(g.weights))
  }

  datatype PlanReservation = PlanReservation(revision: nat, consumed: nat, source: Option<PlanSource>)

  /** The state of a plan store. A plain queue keeps no counts. */
  datatype Plan = Plan(
    store: Store,
    enabled: bool,
    revision: nat,
    consumed: nat,
    source: Option<PlanSource>,
    position: Option<int>,
    watermark: int,
    reservation: Option<PlanReservation>
  )

  predicate ValidPlan(g: Settings, p: Plan) {
    && ValidSettings(g)
    && (if g.smoothed then ValidStore(p.store, g.weights) else p.store.counts == [])
    && (p.reservation.Some? ==>
          p.reservation == Some(PlanReservation(p.revision, p.consumed, p.source)) && |p.store.actions| > 0)
  }

  function NewPlan(g: Settings, enabled: bool): Plan {
    Plan(EMPTY, enabled, 0, 0, None, None, g.watermark, None)
  }

  function Remaining(p: Plan): nat {
    |p.store.actions|
  }

  /** The part of a candidate's interval that a store of this kind takes. */
  function SelectedStart(g: Settings, candidate: ChunkPlan): int {
    var start, stop := candidate.Start(), candidate.Stop();
    if !g.smoothed && stop - start > g.capacity && g.overflow == Bounded then stop - g.capacity else start
  }

  function Selected(g: Settings, candidate: ChunkPlan): seq<Action>
    requires 0 <= candidate.Start() <= candidate.Stop() <= |candidate.actions.rows|
  {
    candidate.actions.rows[SelectedStart(g, candidate)..candidate.Stop()]
  }

  /** Why a candidate is refused, if it is. */
  function Refusal(g: Settings, p: Plan, candidate: ChunkPlan, dimension: Option<nat>): Option<PlanError> {
    var valid := ValidateChunkPlan(candidate, dimension);
    if valid.Err? then Some(valid.error)
    else if !g.smoothed && candidate.Stop() - candidate.Start() > g.capacity && g.overflow == FailClosed
    then Some(OverCapacity)
    else if g.smoothed && !Fits(p.store, p.enabled, Selected(g, candidate)) then Some(WidthMismatch)
    else None
  }

  function Accept(g: Settings, p: Plan, candidate: ChunkPlan, source: PlanSource, dimension: Option<nat>)
    : (r: Result<Plan, PlanError>)
    requires ValidPlan(g, p)
    ensures r.Err? <==> Refusal(g, p, candidate, dimension).Some?
    ensures r.Ok? ==> ValidPlan(g, r.value)
  {
    var refusal := Refusal(g, p, candidate, dimension);
    if refusal.Some? then Err(refusal.value)
    else
      var rows := Selected(g, candidate);
      Ok(Install(p, if g.smoothed then Prepare(p.store, p.enabled, rows, g.weights) else Store(rows, []),
                 source,
                 if g.smoothed && p.enabled then None else Some(SelectedStart(g, candidate)),
                 candidate.replenishmentWatermark.GetOr(g.watermark)))
  }

  /** A new plan and its metadata replace the old ones; any reservation is gone. */
  function Install(p: Plan, store: Store, source: PlanSource, position: Option<int>, watermark: int): Plan {
    Plan(store, p.enabled, p.revision + 1, 0, Some(source), position, watermark, None)
  }

  function Clear(g: Settings, p: Plan): Plan {
    Plan(EMPTY, p.enabled, p.revision + 1, 0, None, None, g.watermark, None)
  }

  function SetSmoothing(g: Settings, p: Plan, enabled: bool): Plan {
    if g.smoothed then p.(enabled := enabled) else p
  }

  /** Reserve the next action without consuming it; an outstanding reservation is handed out again. */
  function Reserve(p: Plan): Plan {
    if |p.store.actions| == 0 || p.reservation.Some? then p
    else p.(reservation := Some(PlanReservation(p.revision, p.consumed, p.source)))
  }

  predicate IsCurrent(p: Plan, reservation: Option<PlanReservation>) {
    && reservation.Some?
    && reservation == p.reservation
    && reservation.value == PlanReservation(p.revision, p.consumed, p.source)
    && |p.store.actions| > 0
  }

  function CommitReserved(p: Plan): Plan
    requires |p.store.actions| > 0
  {
    p.(store := Tail(p.store),
       consumed := p.consumed + 1,
       position := if p.position.None? then None else Some(p.position.value + 1),
       reservation := None)
  }

  function Commit(p: Plan, reservation: Option<PlanReservation>): Plan {
    if IsCurrent(p, reservation) then CommitReserved(p) else p
  }

  /** What a tick takes: the next action, else the last one again, else nothing. */
  datatype Taken = FromPlan(action: Action) | Hold(action: Action) | Nothing

  function Take(p: Plan, lastAction: Option<Action>): Taken {
    if |p.store.actions| > 0 then FromPlan(p.store.actions[0])
    else if lastAction.Some? then Hold(lastAction.value)
    else Nothing
  }

  function AfterTake(p: Plan): Plan {
    if |p.store.actions| > 0 then CommitReserved(p) else p
  }
}
