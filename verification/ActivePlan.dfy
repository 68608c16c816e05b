/** The plan store as an object, over a plain queue or a temporal smoother that it owns. */
module ActivePlanStore {
  import opened Prelude
  import opened ChunkPlanning
  import opened Smoothing
  import opened Plans

  class ActivePlan {
    const settings: Settings
    const smoother: TemporalSmoother?
    var queue: seq<Action>
    var revision: nat
    var consumed: nat
    var source: Option<PlanSource>
    var position: Option<int>
    var watermark: int
    var reservation: Option<PlanReservation>
    // Prepared by a reservation so that its commit only swaps references.
    var reservedTail: Store
    var reservedConsumed: nat
    var reservedPosition: Option<int>

    ghost function Repr(): set<object> {
      if smoother == null then {this} else {this, smoother}
    }

    ghost function View(): Plan
      reads Repr()
    {
      Plan(if smoother == null then Store(queue, []) else smoother.View(),
           smoother != null && smoother.enabled,
           revision, consumed, source, position, watermark, reservation)
    }

    ghost predicate Valid()
      reads Repr()
    {
      && (smoother == null <==> !settings.smoothed)
      && (smoother != null ==> smoother.Valid() && smoother.weights == settings.weights && queue == [])
      && ValidPlan(settings, View())
      && (reservation.Some? ==>
            && (smoother != null ==> reservedTail == Tail(View().store))
            && reservedConsumed == consumed + 1
            && reservedPosition == (if position.None? then None else Some(position.value + 1)))
    }

    constructor (settings: Settings, smoother: TemporalSmoother?)
      requires ValidSettings(settings)
      requires smoother == null <==> !settings.smoothed
      requires smoother != null ==>
                 smoother.Valid() && smoother.weights == settings.weights && smoother.View() == EMPTY
      ensures Valid() && fresh(this) && this.settings == settings && this.smoother == smoother
      ensures View() == NewPlan(settings, smoother != null && smoother.enabled)
    {
      this.settings, this.smoother := settings, smoother;
      queue := [];
      revision, consumed, source, position, watermark := 0, 0, None, None, settings.watermark;
      reservation, reservedTail, reservedConsumed, reservedPosition := None, EMPTY, 0, None;
    }

    method Remaining() returns (n: nat)
      requires Valid()
      ensures n == Plans.Remaining(View())
    {
      n := if smoother != null then |smoother.smoothedActions| else |queue|;
    }

    /** Every check precedes the swap: a refused candidate leaves the plan as it was. */
    method Accept(candidate: ChunkPlan, newSource: PlanSource, dimension: Option<nat>)
      returns (r: Result<Plan, PlanError>)
      requires Valid()
      modifies Repr()
      ensures Valid()
      ensures r == old(Plans.Accept(settings, View(), candidate, newSource, dimension))
      ensures View() == if r.Ok? then r.value else old(View())
    {
      var valid := ValidateChunkPlan(candidate, dimension);
      if valid.Err? {
        return Err(valid.error);
      }
      var newWatermark := candidate.replenishmentWatermark.GetOr(settings.watermark);
      if smoother == null {
        r := AcceptQueued(candidate, newSource, newWatermark);
      } else {
        r := AcceptSmoothed(candidate, newSource, newWatermark);
      }
    }

    method AcceptQueued(candidate: ChunkPlan, newSource: PlanSource, newWatermark: int)
      returns (r: Result<Plan, PlanError>)
      requires Valid() && smoother == null
      requires 0 <= candidate.Start() <= candidate.Stop() <= |candidate.actions.rows|
      modifies this
      ensures Valid()
      ensures r.Err? <==> candidate.Stop() - candidate.Start() > settings.capacity && settings.overflow == FailClosed
      ensures r.Err? ==> r.error == OverCapacity && View() == old(View())
      ensures r.Ok? ==> r.value == View()
                        == Plans.Install(old(View()), Store(Selected(settings, candidate), []), newSource,
                                         Some(SelectedStart(settings, candidate)), newWatermark)
    {
      var start, stop := candidate.Start(), candidate.Stop();
      if stop - start > settings.capacity {
        if settings.overflow == FailClosed {
          return Err(OverCapacity);
        }
        start := stop - settings.capacity;
      }
      queue := candidate.actions.rows[start..stop];
      Install(newSource, Some(start), newWatermark);
      var current := Snapshot();
      r := Ok(current);
    }

    method AcceptSmoothed(candidate: ChunkPlan, newSource: PlanSource, newWatermark: int)
      returns (r: Result<Plan, PlanError>)
      requires Valid() && smoother != null
      requires 0 <= candidate.Start() <= candidate.Stop() <= |candidate.actions.rows|
      modifies Repr()
      ensures Valid()
      ensures r.Err? <==> !old(Fits(smoother.View(), smoother.enabled, Selected(settings, candidate)))
      ensures r.Err? ==> r.error == WidthMismatch && View() == old(View())
      ensures r.Ok? ==> r.value == View()
                        == Plans.Install(old(View()),
                                         old(Prepare(smoother.View(), smoother.enabled, Selected(settings, candidate),
                                                     settings.weights)),
                                         newSource,
                                         if old(smoother.enabled) then None else Some(candidate.Start()), newWatermark)
    {
      var start, stop := candidate.Start(), candidate.Stop();
      var prepared := smoother.PrepareNext(candidate.actions.rows[start..stop]);
      if prepared.Err? {
        return Err(prepared.error);
      }
      var newPosition := if smoother.enabled then None else Some(start);
      smoother.Commit(prepared.value);
      Install(newSource, newPosition, newWatermark);
      var current := Snapshot();
      r := Ok(current);
    }

    method Install(newSource: PlanSource, newPosition: Option<int>, newWatermark: int)
      modifies this`source, this`position, this`watermark, this`revision, this`consumed, this`reservation
      ensures View() == Plans.Install(old(View()), View().store, newSource, newPosition, newWatermark)
    {
      source := Some(newSource);
      position := newPosition;
      watermark := newWatermark;
      revision := revision + 1;
      consumed := 0;
      reservation := None;
    }

    method Snapshot() returns (p: Plan)
      requires Valid()
      ensures p == View()
    {
      p := Plan(if smoother == null then Store(queue, [])
                else Store(smoother.smoothedActions, smoother.actionCounts),
                smoother != null && smoother.enabled,
                revision, consumed, source, position, watermark, reservation);
    }

    method Clear()
      requires Valid()
      modifies Repr()
      ensures Valid() && View() == Plans.Clear(settings, old(View()))
    {
      queue := [];
      if smoother != null {
        smoother.Reset();
      }
      source, position, watermark := None, None, settings.watermark;
      revision := revision + 1;
      consumed := 0;
      reservation := None;
    }

    method SetSmoothingEnabled(enabled: bool)
      requires Valid()
      modifies Repr()
      ensures Valid() && View() == SetSmoothing(settings, old(View()), enabled)
    {
      if smoother != null {
        smoother.SetEnabled(enabled);
      }
    }

    method Reserve() returns (r: Option<(PlanReservation, Action)>)
      requires Valid()
      modifies this
      ensures Valid() && View() == Plans.Reserve(old(View()))
      ensures r.None? <==> |View().store.actions| == 0
      ensures r.Some? ==> IsCurrent(Some(r.value.0)) && r.value.1 == View().store.actions[0]
    {
      var remaining := Remaining();
      if remaining == 0 {
        return None;
      }
      var action: Action;
      if smoother != null {
        action := smoother.smoothedActions[0];
        reservedTail := Tail(Store(smoother.smoothedActions, smoother.actionCounts));
      } else {
        action := queue[0];
      }
      if reservation.None? {
        reservation := Some(PlanReservation(revision, consumed, source));
      }
      reservedConsumed := consumed + 1;
      reservedPosition := if position.None? then None else Some(position.value + 1);
      r := Some((reservation.value, action));
    }

    predicate IsCurrent(r: Option<PlanReservation>)
      requires Valid()
      reads Repr()
      ensures IsCurrent(r) == Plans.IsCurrent(View(), r)
    {
      && r.Some?
      && r == reservation
      && r.value.revision == revision
      && r.value.consumed == consumed
      && r.value.source == source
      && (if smoother != null then |smoother.smoothedActions| else |queue|) > 0
    }

    /** Consume what a current reservation prepared, without checking again. */
    method CommitReserved()
      requires Valid() && reservation.Some?
      modifies Repr()
      ensures Valid() && View() == Plans.CommitReserved(old(View()))
    {
      if smoother != null {
        smoother.Commit(reservedTail);
      } else {
        queue := queue[1..];
      }
      consumed := reservedConsumed;
      position := reservedPosition;
      reservation := None;
    }

    method Commit(r: Option<PlanReservation>) returns (committed: bool)
      requires Valid()
      modifies Repr()
      ensures Valid() && View() == Plans.Commit(old(View()), r)
      ensures committed == old(IsCurrent(r))
    {
      if !IsCurrent(r) {
        return false;
      }
      CommitReserved();
      committed := true;
    }

    method TakeAction(lastAction: Option<Action>) returns (taken: Taken)
      requires Valid()
      modifies Repr()
      ensures Valid() && View() == AfterTake(old(View()))
      ensures taken == old(Take(View(), lastAction))
    {
      var reserved := Reserve();
      if reserved.None? {
        return if lastAction.Some? then Hold(lastAction.value) else Nothing;
      }
      var committed := Commit(Some(reserved.value.0));
      taken := FromPlan(reserved.value.1);
    }
  }
}
