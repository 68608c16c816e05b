/**
 Chunk planning: how an accepted action chunk becomes the interval of it that will be executed.
 */
module ChunkPlanning {
  import opened Prelude

  /** One action: a value per joint or channel position. */
  type Action = seq<real>

  /** An array of actions with its shape. `finite`: no entry is NaN or infinite. */
  datatype Chunk = Chunk(rank: nat, rows: seq<Action>, width: nat, finite: bool)

  predicate WellShaped(c: Chunk) {
    forall i :: 0 <= i < |c.rows| ==> |c.rows[i]| == c.width
  }

  datatype ChunkPlan = ChunkPlan(
    actions: Chunk,
    executedDuringInference: int,
    executionHorizon: Option<int>,
    replenishmentWatermark: Option<int>
  ) {
    function Start(): int {
      executedDuringInference
    }

    function Stop(): int {
      if executionHorizon.None? then |actions.rows| else executionHorizon.value
    }
  }

  datatype PlanError =
    | WrongRank
    | EmptyActions
    | StartOutOfChunk
    | HorizonOutOfChunk
    | StartAfterStop
    | NegativeWatermark
    | WrongDimension
    | NotFinite
    | OverCapacity
    | WidthMismatch

  function ValidateChunkPlan(plan: ChunkPlan, actionDimension: Option<nat>): (r: Result<ChunkPlan, PlanError>)
    ensures r.Ok? ==> r.value == plan && 0 <= plan.Start() <= plan.Stop() <= |plan.actions.rows|
  {
    var n := |plan.actions.rows|;
    if plan.actions.rank != 2 then Err(WrongRank)
    else if n == 0 || plan.actions.width == 0 then Err(EmptyActions)
    else if !(0 <= plan.Start() <= n) then Err(StartOutOfChunk)
    else if plan.executionHorizon.Some? && !(0 <= plan.Stop() <= n) then Err(HorizonOutOfChunk)
    else if plan.Start() > plan.Stop() then Err(StartAfterStop)
    else if plan.replenishmentWatermark.Some? && plan.replenishmentWatermark.value < 0 then Err(NegativeWatermark)
    else if actionDimension.Some? && plan.actions.width != actionDimension.value then Err(WrongDimension)
    else if !plan.actions.finite then Err(NotFinite)
    else Ok(plan)
  }

  /** A plan is valid exactly when it is a finite nonempty matrix of the expected width with a well-placed
      interval and no negative watermark; the error of any other plan names one of these defects. */
  lemma ChunkPlanValidIff(plan: ChunkPlan, actionDimension: Option<nat>)
    ensures var r := ValidateChunkPlan(plan, actionDimension);
            && (r.Ok? <==>
                  && plan.actions.rank == 2 && |plan.actions.rows| > 0 && plan.actions.width > 0 && plan.actions.finite
                  && 0 <= plan.executedDuringInference <= |plan.actions.rows|
                  && (plan.executionHorizon.Some? ==>
                        plan.executedDuringInference <= plan.executionHorizon.value <= |plan.actions.rows|)
                  && (plan.replenishmentWatermark.Some? ==> 0 <= plan.replenishmentWatermark.value)
                  && (actionDimension.Some? ==> plan.actions.width == actionDimension.value))
            && (r.Err? ==>
                  match r.error
                  case WrongRank => plan.actions.rank != 2
                  case EmptyActions => |plan.actions.rows| == 0 || plan.actions.width == 0
                  case StartOutOfChunk =>
                    plan.executedDuringInference < 0 || plan.executedDuringInference > |plan.actions.rows|
                  case HorizonOutOfChunk =>
                    plan.executionHorizon.Some?
                    && (plan.executionHorizon.value < 0 || plan.executionHorizon.value > |plan.actions.rows|)
                  case StartAfterStop =>
                    plan.executionHorizon.Some? && plan.executedDuringInference > plan.executionHorizon.value
                  case NegativeWatermark =>
                    plan.replenishmentWatermark.Some? && plan.replenishmentWatermark.value < 0
                  case WrongDimension => actionDimension.Some? && plan.actions.width != actionDimension.value
                  case NotFinite => !plan.actions.finite
                  case _ => false)
  {
  }

  /** None and zero both mean that the whole chunk is executable. */
  function ValidateExecutionHorizon(horizon: Option<int>, chunkSize: int): Result<Option<int>, PlanError> {
    if chunkSize < 1 then Err(EmptyActions)
    else if horizon.None? || horizon.value == 0 then Ok(None)
    else if horizon.value < 1 || horizon.value > chunkSize then Err(HorizonOutOfChunk)
    else Ok(horizon)
  }

  datatype Planner = FullChunk | AutoHorizon

  function Skipped(actions: Chunk, actionsExecuted: int): int {
    Max(0, Min(actionsExecuted, |actions.rows|))
  }

  function PlanChunk(planner: Planner, actions: Chunk, actionsExecuted: int, executionHorizon: Option<int>)
    : Result<ChunkPlan, PlanError>
  {
    if actions.rank != 2 then Err(WrongRank)
    else
      var skipped := Skipped(actions, actionsExecuted);
      match planner
      case FullChunk => ValidateChunkPlan(ChunkPlan(actions, skipped, None, None), None)
      case AutoHorizon =>
        var horizon := ValidateExecutionHorizon(executionHorizon, |actions.rows|);
        if horizon.Err? then Err(horizon.error)
        else if horizon.value.None? then ValidateChunkPlan(ChunkPlan(actions, skipped, None, None), None)
        else
          ValidateChunkPlan(
            ChunkPlan(actions, Min(skipped, horizon.value.value), horizon.value, Some(0)), None)
  }

  /** The number of leading actions of a chunk that a planner lets through. */
  function Executable(planner: Planner, actions: Chunk, executionHorizon: Option<int>): int {
    if planner == AutoHorizon && executionHorizon.Some? && executionHorizon.value != 0
    then executionHorizon.value else |actions.rows|
  }

  /** A plan starts at the number of actions already executed, capped at the chunk length or the
      horizon, and is refused exactly when the chunk or its reported horizon is unusable. */
  lemma PlanStartsAtExecuted(planner: Planner, actions: Chunk, actionsExecuted: int, executionHorizon: Option<int>)
    ensures var r := PlanChunk(planner, actions, actionsExecuted, executionHorizon);
            var stop := Executable(planner, actions, executionHorizon);
            && (r.Ok? <==> actions.rank == 2 && |actions.rows| > 0 && actions.width > 0 && actions.finite
                           && 0 <= stop <= |actions.rows|)
            && (r.Ok? ==>
                  && r.value.actions == actions
                  && r.value.Stop() == stop
                  && r.value.Start() == Min(Max(0, actionsExecuted), stop)
                  && (r.value.replenishmentWatermark == Some(0) <==>
                        planner == AutoHorizon && executionHorizon.Some? && executionHorizon.value != 0))
  {
  }
}
