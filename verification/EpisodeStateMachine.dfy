/** The episode state machine as an object that its callers drive under one lock. */
module EpisodeMachine {
  import opened Prelude
  import Spec = Episodes
  import opened Episodes

  class EpisodeStateMachine {
    var phase: Phase
    // A current token of 0 means that there is no unconsumed one.
    var tokens: Tokens
    var goal: Goal
    var progress: Progress
    var deadlines: Deadlines
    var terminationReason: Option<Reason>

    ghost function View(): Episode
      reads this
    {
      Episode(phase, tokens, goal, progress, deadlines, terminationReason)
    }

    ghost predicate Valid()
      reads this
    {
      Inv(View())
    }

    constructor ()
      ensures Valid() && View() == INITIAL
    {
      phase, tokens, deadlines, terminationReason := Idle, Tokens(0, 0), Deadlines(0, 0), None;
      goal := Goal(0, None, 0, 0.0, 0.0, None, None);
      progress := Progress(None, 0, None, true, None);
    }

    predicate IsActiveGoal()
      reads this
    {
      phase == AcceptedPending || phase == Starting || phase == Running
    }

    method TryBeginPreparing() returns (begun: bool)
      requires Valid()
      modifies this
      ensures Valid() && View() == BeginPreparing(old(View()))
      ensures begun == old(View()).CanPrepare()
    {
      if phase != Idle && phase != Prepared && phase != Terminal && phase != Faulted {
        return false;
      }
      phase := Preparing;
      tokens := tokens.(current := 0);
      begun := true;
    }

    method CompletePrepare() returns (r: Result<nat, Phase>)
      requires Valid()
      modifies this
      ensures Valid() && View() == Spec.CompletePrepare(old(View()))
      ensures r == if old(phase) == Preparing then Ok(View().tokens.current) else Err(old(phase))
    {
      if phase != Preparing {
        return Err(phase);
      }
      tokens := tokens.(counter := tokens.counter + 1);
      tokens := tokens.(current := tokens.counter);
      phase := Prepared;
      r := Ok(tokens.current);
    }

    method FailPrepare() returns (r: Result<Phase, Phase>)
      requires Valid()
      modifies this
      ensures Valid() && View() == Spec.FailPrepare(old(View()))
      ensures r == if old(phase) == Preparing then Ok(Idle) else Err(old(phase))
    {
      if phase != Preparing {
        return Err(phase);
      }
      phase := Idle;
      tokens := tokens.(current := 0);
      r := Ok(phase);
    }

    method Validate(spec: GoalSpec) returns (error: Option<GoalError>)
      ensures error == ValidateGoal(View(), spec)
    {
      if phase != Prepared {
        return Some(NotPrepared);
      }
      if tokens.current == 0 {
        return Some(NoToken);
      }
      if spec.preparationId != tokens.current {
        return Some(TokenMismatch);
      }
      if spec.preparationId <= 0 {
        return Some(TokenNotPositive);
      }
      if spec.episodeId < 0 {
        return Some(NegativeEpisode);
      }
      if spec.initialStepId != 0 {
        return Some(InitialStepNotZero);
      }
      if spec.initialTimestamp <= 0 {
        return Some(TimestampNotPositive);
      }
      if spec.maxActions <= 0 {
        return Some(MaxActionsNotPositive);
      }
      if !FinitePositive(spec.maxDuration) {
        return Some(BadDuration);
      }
      if !FinitePositive(spec.startupTimeout) {
        return Some(BadStartupTimeout);
      }
      if spec.prompt == "" {
        return Some(EmptyPrompt);
      }
      error := None;
    }

    method TryAcceptGoal(spec: GoalSpec) returns (error: Option<GoalError>)
      requires Valid()
      modifies this
      ensures Valid() && View() == AcceptGoal(old(View()), spec)
      ensures error == old(ValidateGoal(View(), spec))
    {
      error := Validate(spec);
      if error.Some? {
        return;
      }
      phase := AcceptedPending;
      tokens := tokens.(current := 0);
      goal := Goal(goal.generation + 1, Some(spec.episodeId), spec.maxActions, spec.maxDuration.value,
                   spec.startupTimeout.value, Some(spec.initialTimestamp), Some(spec.prompt));
      progress := Progress(Some(spec.initialStepId), 0, Some(spec.initialTimestamp), true, None);
      terminationReason := None;
    }

    method TryBindGoal(generation: nat, now: int) returns (bound: bool)
      requires Valid()
      modifies this
      ensures Valid() && View() == BindGoal(old(View()), generation, now)
      ensures bound == old(CanBind(View(), generation))
    {
      if generation != goal.generation || phase != AcceptedPending {
        return false;
      }
      phase := Starting;
      deadlines := Deadlines(now + Nanoseconds(goal.startupTimeout), now + Nanoseconds(goal.maxDuration));
      bound := true;
    }

    method TryOnInferenceSuccess(generation: nat) returns (applied: bool)
      requires Valid()
      modifies this
      ensures Valid() && View() == InferenceSuccess(old(View()), generation)
      ensures applied == (generation == View().goal.generation)
    {
      if generation != goal.generation {
        return false;
      }
      if phase == Starting {
        phase := Running;
      }
      progress := progress.(firstInference := false);
      applied := true;
    }

    /** Identity check, commit and terminal evaluation in one critical section. */
    method TryCommitStep(generation: nat, data: StepData, now: int) returns (outcome: StepCommitOutcome)
      requires Valid()
      modifies this
      ensures Valid() && View() == CommitStep(old(View()), generation, data, now)
      ensures outcome == old(CommitOutcome(View(), generation, data, now))
    {
      if generation != goal.generation {
        return Dropped;
      }
      if phase != Starting && phase != Running {
        return Dropped;
      }
      if goal.episodeId.Some? && data.episodeId != goal.episodeId {
        return Mismatch;
      }
      if progress.expectedStep.Some? && data.stepId != progress.expectedStep {
        return Mismatch;
      }
      progress := progress.(snapshot := Some(data));
      if data.observationTimestamp.Some? && data.observationTimestamp.value > 0 {
        progress := progress.(currentTimestamp := data.observationTimestamp);
      }
      if data.stepId.Some? {
        progress := progress.(expectedStep := Some(data.stepId.value + 1));
      }
      progress := progress.(committed := progress.committed + 1);
      outcome := Applied(EvaluateTerminal(data, progress.committed, goal.maxActions, deadlines.episode, now));
    }

    method TryCheckStartupDeadline(generation: nat, now: int) returns (reason: Option<Reason>)
      ensures reason == StartupDeadline(View(), generation, now)
    {
      if generation != goal.generation {
        return None;
      }
      reason := if phase == Starting && !(now < deadlines.startup) then Some(ObservationStartupTimeout) else None;
    }

    method TryCheckEpisodeDeadline(generation: nat, now: int) returns (reason: Option<Reason>)
      ensures reason == EpisodeDeadline(View(), generation, now)
    {
      if generation != goal.generation {
        return None;
      }
      reason := if !(now < deadlines.episode) then Some(MaxDuration) else None;
    }

    /** Close the goal and snapshot its result before its identity is cleared. */
    method TryCloseWithResult(generation: nat, verdict: Verdict, reason: Reason) returns (result: Option<EpisodeResult>)
      requires Valid()
      modifies this
      ensures Valid() && View() == Close(old(View()), generation, verdict, reason)
      ensures result == old(CloseResult(View(), generation, reason))
    {
      if generation != goal.generation {
        return None;
      }
      if !IsActiveGoal() {
        return None;
      }
      phase := if verdict == Normally then Terminal else Faulted;
      terminationReason := Some(reason);
      var snapshot := Build();
      goal := goal.(episodeId := None, prompt := None);
      progress := progress.(expectedStep := None);
      tokens := tokens.(current := 0);
      result := Some(snapshot);
    }

    method Build() returns (result: EpisodeResult)
      ensures result == BuildResult(View())
    {
      if progress.snapshot.Some? {
        var snap := progress.snapshot.value;
        return EpisodeResult(terminationReason, snap.episodeId.GetOr(0), Some(snap.stepId.GetOr(0)), progress.committed,
                             snap.success, snap.reward, snap.ending, snap.metrics);
      }
      result := EpisodeResult(terminationReason, 0, None, progress.committed,
                              Success(false, false), Reward(false, 0.0), Ending(false, false), NO_METRICS);
    }
  }
}
