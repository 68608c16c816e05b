/**
 The episode state machine: preparation tokens, goal generations, step commits and write-once results.

 Only the generation-aware calls are modelled. Goal parameters are already of their declared types.
 */
module Episodes {
  import opened Prelude

  datatype Phase = Idle | Preparing | Prepared | AcceptedPending | Starting | Running | Terminal | Faulted

  datatype Reason =
    | TaskSuccess | Terminated | Truncated | MaxActions | MaxDuration | Canceled
    | InferenceFailed | InferenceTimeout | ExecutionRejected | ExecutionFailed | ExecutionUncertain
    | IdentityMismatch | ObservationStartupTimeout | ExternalReset

  datatype Seconds = Finite(value: real) | NotFinite

  datatype GoalSpec = GoalSpec(
    preparationId: int,
    episodeId: int,
    initialStepId: int,
    initialTimestamp: int,
    maxActions: int,
    maxDuration: Seconds,
    startupTimeout: Seconds,
    prompt: string
  )

  datatype Success = Success(present: bool, value: bool)

  datatype Reward = Reward(present: bool, value: real)

  datatype Ending = Ending(terminated: bool, truncated: bool)

  datatype Metrics = Metrics(standard: string, native: string, info: string, latency: real)

  datatype StepData = StepData(
    episodeId: Option<int>,
    stepId: Option<int>,
    observationTimestamp: Option<int>,
    success: Success,
    reward: Reward,
    ending: Ending,
    metrics: Metrics
  )

  datatype EpisodeResult = EpisodeResult(
    reason: Option<Reason>,
    episodeId: int,
    finalStepId: Option<int>,
    publishedActions: nat,
    success: Success,
    reward: Reward,
    ending: Ending,
    metrics: Metrics
  )

  datatype Tokens = Tokens(counter: nat, current: nat)

  /** The accepted goal. `generation` numbers the goals accepted so far. */
  datatype Goal = Goal(
    generation: nat,
    episodeId: Option<int>,
    maxActions: int,
    maxDuration: real,
    startupTimeout: real,
    initialTimestamp: Option<int>,
    prompt: Option<string>
  )

  datatype Progress = Progress(
    expectedStep: Option<int>,
    committed: nat,
    currentTimestamp: Option<int>,
    firstInference: bool,
    snapshot: Option<StepData>
  )

  datatype Deadlines = Deadlines(startup: int, episode: int)

  datatype Episode = Episode(
    phase: Phase,
    tokens: Tokens,
    goal: Goal,
    progress: Progress,
    deadlines: Deadlines,
    reason: Option<Reason>
  ) {
    predicate GateOpen() {
      phase == Starting || phase == Running
    }

    predicate ActiveGoal() {
      phase == AcceptedPending || GateOpen()
    }

    predicate CanPrepare() {
      !ActiveGoal() && phase != Preparing
    }

    function GetPrompt(): Option<string> {
      if GateOpen() then goal.prompt else None
    }

    function GetInferenceTimestamp(): Option<int> {
      if !GateOpen() then None
      else if progress.firstInference then goal.initialTimestamp
      else progress.currentTimestamp
    }
  }

  const INITIAL := Episode(Idle, Tokens(0, 0), Goal(0, None, 0, 0.0, 0.0, None, None),
                           Progress(None, 0, None, true, None), Deadlines(0, 0), None)

  // ---- Preparation ----------------------------------------------------------------------------------

  function BeginPreparing(e: Episode): Episode {
    if e.CanPrepare() then e.(phase := Preparing, tokens := e.tokens.(current := 0)) else e
  }

  /** Issue the next token. Outside PREPARING this is an error that changes nothing. */
  function CompletePrepare(e: Episode): Episode {
    if e.phase == Preparing
    then e.(phase := Prepared, tokens := Tokens(e.tokens.counter + 1, e.tokens.counter + 1)) else e
  }

  function FailPrepare(e: Episode): Episode {
    if e.phase == Preparing then e.(phase := Idle, tokens := e.tokens.(current := 0)) else e
  }

  // ---- Accepting and binding a goal -------------------------------------------------------------------

  datatype GoalError =
    | NotPrepared | NoToken | TokenMismatch | TokenNotPositive | NegativeEpisode | InitialStepNotZero
    | TimestampNotPositive | MaxActionsNotPositive | BadDuration | BadStartupTimeout | EmptyPrompt

  predicate FinitePositive(s: Seconds) {
    s.Finite? && s.value > 0.0
  }

  function ValidateGoal(e: Episode, spec: GoalSpec): Option<GoalError> {
    if e.phase != Prepared then Some(NotPrepared)
    else if e.tokens.current == 0 then Some(NoToken)
    else if spec.preparationId != e.tokens.current then Some(TokenMismatch)
    else if spec.preparationId <= 0 then Some(TokenNotPositive)
    else if spec.episodeId < 0 then Some(NegativeEpisode)
    else if spec.initialStepId != 0 then Some(InitialStepNotZero)
    else if spec.initialTimestamp <= 0 then Some(TimestampNotPositive)
    else if spec.maxActions <= 0 then Some(MaxActionsNotPositive)
    else if !FinitePositive(spec.maxDuration) then Some(BadDuration)
    else if !FinitePositive(spec.startupTimeout) then Some(BadStartupTimeout)
    else if spec.prompt == "" then Some(EmptyPrompt)
    else None
  }

  /** Consume the token and wait for the goal handle, gate closed. */
  function AcceptGoal(e: Episode, spec: GoalSpec): Episode {
    if ValidateGoal(e, spec).Some? then e
    else
      Episode(AcceptedPending,
              e.tokens.(current := 0),
              Goal(e.goal.generation + 1, Some(spec.episodeId), spec.maxActions, spec.maxDuration.value,
                   spec.startupTimeout.value, Some(spec.initialTimestamp), Some(spec.prompt)),
              Progress(Some(spec.initialStepId), 0, Some(spec.initialTimestamp), true, None),
              e.deadlines,
              None)
  }

  predicate CanBind(e: Episode, generation: nat) {
    generation == e.goal.generation && e.phase == AcceptedPending
  }

  function Nanoseconds(seconds: real): int {
    (seconds * 1000000000.0).Floor
  }

  /** The gate opens and the deadlines start to run. */
  function BindGoal(e: Episode, generation: nat, now: int): Episode {
    if !CanBind(e, generation) then e
    else e.(phase := Starting,
            deadlines := Deadlines(now + Nanoseconds(e.goal.startupTimeout), now + Nanoseconds(e.goal.maxDuration)))
  }

  function InferenceSuccess(e: Episode, generation: nat): Episode {
    if generation != e.goal.generation then e
    else e.(phase := if e.phase == Starting then Running else e.phase,
            progress := e.progress.(firstInference := false))
  }

  function StartupDeadline(e: Episode, generation: nat, now: int): Option<Reason> {
    if generation == e.goal.generation && e.phase == Starting && now >= e.deadlines.startup
    then Some(ObservationStartupTimeout) else None
  }

  function EpisodeDeadline(e: Episode, generation: nat, now: int): Option<Reason> {
    if generation == e.goal.generation && now >= e.deadlines.episode then Some(MaxDuration) else None
  }

  // ---- Committing a step --------------------------------------------------------------------------------

  predicate IdentityMatches(e: Episode, data: StepData) {
    && (e.goal.episodeId.Some? ==> data.episodeId == e.goal.episodeId)
    && (e.progress.expectedStep.Some? ==> data.stepId == e.progress.expectedStep)
  }

  function EvaluateTerminal(data: StepData, committed: nat, maxActions: int, deadline: int, now: int): Option<Reason> {
    if data.success.present && data.success.value then Some(TaskSuccess)
    else if data.ending.terminated then Some(Terminated)
    else if data.ending.truncated then Some(Truncated)
    else if committed >= maxActions then Some(MaxActions)
    else if now >= deadline then Some(MaxDuration)
    else None
  }

  datatype StepCommitOutcome = Applied(reason: Option<Reason>) | Dropped | Mismatch

  function CommitOutcome(e: Episode, generation: nat, data: StepData, now: int): StepCommitOutcome {
    if generation != e.goal.generation || !e.GateOpen() then Dropped
    else if !IdentityMatches(e, data) then Mismatch
    else Applied(EvaluateTerminal(data, e.progress.committed + 1, e.goal.maxActions, e.deadlines.episode, now))
  }

  function CommitStep(e: Episode, generation: nat, data: StepData, now: int): Episode {
    if !CommitOutcome(e, generation, data, now).Applied? then e
    else e.(progress :=
              Progress(if data.stepId.Some? then Some(data.stepId.value + 1) else e.progress.expectedStep,
                       e.progress.committed + 1,
                       if data.observationTimestamp.Some? && data.observationTimestamp.value > 0
                       then data.observationTimestamp else e.progress.currentTimestamp,
                       e.progress.firstInference,
                       Some(data)))
  }

  // ---- Closing ------------------------------------------------------------------------------------------

  predicate CanClose(e: Episode, generation: nat) {
    generation == e.goal.generation && e.ActiveGoal()
  }

  const NO_METRICS := Metrics("{}", "{}", "{}", 0.0)

  function BuildResult(e: Episode): EpisodeResult {
    if e.progress.snapshot.Some? then
      var snap := e.progress.snapshot.value;
      EpisodeResult(e.reason, snap.episodeId.GetOr(0), Some(snap.stepId.GetOr(0)), e.progress.committed,
                    snap.success, snap.reward, snap.ending, snap.metrics)
    else
      EpisodeResult(e.reason, 0, None, e.progress.committed,
                    Success(false, false), Reward(false, 0.0), Ending(false, false), NO_METRICS)
  }

  datatype Verdict = Normally | Faulty

  function Close(e: Episode, generation: nat, verdict: Verdict, reason: Reason): Episode {
    if !CanClose(e, generation) then e
    else Episode(if verdict == Normally then Terminal else Faulted,
                 e.tokens.(current := 0),
                 e.goal.(episodeId := None, prompt := None),
                 e.progress.(expectedStep := None),
                 e.deadlines,
                 Some(reason))
  }

  /** The result is a snapshot taken in the same step as the close. */
  function CloseResult(e: Episode, generation: nat, reason: Reason): Option<EpisodeResult> {
    if CanClose(e, generation) then Some(BuildResult(e.(reason := Some(reason)))) else None
  }

  // ---- The invariant ------------------------------------------------------------------------------------

  ghost predicate TokenLiveInPrepared(e: Episode) {
    && (e.tokens.current != 0 <==> e.phase == Prepared)
    && (e.tokens.current != 0 ==> e.tokens.current == e.tokens.counter)
  }

  /** An active goal expects the step that it counts next; the snapshot is the last step it committed. */
  ghost predicate CountsSteps(e: Episode) {
    && (e.ActiveGoal() ==> e.goal.episodeId.Some? && e.progress.expectedStep == Some(e.progress.committed)
                           && e.goal.maxActions > 0)
    && (e.phase == AcceptedPending ==> e.progress.committed == 0)
    && (e.progress.committed == 0 ==> e.progress.snapshot.None?)
    && (e.progress.committed > 0 ==> e.progress.snapshot.Some?
                                     && e.progress.snapshot.value.stepId == Some(e.progress.committed - 1))
  }

  ghost predicate Inv(e: Episode) {
    TokenLiveInPrepared(e) && CountsSteps(e)
  }

  datatype Event =
    | DoBeginPreparing
    | DoCompletePrepare
    | DoFailPrepare
    | DoAccept(spec: GoalSpec)
    | DoBind(generation: nat, now: int)
    | DoInferenceSuccess(generation: nat)
    | DoCommit(generation: nat, data: StepData, now: int)
    | DoClose(generation: nat, verdict: Verdict, reason: Reason)

  function Step(e: Episode, ev: Event): Episode {
    match ev
    case DoBeginPreparing => BeginPreparing(e)
    case DoCompletePrepare => CompletePrepare(e)
    case DoFailPrepare => FailPrepare(e)
    case DoAccept(spec) => AcceptGoal(e, spec)
    case DoBind(generation, now) => BindGoal(e, generation, now)
    case DoInferenceSuccess(generation) => InferenceSuccess(e, generation)
    case DoCommit(generation, data, now) => CommitStep(e, generation, data, now)
    case DoClose(generation, verdict, reason) => Close(e, generation, verdict, reason)
  }

  lemma StepKeeps(e: Episode, ev: Event)
    requires Inv(e)
    ensures Inv(Step(e, ev))
  {
  }
}

/** What holds of every run of the episode state machine. */
module EpisodeRuns {
  import opened Prelude
  import opened Episodes

  ghost predicate IsRun(es: seq<Episode>, evs: seq<Event>) {
    && |es| == |evs| + 1
    && es[0] == INITIAL
    && (forall i :: 0 <= i < |evs| ==> es[i + 1] == Step(es[i], evs[i]))
  }

  lemma {:induction false} RunKeeps(es: seq<Episode>, evs: seq<Event>, n: nat)
    requires IsRun(es, evs) && n < |es|
    ensures Inv(es[n])
  {
    if n > 0 {
      RunKeeps(es, evs, n - 1);
      StepKeeps(es[n - 1], evs[n - 1]);
    }
  }

  /** A token is live exactly while the machine is prepared. */
  lemma TokenLiveExactlyInPrepared(es: seq<Episode>, evs: seq<Event>, n: nat)
    requires IsRun(es, evs) && n < |es|
    ensures es[n].tokens.current != 0 <==> es[n].phase == Prepared
  {
    RunKeeps(es, evs, n);
  }

  lemma {:induction false} CountersGrow(es: seq<Episode>, evs: seq<Event>, i: nat, j: nat)
    requires IsRun(es, evs) && i <= j < |es|
    ensures es[i].tokens.counter <= es[j].tokens.counter && es[i].goal.generation <= es[j].goal.generation
  {
    if i < j {
      CountersGrow(es, evs, i, j - 1);
      assert es[j] == Step(es[j - 1], evs[j - 1]);
    }
  }

  /** A prepare that succeeds at step `i`: it hands out a token. */
  predicate Issues(e: Episode, ev: Event) {
    ev.DoCompletePrepare? && e.phase == Preparing
  }

  lemma TokensStrictlyIncrease(es: seq<Episode>, evs: seq<Event>, i: nat, j: nat)
    requires IsRun(es, evs) && i < j < |evs| && Issues(es[i], evs[i]) && Issues(es[j], evs[j])
    ensures 0 < es[i + 1].tokens.current < es[j + 1].tokens.current
  {
    CountersGrow(es, evs, i + 1, j);
  }

  predicate Accepts(e: Episode, ev: Event) {
    ev.DoAccept? && ValidateGoal(e, ev.spec).None?
  }

  /** After a goal was accepted, its token can be live only if the counter passed it. */
  lemma {:induction false} ConsumedTokenStaysDead(es: seq<Episode>, evs: seq<Event>, i: nat, j: nat)
    requires IsRun(es, evs) && i < j < |es| && i < |evs| && Accepts(es[i], evs[i])
    ensures es[j].tokens.current == 0 || es[j].tokens.current > es[i].tokens.current
  {
    RunKeeps(es, evs, i);
    CountersGrow(es, evs, i, j);
    if j > i + 1 {
      ConsumedTokenStaysDead(es, evs, i, j - 1);
      CountersGrow(es, evs, i, j - 1);
      assert es[j] == Step(es[j - 1], evs[j - 1]);
    } else {
      assert es[j] == Step(es[i], evs[i]);
    }
  }

  /** Each token is consumed by at most one goal. */
  lemma TokenConsumedOnce(es: seq<Episode>, evs: seq<Event>, i: nat, j: nat)
    requires IsRun(es, evs) && i < j < |evs| && Accepts(es[i], evs[i]) && evs[j].DoAccept?
    requires evs[j].spec.preparationId == evs[i].spec.preparationId
    ensures !Accepts(es[j], evs[j])
  {
    ConsumedTokenStaysDead(es, evs, i, j);
  }

  predicate Closes(e: Episode, ev: Event) {
    ev.DoClose? && CanClose(e, ev.generation)
  }

  lemma {:induction false} ClosedGenerationStaysClosed(es: seq<Episode>, evs: seq<Event>, i: nat, j: nat)
    requires IsRun(es, evs) && i < j < |es| && i < |evs| && Closes(es[i], evs[i])
    ensures es[j].goal.generation == es[i].goal.generation ==> !es[j].ActiveGoal()
  {
    if j > i + 1 {
      ClosedGenerationStaysClosed(es, evs, i, j - 1);
      CountersGrow(es, evs, i, j - 1);
      assert es[j] == Step(es[j - 1], evs[j - 1]);
    } else {
      assert es[j] == Step(es[i], evs[i]);
    }
  }

  /** Each generation is closed at most once. */
  lemma GenerationClosedOnce(es: seq<Episode>, evs: seq<Event>, i: nat, j: nat)
    requires IsRun(es, evs) && i < j < |evs| && Closes(es[i], evs[i]) && Closes(es[j], evs[j])
    ensures evs[i].generation < evs[j].generation
  {
    ClosedGenerationStaysClosed(es, evs, i, j);
    CountersGrow(es, evs, i, j);
  }

  predicate Guarded(ev: Event) {
    ev.DoBind? || ev.DoInferenceSuccess? || ev.DoCommit? || ev.DoClose?
  }

  /** From the moment a newer goal is accepted, calls made for any earlier goal change nothing. */
  lemma StaleCallsChangeNothing(es: seq<Episode>, evs: seq<Event>, i: nat, j: nat)
    requires IsRun(es, evs) && i < j < |evs| && Accepts(es[i], evs[i])
    requires Guarded(evs[j]) && evs[j].generation <= es[i].goal.generation
    ensures es[j + 1] == es[j]
    ensures evs[j].DoCommit? ==> CommitOutcome(es[j], evs[j].generation, evs[j].data, evs[j].now) == Dropped
    ensures evs[j].DoClose? ==> CloseResult(es[j], evs[j].generation, evs[j].reason) == None
  {
    assert es[i + 1] == Step(es[i], evs[i]);
    CountersGrow(es, evs, i + 1, j);
  }

  // ---- Committed steps ------------------------------------------------------------------------------------

  predicate Commits(e: Episode, ev: Event) {
    ev.DoCommit? && CommitOutcome(e, ev.generation, ev.data, ev.now).Applied?
  }

  /** The steps committed since a goal was last accepted, in order. */
  ghost function Committed(es: seq<Episode>, evs: seq<Event>, n: nat): seq<StepData>
    requires n <= |evs| < |es|
  {
    if n == 0 then []
    else if Accepts(es[n - 1], evs[n - 1]) then []
    else if Commits(es[n - 1], evs[n - 1]) then Committed(es, evs, n - 1) + [evs[n - 1].data]
    else Committed(es, evs, n - 1)
  }

  /** The committed steps are exactly steps 0, 1, ..., and the last of them is the snapshot. */
  lemma {:induction false} CommittedStepsAreConsecutive(es: seq<Episode>, evs: seq<Event>, n: nat)
    requires IsRun(es, evs) && n <= |evs|
    ensures var steps := Committed(es, evs, n);
            && |steps| == es[n].progress.committed
            && (forall k :: 0 <= k < |steps| ==> steps[k].stepId == Some(k))
            && (steps != [] ==> es[n].progress.snapshot == Some(steps[|steps| - 1]))
            && (es[n].ActiveGoal() ==> forall k :: 0 <= k < |steps| ==> steps[k].episodeId == es[n].goal.episodeId)
  {
    RunKeeps(es, evs, n);
    if n > 0 {
      RunKeeps(es, evs, n - 1);
      CommittedStepsAreConsecutive(es, evs, n - 1);
    }
  }

  /** The result of a closed goal reports its last committed step, and one published action per step. */
  lemma ResultCountsCommittedSteps(es: seq<Episode>, evs: seq<Event>, n: nat)
    requires IsRun(es, evs) && n < |evs| && Closes(es[n], evs[n])
    ensures var result := CloseResult(es[n], evs[n].generation, evs[n].reason).value;
            var steps := Committed(es, evs, n);
            && result.reason == Some(evs[n].reason)
            && result.publishedActions == |steps|
            && (result.finalStepId.Some? <==> steps != [])
            && (steps != [] ==> result.finalStepId.value + 1 == result.publishedActions
                                && Some(result.episodeId) == es[n].goal.episodeId
                                && result.success == steps[|steps| - 1].success
                                && result.reward == steps[|steps| - 1].reward
                                && result.ending == steps[|steps| - 1].ending
                                && result.metrics == steps[|steps| - 1].metrics)
  {
    RunKeeps(es, evs, n);
    CommittedStepsAreConsecutive(es, evs, n);
  }

  /** The result of a goal closed before any step: nothing was published, no step was last, and every measure
      is reported as absent. */
  lemma ResultOfNoStep(es: seq<Episode>, evs: seq<Event>, n: nat)
    requires IsRun(es, evs) && n < |evs| && Closes(es[n], evs[n]) && Committed(es, evs, n) == []
    ensures CloseResult(es[n], evs[n].generation, evs[n].reason)
            == Some(EpisodeResult(Some(evs[n].reason), 0, None, 0, Success(false, false), Reward(false, 0.0),
                                  Ending(false, false), Metrics("{}", "{}", "{}", 0.0)))
  {
    RunKeeps(es, evs, n);
    CommittedStepsAreConsecutive(es, evs, n);
  }

  // ---- Goals ----------------------------------------------------------------------------------------------

  predicate Usable(spec: GoalSpec) {
    && spec.episodeId >= 0 && spec.initialStepId == 0 && spec.initialTimestamp > 0 && spec.maxActions > 0
    && spec.maxDuration.Finite? && spec.maxDuration.value > 0.0
    && spec.startupTimeout.Finite? && spec.startupTimeout.value > 0.0 && spec.prompt != ""
  }

  /** A goal is accepted exactly when the machine is prepared, the goal carries the token of that preparation,
      and its parameters are usable; an accepted goal is the next one, and consumes the token. */
  lemma GoalAcceptedIff(es: seq<Episode>, evs: seq<Event>, n: nat)
    requires IsRun(es, evs) && n < |evs| && evs[n].DoAccept?
    ensures var e, spec, e' := es[n], evs[n].spec, es[n + 1];
            if e.phase == Prepared && spec.preparationId == e.tokens.counter && Usable(spec) then
              && e'.phase == AcceptedPending && e'.tokens == Tokens(e.tokens.counter, 0)
              && e'.goal.generation == e.goal.generation + 1 && Committed(es, evs, n + 1) == []
            else
              e' == e
  {
    RunKeeps(es, evs, n);
  }

  /** Until the next goal is accepted, the accepted goal's limits are those it asked for, and while it is active
      so are its episode and its prompt. */
  lemma {:induction false} AcceptedGoalIsKept(es: seq<Episode>, evs: seq<Event>, i: nat, n: nat)
    requires IsRun(es, evs) && i < n < |es| && Accepts(es[i], evs[i])
    requires es[n].goal.generation == es[i].goal.generation + 1
    ensures var goal, spec := es[n].goal, evs[i].spec;
            && goal.maxActions == spec.maxActions && goal.maxDuration == spec.maxDuration.value
            && goal.startupTimeout == spec.startupTimeout.value && goal.initialTimestamp == Some(spec.initialTimestamp)
            && (es[n].ActiveGoal() ==> goal.episodeId == Some(spec.episodeId) && goal.prompt == Some(spec.prompt))
  {
    assert es[i + 1] == Step(es[i], evs[i]);
    if n > i + 1 {
      CountersGrow(es, evs, i + 1, n - 1);
      CountersGrow(es, evs, n - 1, n);
      AcceptedGoalIsKept(es, evs, i, n - 1);
      ActiveAgain(es, evs, i, n - 1);
      assert es[n] == Step(es[n - 1], evs[n - 1]);
    }
  }

  /** Only accepting a goal makes one active. */
  lemma ActiveAgain(es: seq<Episode>, evs: seq<Event>, i: nat, k: nat)
    requires IsRun(es, evs) && i <= k < |evs| && es[k + 1].goal.generation == es[k].goal.generation
    ensures es[k + 1].ActiveGoal() ==> es[k].ActiveGoal()
  {
    assert es[k + 1] == Step(es[k], evs[k]);
  }

  /** Under an open gate, the step that is next in the accepted episode is committed, and it ends the episode or
      lets it go on by its own flags and the goal's limits; any other step is a mismatch. */
  lemma NextStepIsCommitted(es: seq<Episode>, evs: seq<Event>, i: nat, n: nat)
    requires IsRun(es, evs) && i < n < |evs| && Accepts(es[i], evs[i])
    requires es[n].goal.generation == es[i].goal.generation + 1 && es[n].GateOpen()
    requires evs[n].DoCommit? && evs[n].generation == es[n].goal.generation
    ensures var data, spec, steps := evs[n].data, evs[i].spec, Committed(es, evs, n);
            var outcome := CommitOutcome(es[n], evs[n].generation, data, evs[n].now);
            if data.episodeId == Some(spec.episodeId) && data.stepId == Some(|steps|) then
              && Committed(es, evs, n + 1) == steps + [data]
              && outcome == Applied(EvaluateTerminal(data, |steps| + 1, spec.maxActions, es[n].deadlines.episode, evs[n].now))
            else
              outcome == Mismatch && es[n + 1] == es[n]
  {
    RunKeeps(es, evs, n);
    CommittedStepsAreConsecutive(es, evs, n);
    AcceptedGoalIsKept(es, evs, i, n);
  }

  /** The phases follow one another in this way only. A call for another goal, or out of its phase, is void. */
  lemma PhasesFollow(es: seq<Episode>, evs: seq<Event>, n: nat)
    requires IsRun(es, evs) && n < |evs|
    ensures var e, ev, e' := es[n], evs[n], es[n + 1];
            var own := Guarded(ev) && ev.generation == e.goal.generation;
            match e'.phase
            case Idle => e.phase == Idle || (e.phase == Preparing && ev.DoFailPrepare?)
            case Preparing =>
              e.phase == Preparing
              || (ev.DoBeginPreparing? && (e.phase == Idle || e.phase == Prepared || e.phase == Terminal || e.phase == Faulted))
            case Prepared =>
              e.phase == Prepared
              || (e.phase == Preparing && ev.DoCompletePrepare? && e'.tokens.current == e.tokens.counter + 1)
            case AcceptedPending => e.phase == AcceptedPending || (e.phase == Prepared && ev.DoAccept?)
            case Starting => e.phase == Starting || (e.phase == AcceptedPending && ev.DoBind? && own)
            case Running => e.phase == Running || (e.phase == Starting && ev.DoInferenceSuccess? && own)
            case Terminal =>
              e.phase == Terminal || (e.ActiveGoal() && ev.DoClose? && own && ev.verdict == Normally && e'.reason == Some(ev.reason))
            case Faulted =>
              e.phase == Faulted || (e.ActiveGoal() && ev.DoClose? && own && ev.verdict == Faulty && e'.reason == Some(ev.reason))
  {
  }

  /** And each of those calls does move the machine on. */
  lemma PhasesMove(es: seq<Episode>, evs: seq<Event>, n: nat)
    requires IsRun(es, evs) && n < |evs|
    ensures var e, ev, e' := es[n], evs[n], es[n + 1];
            var own := Guarded(ev) && ev.generation == e.goal.generation;
            match ev
            case DoBeginPreparing => !e.ActiveGoal() && e.phase != Preparing ==> e'.phase == Preparing
            case DoCompletePrepare => e.phase == Preparing ==> e'.phase == Prepared
            case DoFailPrepare => e.phase == Preparing ==> e'.phase == Phase.Idle
            case DoBind(_, _) => e.phase == AcceptedPending && own ==> e'.phase == Starting
            case DoInferenceSuccess(_) =>
              own ==> !e'.progress.firstInference && (e.phase == Starting ==> e'.phase == Running)
            case DoClose(_, verdict, reason) =>
              e.ActiveGoal() && own ==>
                && e'.phase == (if verdict == Normally then Terminal else Faulted) && e'.reason == Some(reason)
                && e'.tokens.current == 0 && e'.GetPrompt() == None && e'.GetInferenceTimestamp() == None
            case _ => true
  {
  }

  // ---- Time -----------------------------------------------------------------------------------------------

  predicate Binds(e: Episode, ev: Event) {
    ev.DoBind? && CanBind(e, ev.generation)
  }

  lemma {:induction false} DeadlinesStay(es: seq<Episode>, evs: seq<Event>, i: nat, n: nat)
    requires IsRun(es, evs) && i < n < |es| && Binds(es[i], evs[i])
    requires es[n].goal.generation == es[i].goal.generation
    ensures es[n].deadlines == es[i + 1].deadlines && es[n].phase != AcceptedPending
  {
    assert es[i + 1] == Step(es[i], evs[i]);
    if n > i + 1 {
      CountersGrow(es, evs, i, n - 1);
      CountersGrow(es, evs, n - 1, n);
      DeadlinesStay(es, evs, i, n - 1);
      assert es[n] == Step(es[n - 1], evs[n - 1]);
    }
  }

  /** A goal's deadlines run from the moment its handle was bound, whatever happens under it since. */
  lemma DeadlinesRunFromBinding(es: seq<Episode>, evs: seq<Event>, i: nat, n: nat, now: int)
    requires IsRun(es, evs) && i < n < |es| && Binds(es[i], evs[i])
    requires es[n].goal.generation == es[i].goal.generation
    ensures EpisodeDeadline(es[n], evs[i].generation, now).Some?
            <==> now - evs[i].now >= Nanoseconds(es[i].goal.maxDuration)
    ensures StartupDeadline(es[n], evs[i].generation, now).Some?
            <==> es[n].phase == Starting && now - evs[i].now >= Nanoseconds(es[i].goal.startupTimeout)
  {
    assert es[i + 1] == Step(es[i], evs[i]);
    DeadlinesStay(es, evs, i, n);
  }

  /** The last usable timestamp that a committed step reported, else the goal's own. */
  function LatestObservation(steps: seq<StepData>, initial: Option<int>): Option<int> {
    if steps == [] then initial
    else
      var stamp := steps[|steps| - 1].observationTimestamp;
      if stamp.Some? && stamp.value > 0 then stamp else LatestObservation(steps[..|steps| - 1], initial)
  }

  lemma {:induction false} TimestampIsLatest(es: seq<Episode>, evs: seq<Event>, n: nat)
    requires IsRun(es, evs) && n <= |evs| && es[n].goal.generation > 0
    ensures es[n].progress.currentTimestamp == LatestObservation(Committed(es, evs, n), es[n].goal.initialTimestamp)
  {
    var e, ev := es[n - 1], evs[n - 1];
    assert es[n] == Step(e, ev);
    if !Accepts(e, ev) {
      TimestampIsLatest(es, evs, n - 1);
      if Commits(e, ev) {
        assert Committed(es, evs, n)[..|Committed(es, evs, n - 1)|] == Committed(es, evs, n - 1);
      }
    }
  }

  /** Inference is asked for at the goal's own timestamp until one succeeds, then at the latest committed
      observation, and only while the gate is open. */
  lemma InferenceAsksForLatest(es: seq<Episode>, evs: seq<Event>, n: nat)
    requires IsRun(es, evs) && n <= |evs| && es[n].goal.generation > 0
    ensures es[n].GetInferenceTimestamp()
            == if !es[n].GateOpen() then None
               else if es[n].progress.firstInference then es[n].goal.initialTimestamp
               else LatestObservation(Committed(es, evs, n), es[n].goal.initialTimestamp)
  {
    TimestampIsLatest(es, evs, n);
  }

  // ---- Terminal priority ----------------------------------------------------------------------------------

  const PRIORITY := [TaskSuccess, Terminated, Truncated, MaxActions, MaxDuration]

  /** Does this ending apply to the committed step? */
  predicate Applies(reason: Reason, data: StepData, committed: nat, maxActions: int, deadline: int, now: int) {
    match reason
    case TaskSuccess => data.success == Success(true, true)
    case Terminated => data.ending.terminated
    case Truncated => data.ending.truncated
    case MaxActions => committed >= maxActions
    case MaxDuration => now >= deadline
    case _ => false
  }

  /** A committed step ends its episode for the first reason in priority order that applies, if any. */
  lemma HighestPriorityWins(data: StepData, committed: nat, maxActions: int, deadline: int, now: int, k: nat)
    requires k < |PRIORITY|
    ensures EvaluateTerminal(data, committed, maxActions, deadline, now) == Some(PRIORITY[k])
            <==> Applies(PRIORITY[k], data, committed, maxActions, deadline, now)
                 && forall j :: 0 <= j < k ==> !Applies(PRIORITY[j], data, committed, maxActions, deadline, now)
    ensures EvaluateTerminal(data, committed, maxActions, deadline, now) == None
            <==> forall j :: 0 <= j < |PRIORITY| ==> !Applies(PRIORITY[j], data, committed, maxActions, deadline, now)
  {
    assert PRIORITY[0] == TaskSuccess && PRIORITY[1] == Terminated && PRIORITY[2] == Truncated
           && PRIORITY[3] == MaxActions && PRIORITY[4] == MaxDuration;
  }
}
