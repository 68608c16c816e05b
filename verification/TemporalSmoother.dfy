/**
 The temporal smoother: a plan of actions, each the weighted mean of the predictions made for it so
 far, kept incrementally as a value and a count.

 Weights are an arbitrary positive sequence, of which the exponentials of the original are one case.
 */
module Smoothing {
  import opened Prelude
  import opened ChunkPlanning

  // ---- Weights and means -------------------------------------------------------------------------

  predicate Positive(w: seq<real>) {
    |w| > 0 && forall j :: 0 <= j < |w| ==> w[j] > 0.0
  }

  /** The sum of the first `n` weights. */
  function Cumulative(w: seq<real>, n: nat): real
    requires n <= |w|
  {
    if n == 0 then 0.0 else Cumulative(w, n - 1) + w[n - 1]
  }

  lemma {:induction false} CumulativePositive(w: seq<real>, n: nat)
    requires Positive(w) && 0 < n <= |w|
    ensures Cumulative(w, n) > 0.0
  {
    if n > 1 {
      CumulativePositive(w, n - 1);
    }
  }

  /** The weighted sum, in coordinate `i`, of the first `n` of the given predictions. */
  ghost function WeightedSum(w: seq<real>, predictions: seq<Action>, n: nat, i: nat): real
    requires n <= |w| && n <= |predictions|
    requires forall j :: 0 <= j < n ==> i < |predictions[j]|
  {
    if n == 0 then 0.0 else WeightedSum(w, predictions, n - 1, i) + w[n - 1] * predictions[n - 1][i]
  }

  /** `value` is the weighted mean of the first `n` predictions. */
  ghost predicate IsMean(w: seq<real>, value: Action, predictions: seq<Action>, n: nat) {
    && 0 < n <= |w| && n <= |predictions|
    && (forall j :: 0 <= j < n ==> |predictions[j]| == |value|)
    && (forall i :: 0 <= i < |value| ==> value[i] * Cumulative(w, n) == WeightedSum(w, predictions, n, i))
  }

  /** One more prediction, added with the next weight. */
  function Blend(w: seq<real>, value: Action, next: Action, count: nat): (r: Action)
    requires Positive(w) && 0 < count < |w| && |value| == |next|
    ensures |r| == |value|
  {
    CumulativePositive(w, count + 1);
    seq(|value|, i requires 0 <= i < |value| =>
      (value[i] * Cumulative(w, count) + next[i] * w[count]) / Cumulative(w, count + 1))
  }

  lemma {:induction false} WeightedSumPrefix(w: seq<real>, xs: seq<Action>, ys: seq<Action>, n: nat, i: nat)
    requires n <= |w| && n <= |xs| && xs <= ys
    requires forall j :: 0 <= j < n ==> i < |xs[j]|
    ensures WeightedSum(w, xs, n, i) == WeightedSum(w, ys, n, i)
  {
    if n > 0 {
      WeightedSumPrefix(w, xs, ys, n - 1, i);
    }
  }

  lemma QuotientTimesDivisor(x: real, y: real)
    requires y != 0.0
    ensures x / y * y == x
  {
  }

  /** Blending keeps the mean exact. */
  lemma BlendIsMean(w: seq<real>, value: Action, next: Action, predictions: seq<Action>, count: nat)
    requires Positive(w) && count < |w| && |predictions| == count
    requires IsMean(w, value, predictions, count) && |next| == |value|
    ensures IsMean(w, Blend(w, value, next, count), predictions + [next], count + 1)
  {
    var blended := Blend(w, value, next, count);
    CumulativePositive(w, count + 1);
    forall i | 0 <= i < |blended|
      ensures blended[i] * Cumulative(w, count + 1) == WeightedSum(w, predictions + [next], count + 1, i)
    {
      QuotientTimesDivisor(value[i] * Cumulative(w, count) + next[i] * w[count], Cumulative(w, count + 1));
      WeightedSumPrefix(w, predictions, predictions + [next], count, i);
    }
  }

  // ---- The smoothed plan ----------------------------------------------------------------------------

  /** The planned actions and, in parallel, how many predictions each has absorbed. */
  datatype Store = Store(actions: seq<Action>, counts: seq<nat>)

  const EMPTY := Store([], [])

  /** The capped counts never increase along the plan, and all actions have one width. */
  predicate ValidStore(s: Store, w: seq<real>) {
    && |s.counts| == |s.actions|
    && (forall k :: 0 <= k < |s.counts| ==> 1 <= s.counts[k] <= |w|)
    && (forall k, l :: 0 <= k < l < |s.counts| ==> s.counts[l] <= s.counts[k])
    && (forall k, l :: 0 <= k < l < |s.actions| ==> |s.actions[k]| == |s.actions[l]|)
  }

  predicate OneWidth(rows: seq<Action>) {
    forall k :: 0 <= k < |rows| ==> |rows[k]| == |rows[0]|
  }

  /** Both plans have actions to overlap, of the same width. */
  predicate Compatible(s: Store, incoming: seq<Action>) {
    OneWidth(incoming) && (|s.actions| > 0 && |incoming| > 0 ==> |s.actions[0]| == |incoming[0]|)
  }

  /** Widths only have to agree where smoothing will combine old and new actions. */
  predicate Fits(s: Store, enabled: bool, incoming: seq<Action>) {
    if enabled then Compatible(s, incoming) else OneWidth(incoming)
  }

  function Ones(n: nat): seq<nat> {
    seq(n, _ => 1)
  }

  /** The slot at `k` after one more prediction for it; frozen once the weights are used up. */
  function BlendSlot(s: Store, incoming: seq<Action>, w: seq<real>, k: nat): Action
    requires Positive(w) && ValidStore(s, w) && Compatible(s, incoming)
    requires k < |s.actions| && k < |incoming|
  {
    if s.counts[k] < |w| then Blend(w, s.actions[k], incoming[k], s.counts[k]) else s.actions[k]
  }

  /** Overlapping slots absorb their new prediction; the rest of the new chunk is appended. What the
      old plan held beyond the new chunk's end is dropped. */
  function ApplySmoothing(s: Store, incoming: seq<Action>, w: seq<real>): (r: Store)
    requires Positive(w) && ValidStore(s, w) && Compatible(s, incoming)
    ensures |r.actions| == |r.counts| == |incoming|
  {
    var overlap := Min(|s.actions|, |incoming|);
    var blended := seq(overlap, k requires 0 <= k < overlap => BlendSlot(s, incoming, w, k));
    var counted := seq(overlap, k requires 0 <= k < overlap => CountSlot(s, w, k));
    Store(blended + incoming[overlap..], counted + Ones(|incoming| - overlap))
  }

  function CountSlot(s: Store, w: seq<real>, k: nat): nat
    requires k < |s.counts|
  {
    if s.counts[k] < |w| then s.counts[k] + 1 else s.counts[k]
  }

  /** Slot by slot, what smoothing leaves behind. */
  lemma SmoothedSlot(s: Store, incoming: seq<Action>, w: seq<real>, k: nat)
    requires Positive(w) && ValidStore(s, w) && Compatible(s, incoming) && k < |incoming|
    ensures var r := ApplySmoothing(s, incoming, w);
            if k < |s.actions| then r.actions[k] == BlendSlot(s, incoming, w, k) && r.counts[k] == CountSlot(s, w, k)
            else r.actions[k] == incoming[k] && r.counts[k] == 1
  {
  }

  lemma ApplySmoothingValid(s: Store, incoming: seq<Action>, w: seq<real>)
    requires Positive(w) && ValidStore(s, w) && Compatible(s, incoming)
    ensures ValidStore(ApplySmoothing(s, incoming, w), w)
  {
    var r := ApplySmoothing(s, incoming, w);
    forall k | 0 <= k < |incoming|
      ensures 1 <= r.counts[k] <= |w| && |r.actions[k]| == |incoming[0]|
      ensures k < |s.actions| ==> r.counts[k] == CountSlot(s, w, k)
      ensures k >= |s.actions| ==> r.counts[k] == 1
    {
      SmoothedSlot(s, incoming, w, k);
    }
  }

  /** The plan that will replace the current one once it is committed. */
  function Prepare(s: Store, enabled: bool, incoming: seq<Action>, w: seq<real>): (r: Store)
    requires Positive(w) && ValidStore(s, w) && Fits(s, enabled, incoming)
    ensures ValidStore(r, w) && |r.actions| == |incoming|
  {
    if |incoming| == 0 then EMPTY
    else if |s.actions| == 0 || !enabled then Store(incoming, Ones(|incoming|))
    else
      ApplySmoothingValid(s, incoming, w);
      ApplySmoothing(s, incoming, w)
  }

  /** The one-shot form: skip the actions executed meanwhile, then smooth. */
  function Update(s: Store, enabled: bool, chunk: seq<Action>, executed: nat, w: seq<real>): Store
    requires Positive(w) && ValidStore(s, w) && Fits(s, enabled, chunk)
  {
    if |chunk| == 0 then s
    else
      var relevant := chunk[Min(executed, |chunk|)..];
      if |s.actions| == 0 || !enabled then Store(relevant, Ones(|relevant|))
      else ApplySmoothing(s, relevant, w)
  }

  function Tail(s: Store): Store
    requires |s.actions| > 0
  {
    Store(s.actions[1..], if |s.counts| > 0 then s.counts[1..] else [])
  }

  /** For a nonempty chunk the two-phase form and the one-shot form give the same plan. */
  lemma PrepareAgreesWithUpdate(s: Store, enabled: bool, chunk: seq<Action>, executed: nat, w: seq<real>)
    requires Positive(w) && ValidStore(s, w) && Fits(s, enabled, chunk) && |chunk| > 0
    ensures Update(s, enabled, chunk, executed, w) == Prepare(s, enabled, chunk[Min(executed, |chunk|)..], w)
  {
    var relevant := chunk[Min(executed, |chunk|)..];
    if |relevant| == 0 {
      assert Ones(0) == [];
      assert |s.actions| > 0 && enabled ==> ApplySmoothing(s, relevant, w) == EMPTY;
    }
  }

  // ---- A mean stays within its contributions ---------------------------------------------------------

  lemma TermBounds(c: real, x: real, lo: real, hi: real)
    requires c > 0.0 && lo <= x <= hi
    ensures lo * c <= c * x <= hi * c
  {
    assert (x - lo) * c >= 0.0 && (hi - x) * c >= 0.0;
  }

  lemma Distributes(x: real, c: real, d: real)
    ensures x * (c + d) == x * c + x * d
  {
  }

  lemma {:induction false} WeightedSumBounds(w: seq<real>, xs: seq<Action>, n: nat, i: nat, lo: real, hi: real)
    requires Positive(w) && n <= |w| && n <= |xs|
    requires forall j :: 0 <= j < n ==> i < |xs[j]| && lo <= xs[j][i] <= hi
    ensures lo * Cumulative(w, n) <= WeightedSum(w, xs, n, i) <= hi * Cumulative(w, n)
  {
    if n == 0 {
      assert lo * 0.0 == 0.0 == hi * 0.0;
    } else {
      var c, weight, x := Cumulative(w, n - 1), w[n - 1], xs[n - 1][i];
      WeightedSumBounds(w, xs, n - 1, i, lo, hi);
      SumBounds(lo, hi, c, WeightedSum(w, xs, n - 1, i), weight, x);
    }
  }

  /** Adding a term within the bounds to a sum within the bounds. */
  lemma SumBounds(lo: real, hi: real, c: real, sum: real, weight: real, x: real)
    requires lo * c <= sum <= hi * c && weight > 0.0 && lo <= x <= hi
    ensures lo * (c + weight) <= sum + weight * x <= hi * (c + weight)
  {
    TermBounds(weight, x, lo, hi);
    Distributes(lo, c, weight);
    Distributes(hi, c, weight);
  }

  /** Every coordinate of a mean lies between any bounds of its contributions, so between their least and greatest. */
  lemma MeanWithinContributions(w: seq<real>, value: Action, xs: seq<Action>, n: nat, i: nat, lo: real, hi: real)
    requires Positive(w) && IsMean(w, value, xs, n) && i < |value|
    requires forall j :: 0 <= j < n ==> lo <= xs[j][i] <= hi
    ensures lo <= value[i] <= hi
  {
    WeightedSumBounds(w, xs, n, i, lo, hi);
    CumulativePositive(w, n);
    CancelPositive(lo, value[i], Cumulative(w, n));
    CancelPositive(value[i], hi, Cumulative(w, n));
  }

  lemma CancelPositive(x: real, y: real, c: real)
    requires c > 0.0 && x * c <= y * c
    ensures x <= y
  {
    assert (y - x) * c >= 0.0;
  }

  // ---- The smoother object ----------------------------------------------------------------------------

  class TemporalSmoother {
    const weights: seq<real>
    var enabled: bool
    var smoothedActions: seq<Action>
    var actionCounts: seq<nat>

    ghost function View(): Store
      reads this
    {
      Store(smoothedActions, actionCounts)
    }

    ghost predicate Valid()
      reads this
    {
      Positive(weights) && ValidStore(View(), weights)
    }

    constructor (weights: seq<real>, enabled: bool)
      requires Positive(weights)
      ensures Valid() && View() == EMPTY && this.weights == weights && this.enabled == enabled
    {
      this.weights, this.enabled := weights, enabled;
      smoothedActions, actionCounts := [], [];
    }

    method Reset()
      requires Valid()
      modifies this
      ensures Valid() && View() == EMPTY && enabled == old(enabled)
    {
      smoothedActions, actionCounts := [], [];
    }

    method SetEnabled(active: bool)
      requires Valid()
      modifies this`enabled
      ensures Valid() && enabled == active
    {
      enabled := active;
    }

    method PlanLength() returns (n: nat)
      ensures n == |smoothedActions|
    {
      n := |smoothedActions|;
    }

    /** The next action is taken off the plan; an empty plan is an error and stays as it is. */
    method GetNextAction() returns (r: Result<Action, PlanError>)
      requires Valid()
      modifies this`smoothedActions, this`actionCounts
      ensures Valid()
      ensures |old(smoothedActions)| == 0 ==> r == Err(EmptyActions) && View() == old(View())
      ensures |old(smoothedActions)| > 0 ==> r == Ok(old(smoothedActions)[0]) && View() == Tail(old(View()))
    {
      if |smoothedActions| == 0 {
        return Err(EmptyActions);
      }
      r := Ok(smoothedActions[0]);
      smoothedActions := smoothedActions[1..];
      actionCounts := actionCounts[1..];
    }

    /** Prepare the next plan without touching the current one. */
    method PrepareNext(incoming: seq<Action>) returns (r: Result<Store, PlanError>)
      requires Valid()
      ensures r.Ok? <==> Fits(View(), enabled, incoming)
      ensures r.Ok? ==> r.value == Prepare(View(), enabled, incoming, weights)
      ensures r.Err? ==> r.error == WidthMismatch
    {
      if !Fits(Store(smoothedActions, actionCounts), enabled, incoming) {
        return Err(WidthMismatch);
      }
      r := Ok(Prepare(Store(smoothedActions, actionCounts), enabled, incoming, weights));
    }

    method Commit(prepared: Store)
      requires Valid() && ValidStore(prepared, weights)
      modifies this`smoothedActions, this`actionCounts
      ensures Valid() && View() == prepared
    {
      smoothedActions, actionCounts := prepared.actions, prepared.counts;
    }

    /** The one-shot form leaves the plan that preparing the aligned rest of the chunk would. */
    method UpdatePlan(chunk: seq<Action>, executed: nat) returns (r: Result<nat, PlanError>)
      requires Valid()
      modifies this`smoothedActions, this`actionCounts
      ensures Valid()
      ensures r.Ok? <==> old(Fits(View(), enabled, chunk))
      ensures r.Err? ==> View() == old(View())
      ensures r.Ok? ==> View() == old(Update(View(), enabled, chunk, executed, weights)) && r.value == |View().actions|
      ensures r.Ok? && |chunk| > 0 ==>
                View() == old(Prepare(View(), enabled, chunk[Min(executed, |chunk|)..], weights))
    {
      if !Fits(Store(smoothedActions, actionCounts), enabled, chunk) {
        return Err(WidthMismatch);
      }
      if |chunk| == 0 {
        return Ok(|smoothedActions|);
      }
      PrepareAgreesWithUpdate(View(), enabled, chunk, executed, weights);
      var relevant := chunk[Min(executed, |chunk|)..];
      if |smoothedActions| == 0 || !enabled {
        smoothedActions, actionCounts := relevant, Ones(|relevant|);
      } else {
        var next := ApplySmoothing(Store(smoothedActions, actionCounts), relevant, weights);
        smoothedActions, actionCounts := next.actions, next.counts;
      }
      r := Ok(|smoothedActions|);
    }
  }
}
