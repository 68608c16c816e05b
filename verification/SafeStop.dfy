/**
 Safe stop: from the action contract and the joint order to one safety command per channel, without
 ever inventing a value to hold.
 */
module SafeStop {
  import opened Prelude

  datatype Num = Finite(value: real) | NonFinite

  datatype Behavior = Zeros | Hold

  datatype Clamp = Clamp(lo: real, hi: real)

  datatype ActionSpec = ActionSpec(names: seq<string>, behavior: string, clamp: Option<Clamp>)

  datatype Channel = Channel(
    specIndex: nat,
    behavior: Behavior,
    names: seq<string>,
    jointIndices: seq<Option<nat>>,
    clamp: Option<Clamp>
  )

  datatype SafeStopPlan = SafeStopPlan(channels: seq<Channel>, jointOrder: seq<string>)

  datatype Snapshot = Snapshot(positions: seq<Num>, valid: bool)

  const NO_SNAPSHOT := Snapshot([], false)

  datatype SafeStopError = UnknownBehavior(specIndex: nat) | NothingToHold(specIndex: nat)

  // ---- Names ---------------------------------------------------------------------------------------------

  /** The position of the first occurrence. */
  function IndexOf(names: seq<string>, name: string): (r: Option<nat>)
    ensures r.Some? <==> name in names
    ensures r.Some? ==> r.value < |names| && names[r.value] == name && name !in names[..r.value]
  {
    if names == [] then None
    else if names[0] == name then Some(0)
    else
      var rest := IndexOf(names[1..], name);
      if rest.None? then None
      else
        assert names[..rest.value + 1] == [names[0]] + names[1..][..rest.value];
        Some(rest.value + 1)
  }

  predicate AllDigits(s: string) {
    forall i :: 0 <= i < |s| ==> '0' <= s[i] <= '9'
  }

  function ParseNumber(s: string): nat
    requires AllDigits(s)
  {
    if s == [] then 0 else ParseNumber(s[..|s| - 1]) * 10 + ((s[|s| - 1] as int) - ('0' as int))
  }

  const PREFIX := "action."

  /** A joint by its name, or by its number as `action.N`. */
  function NameIndex(name: string, jointOrder: seq<string>): (r: Option<nat>)
    ensures r.Some? ==> r.value < |jointOrder|
  {
    if name in jointOrder then IndexOf(jointOrder, name)
    else if !(PREFIX <= name) then None
    else
      var suffix := name[|PREFIX|..];
      if suffix == [] || !AllDigits(suffix) then None
      else if ParseNumber(suffix) < |jointOrder| then Some(ParseNumber(suffix)) else None
  }

  function LowerCase(s: string): (r: string)
    ensures |r| == |s|
  {
    seq(|s|, i requires 0 <= i < |s| => if 'A' <= s[i] <= 'Z' then ((s[i] as int) + 32) as char else s[i])
  }

  /** Channels are zeroed unless the contract says otherwise. */
  function BehaviorOf(declared: string): Option<Behavior> {
    var lower := LowerCase(if declared == "" then "zeros" else declared);
    if lower == "zeros" then Some(Zeros) else if lower == "hold" then Some(Hold) else None
  }

  // ---- The plan ------------------------------------------------------------------------------------------

  function ChannelOf(spec: ActionSpec, index: nat, jointOrder: seq<string>): Channel
    requires BehaviorOf(spec.behavior).Some?
  {
    var behavior := BehaviorOf(spec.behavior).value;
    Channel(index, behavior, spec.names,
            seq(|spec.names|, i requires 0 <= i < |spec.names| =>
              if behavior == Zeros then None else NameIndex(spec.names[i], jointOrder)),
            spec.clamp)
  }

  /** The channel has the names and limits of its specification; only a hold channel needs to know its joints. */
  predicate Resolves(c: Channel, spec: ActionSpec, jointOrder: seq<string>) {
    && c.names == spec.names && c.clamp == spec.clamp && BehaviorOf(spec.behavior) == Some(c.behavior)
    && |c.jointIndices| == |c.names|
    && forall i :: 0 <= i < |c.names| ==>
         c.jointIndices[i] == if c.behavior == Hold then NameIndex(c.names[i], jointOrder) else None
  }

  /** One channel per specification, in order; the first unknown behaviour is an error. */
  method BuildSafeStopPlan(specs: seq<ActionSpec>, jointOrder: seq<string>) returns (r: Result<SafeStopPlan, SafeStopError>)
    ensures r.Ok? <==> forall i :: 0 <= i < |specs| ==> BehaviorOf(specs[i].behavior).Some?
    ensures r.Ok? ==> r.value.jointOrder == jointOrder && |r.value.channels| == |specs| && WellFormed(r.value)
    ensures r.Ok? ==> forall i :: 0 <= i < |specs| ==>
                        BehaviorOf(specs[i].behavior).Some? && r.value.channels[i] == ChannelOf(specs[i], i, jointOrder)
    ensures r.Ok? ==> forall i :: 0 <= i < |specs| ==> Resolves(r.value.channels[i], specs[i], jointOrder)
    ensures r.Err? ==> r.error.UnknownBehavior? && r.error.specIndex < |specs|
                       && BehaviorOf(specs[r.error.specIndex].behavior).None?
                       && forall i :: 0 <= i < r.error.specIndex ==> BehaviorOf(specs[i].behavior).Some?
  {
    var channels: seq<Channel> := [];
    for specIndex := 0 to |specs|
      invariant |channels| == specIndex
      invariant forall i :: 0 <= i < specIndex ==>
                  BehaviorOf(specs[i].behavior).Some? && channels[i] == ChannelOf(specs[i], i, jointOrder)
    {
      var spec := specs[specIndex];
      var behavior := BehaviorOf(spec.behavior);
      if behavior.None? {
        return Err(UnknownBehavior(specIndex));
      }
      var jointIndices: seq<Option<nat>> := [];
      for i := 0 to |spec.names|
        invariant |jointIndices| == i
        invariant forall k :: 0 <= k < i ==> jointIndices[k] == ChannelOf(spec, specIndex, jointOrder).jointIndices[k]
      {
        var index := NameIndex(spec.names[i], jointOrder);
        jointIndices := jointIndices + [if behavior.value == Zeros then None else index];
      }
      assert jointIndices == ChannelOf(spec, specIndex, jointOrder).jointIndices;
      channels := channels + [Channel(specIndex, behavior.value, spec.names, jointIndices, spec.clamp)];
    }
    r := Ok(SafeStopPlan(channels, jointOrder));
  }

  predicate WellFormed(plan: SafeStopPlan) {
    forall k :: 0 <= k < |plan.channels| ==>
      plan.channels[k].specIndex == k && |plan.channels[k].jointIndices| == |plan.channels[k].names|
  }

  /** The number of positions before channel `k`. */
  function Offset(channels: seq<Channel>, k: nat): nat
    requires k <= |channels|
  {
    if k == 0 then 0 else Offset(channels, k - 1) + |channels[k - 1].names|
  }

  // ---- Joint observations ----------------------------------------------------------------------------------

  function SetOf(names: seq<string>): set<string> {
    set i | 0 <= i < |names| :: names[i]
  }

  predicate Distinct(names: seq<string>) {
    forall i, j :: 0 <= i < j < |names| ==> names[i] != names[j]
  }

  /** The position reported under this name; of several, the last. */
  function Reported(names: seq<string>, positions: seq<Num>, name: string): Num
    requires |names| == |positions| && name in names
  {
    var n := |names| - 1;
    if names[n] == name then positions[n] else Reported(names[..n], positions[..n], name)
  }

  /** Accept a sample that names each expected joint, and reorder it into the expected order. */
  function ValidateJointState(names: seq<string>, positions: seq<Num>, expected: seq<string>): (r: Snapshot)
    ensures r.valid ==> |r.positions| == |expected| == |names| == |positions|
  {
    if |names| != |expected| || SetOf(names) != SetOf(expected) then NO_SNAPSHOT
    else if |positions| != |expected| then NO_SNAPSHOT
    else if !(forall i :: 0 <= i < |positions| ==> positions[i].Finite?) then NO_SNAPSHOT
    else
      Snapshot(seq(|expected|, j requires 0 <= j < |expected| =>
                 assert expected[j] in SetOf(expected);
                 Reported(names, positions, expected[j])), true)
  }

  lemma {:induction false} SetOfSnoc(names: seq<string>)
    requires |names| > 0
    ensures SetOf(names) == SetOf(names[..|names| - 1]) + {names[|names| - 1]}
  {
    var front := names[..|names| - 1];
    forall x | x in SetOf(names)
      ensures x in SetOf(front) || x == names[|names| - 1]
    {
      var i :| 0 <= i < |names| && names[i] == x;
      assert i < |front| ==> front[i] == x;
    }
    forall x | x in SetOf(front)
      ensures x in SetOf(names)
    {
      var i :| 0 <= i < |front| && front[i] == x;
      assert names[i] == x;
    }
  }

  /** A sequence has as many different names as it is long exactly when no name is repeated. */
  lemma {:induction false} DistinctIffFull(names: seq<string>)
    ensures |SetOf(names)| <= |names|
    ensures |SetOf(names)| == |names| <==> Distinct(names)
  {
    if names == [] {
      assert SetOf(names) == {};
    } else {
      var front, last := names[..|names| - 1], names[|names| - 1];
      DistinctIffFull(front);
      SetOfSnoc(names);
      if last in SetOf(front) {
        var i :| 0 <= i < |front| && front[i] == last;
        assert names[i] == names[|names| - 1];
        assert SetOf(names) == SetOf(front);
      } else {
        assert forall i :: 0 <= i < |front| ==> front[i] in SetOf(front);
        assert forall i :: 0 <= i < |front| ==> names[i] == front[i] != last;
        assert Distinct(front) ==> Distinct(names);
        assert Distinct(names) ==> Distinct(front);
      }
    }
  }

  lemma {:induction false} ReportedIsUnique(names: seq<string>, positions: seq<Num>, i: nat)
    requires |names| == |positions| && i < |names| && Distinct(names)
    ensures Reported(names, positions, names[i]) == positions[i]
  {
    var n := |names| - 1;
    if i < n {
      assert names[..n][i] == names[i];
      ReportedIsUnique(names[..n], positions[..n], i);
    }
  }

  /** Equal length and equal sets force a permutation when the expected joints are distinct: every joint
      is reported exactly once, and the reordering puts each reading at its joint's place. */
  lemma AcceptedSampleIsPermutation(names: seq<string>, positions: seq<Num>, expected: seq<string>)
    requires Distinct(expected) && ValidateJointState(names, positions, expected).valid
    ensures Distinct(names) && multiset(names) == multiset(expected)
    ensures var ordered := ValidateJointState(names, positions, expected).positions;
            forall i, j :: 0 <= i < |names| && 0 <= j < |expected| && names[i] == expected[j] ==>
              ordered[j] == positions[i]
  {
    DistinctIffFull(expected);
    DistinctIffFull(names);
    DistinctCounts(names);
    DistinctCounts(expected);
    forall name
      ensures multiset(names)[name] == multiset(expected)[name]
    {
      assert name in names <==> name in SetOf(names);
      assert name in expected <==> name in SetOf(expected);
    }
    forall i, j | 0 <= i < |names| && 0 <= j < |expected| && names[i] == expected[j]
      ensures ValidateJointState(names, positions, expected).positions[j] == positions[i]
    {
      ReportedIsUnique(names, positions, i);
    }
  }

  lemma {:induction false} DistinctCounts(names: seq<string>)
    requires Distinct(names)
    ensures forall name :: multiset(names)[name] == if name in names then 1 else 0
  {
    if names != [] {
      var n := |names| - 1;
      DistinctCounts(names[..n]);
      assert names == names[..n] + [names[n]];
      assert names[n] !in names[..n];
    }
  }

  /** A sample is accepted exactly when it has the expected length, names the expected joints and all its
      readings are finite; distinct joints then leave room for no repeated name. */
  lemma AcceptedIff(names: seq<string>, positions: seq<Num>, expected: seq<string>)
    requires Distinct(expected)
    ensures ValidateJointState(names, positions, expected).valid
            <==> && |positions| == |names|
                 && multiset(names) == multiset(expected)
                 && forall i :: 0 <= i < |positions| ==> positions[i].Finite?
  {
    if ValidateJointState(names, positions, expected).valid {
      AcceptedSampleIsPermutation(names, positions, expected);
    } else if |positions| == |names| && multiset(names) == multiset(expected) {
      assert |names| == |multiset(names)| == |multiset(expected)| == |expected|;
      assert forall name :: name in names <==> name in multiset(names);
      assert forall name :: name in expected <==> name in multiset(expected);
      assert forall name :: name in SetOf(names) <==> name in names;
      assert forall name :: name in SetOf(expected) <==> name in expected;
      assert SetOf(names) == SetOf(expected);
    }
  }

  /** Every accepted sample lists exactly the expected joints. */
  ghost predicate OnlyPermutations(expected: seq<string>) {
    forall names: seq<string>, positions: seq<Num> {:trigger ValidateJointState(names, positions, expected)} ::
      ValidateJointState(names, positions, expected).valid ==> multiset(names) == multiset(expected)
  }

  /** With a repeated joint and another one, a sample that lists the other one instead of the repetition
      is accepted too. */
  lemma RepetitionAdmitsAnother(expected: seq<string>, i: nat, j: nat, k: nat)
    requires i < |expected| && j < |expected| && k < |expected| && i != j
    requires expected[i] == expected[j] != expected[k]
    ensures !OnlyPermutations(expected)
  {
    var names := expected[i := expected[k]];
    var positions := seq(|expected|, _ => Finite(0.0));
    forall x
      ensures x in SetOf(names) <==> x in SetOf(expected)
    {
      if x in SetOf(names) {
        var n :| 0 <= n < |names| && names[n] == x;
        assert expected[if n == i then k else n] == x;
      }
      if x in SetOf(expected) {
        var n :| 0 <= n < |expected| && expected[n] == x;
        assert names[if n == i then j else n] == x;
      }
    }
    assert ValidateJointState(names, positions, expected).valid;
    assert multiset(names) == multiset(expected) - multiset{expected[i]} + multiset{expected[k]};
    assert multiset(names)[expected[k]] == multiset(expected)[expected[k]] + 1;
  }

  lemma {:induction false} SingleNameCounts(names: seq<string>, name: string)
    requires forall i :: 0 <= i < |names| ==> names[i] == name
    ensures multiset(names) == multiset{}[name := |names|]
  {
    if names != [] {
      var n := |names| - 1;
      SingleNameCounts(names[..n], name);
      assert names == names[..n] + [names[n]];
    }
  }

  /** Accepted samples are permutations of the expected joints exactly when those are all different, or
      all the same. */
  lemma OnlyPermutationsIff(expected: seq<string>)
    ensures OnlyPermutations(expected)
            <==> Distinct(expected) || forall i, j :: 0 <= i < j < |expected| ==> expected[i] == expected[j]
  {
    if Distinct(expected) {
      forall names: seq<string>, positions: seq<Num> | ValidateJointState(names, positions, expected).valid
        ensures multiset(names) == multiset(expected)
      {
        AcceptedSampleIsPermutation(names, positions, expected);
      }
    } else if forall i, j :: 0 <= i < j < |expected| ==> expected[i] == expected[j] {
      forall names: seq<string>, positions: seq<Num> | ValidateJointState(names, positions, expected).valid
        ensures multiset(names) == multiset(expected)
      {
        forall i | 0 <= i < |names|
          ensures names[i] == expected[0]
        {
          assert names[i] in SetOf(names);
        }
        SingleNameCounts(names, expected[0]);
        SingleNameCounts(expected, expected[0]);
      }
    } else {
      var i, j :| 0 <= i < j < |expected| && expected[i] == expected[j];
      var k :| 0 <= k < |expected| && expected[k] != expected[i];
      RepetitionAdmitsAnother(expected, i, j, k);
    }
  }

  // ---- Safety commands ---------------------------------------------------------------------------------------

  /** Where a channel's first position stands in the flat action. */
  function FlatOffset(plan: SafeStopPlan, c: Channel): nat {
    Offset(plan.channels, if c.specIndex <= |plan.channels| then c.specIndex else |plan.channels|)
  }

  /** What a hold channel holds at position `i`: the last target, else the reading of its joint, else
      nothing. */
  function Held(plan: SafeStopPlan, c: Channel, i: nat, last: seq<Num>, snapshot: Snapshot): Option<real>
    requires i < |c.jointIndices|
  {
    var flat := FlatOffset(plan, c) + i;
    if flat < |last| && last[flat].Finite? then Some(last[flat].value)
    else if snapshot.valid && c.jointIndices[i].Some? && c.jointIndices[i].value < |snapshot.positions|
            && snapshot.positions[c.jointIndices[i].value].Finite?
    then Some(snapshot.positions[c.jointIndices[i].value].value)
    else None
  }

  function Clamped(clamp: Option<Clamp>, v: real): real {
    if clamp.None? then v
    else
      var upper := if v < clamp.value.hi then v else clamp.value.hi;
      if upper < clamp.value.lo then clamp.value.lo else upper
  }

  /** What the channel at `k` has to hold at position `i`: its own entry of the last action if that is a number, else
      the reading of its joint. */
  predicate IsToHold(plan: SafeStopPlan, k: nat, i: nat, last: seq<Num>, snapshot: Snapshot, v: real)
    requires k < |plan.channels| && i < |plan.channels[k].jointIndices|
  {
    var flat, joint := Offset(plan.channels, k) + i, plan.channels[k].jointIndices[i];
    if flat < |last| && last[flat] != NonFinite then last[flat] == Finite(v)
    else snapshot.valid && joint.Some? && joint.value < |snapshot.positions| && snapshot.positions[joint.value] == Finite(v)
  }

  /** `x` is `v` brought back into the limits. Limits that are the wrong way round leave only the lower one. */
  predicate IsLimited(clamp: Option<Clamp>, v: real, x: real) {
    match clamp
    case None => x == v
    case Some(Clamp(lo, hi)) =>
      if lo > hi then x == lo
      else if v < lo then x == lo
      else if v > hi then x == hi
      else x == v
  }

  ghost predicate IsHeldWithinLimits(plan: SafeStopPlan, k: nat, i: nat, last: seq<Num>, snapshot: Snapshot, x: real)
    requires k < |plan.channels| && i < |plan.channels[k].jointIndices|
  {
    exists v: real :: IsToHold(plan, k, i, last, snapshot, v) && IsLimited(plan.channels[k].clamp, v, x)
  }

  /** Every hold position is commanded the value it has to hold, within its limits. */
  ghost predicate HoldsWithinLimits(plan: SafeStopPlan, last: seq<Num>, snapshot: Snapshot, commands: seq<seq<real>>)
    requires WellFormed(plan) && |commands| == |plan.channels|
    requires forall k :: 0 <= k < |commands| ==> |commands[k]| == |plan.channels[k].names|
  {
    forall k, i :: 0 <= k < |plan.channels| && plan.channels[k].behavior == Hold && 0 <= i < |plan.channels[k].names| ==>
      IsHeldWithinLimits(plan, k, i, last, snapshot, commands[k][i])
  }

  ghost predicate SomethingToHold(plan: SafeStopPlan, k: nat, i: nat, last: seq<Num>, snapshot: Snapshot)
    requires k < |plan.channels| && i < |plan.channels[k].jointIndices|
  {
    exists v: real :: IsToHold(plan, k, i, last, snapshot, v)
  }

  predicate CanHold(plan: SafeStopPlan, c: Channel, last: seq<Num>, snapshot: Snapshot)
    requires |c.jointIndices| == |c.names|
  {
    c.behavior == Hold ==> forall i :: 0 <= i < |c.names| ==> Held(plan, c, i, last, snapshot).Some?
  }

  /** The command of one channel: zeros, or the clamped held values. */
  predicate IsCommand(command: seq<real>, plan: SafeStopPlan, c: Channel, last: seq<Num>, snapshot: Snapshot)
    requires |c.jointIndices| == |c.names|
  {
    && |command| == |c.names|
    && (c.behavior == Zeros ==> forall i :: 0 <= i < |command| ==> command[i] == 0.0)
    && (c.behavior == Hold ==> forall i :: 0 <= i < |command| ==>
          Held(plan, c, i, last, snapshot).Some?
          && command[i] == Clamped(c.clamp, Held(plan, c, i, last, snapshot).value))
  }

  lemma HeldIsToHold(plan: SafeStopPlan, k: nat, i: nat, last: seq<Num>, snapshot: Snapshot)
    requires WellFormed(plan) && k < |plan.channels| && i < |plan.channels[k].names|
    ensures var held := Held(plan, plan.channels[k], i, last, snapshot);
            && (held.Some? <==> SomethingToHold(plan, k, i, last, snapshot))
            && (held.Some? ==> IsToHold(plan, k, i, last, snapshot, held.value))
  {
    var held := Held(plan, plan.channels[k], i, last, snapshot);
    if held.Some? {
      assert IsToHold(plan, k, i, last, snapshot, held.value);
    }
  }

  lemma CommandsHoldWithinLimits(plan: SafeStopPlan, last: seq<Num>, snapshot: Snapshot, commands: seq<seq<real>>)
    requires WellFormed(plan) && |commands| == |plan.channels|
    requires forall k :: 0 <= k < |commands| ==> |commands[k]| == |plan.channels[k].names|
    requires forall k :: 0 <= k < |plan.channels| ==> IsCommand(commands[k], plan, plan.channels[k], last, snapshot)
    ensures HoldsWithinLimits(plan, last, snapshot, commands)
  {
    forall k, i | 0 <= k < |plan.channels| && plan.channels[k].behavior == Hold && 0 <= i < |plan.channels[k].names|
      ensures IsHeldWithinLimits(plan, k, i, last, snapshot, commands[k][i])
    {
      assert IsCommand(commands[k], plan, plan.channels[k], last, snapshot);
      HeldIsToHold(plan, k, i, last, snapshot);
      var v := Held(plan, plan.channels[k], i, last, snapshot).value;
      assert IsToHold(plan, k, i, last, snapshot, v) && IsLimited(plan.channels[k].clamp, v, commands[k][i]);
    }
  }

  /** The values of a hold channel, filled in two passes; `None` where neither pass found one. */
  method FillHold(plan: SafeStopPlan, c: Channel, last: seq<Num>, snapshot: Snapshot) returns (vec: seq<Option<real>>)
    requires |c.jointIndices| == |c.names|
    ensures |vec| == |c.names|
    ensures forall i :: 0 <= i < |vec| ==> vec[i] == Held(plan, c, i, last, snapshot)
  {
    var n := |c.names|;
    vec := seq(n, _ => None);
    if last != [] {
      var offset := FlatOffset(plan, c);
      for i := 0 to n
        invariant |vec| == n
        invariant forall k :: 0 <= k < n ==>
                    vec[k] == if k < i && offset + k < |last| && last[offset + k].Finite?
                              then Some(last[offset + k].value) else None
      {
        if offset + i < |last| && last[offset + i].Finite? {
          vec := vec[i := Some(last[offset + i].value)];
        }
      }
    }
    ghost var targets := vec;
    if snapshot.valid {
      for i := 0 to n
        invariant |vec| == n
        invariant forall k :: 0 <= k < i ==> vec[k] == Held(plan, c, k, last, snapshot)
        invariant forall k :: i <= k < n ==> vec[k] == targets[k]
      {
        var index := c.jointIndices[i];
        if vec[i].None? && index.Some? && index.value < |snapshot.positions| {
          var reading := snapshot.positions[index.value];
          if reading.Finite? {
            vec := vec[i := Some(reading.value)];
          }
        }
      }
    }
  }

  /** One command per channel in plan order, or the first hold channel that has nothing to hold. */
  method ConstructSafetyCommand(plan: SafeStopPlan, lastAction: Option<seq<Num>>, snapshot: Snapshot)
    returns (r: Result<seq<seq<real>>, SafeStopError>)
    requires WellFormed(plan)
    ensures var last := lastAction.GetOr([]);
            && (r.Ok? <==> forall k :: 0 <= k < |plan.channels| ==> CanHold(plan, plan.channels[k], last, snapshot))
            && (r.Ok? ==> |r.value| == |plan.channels|
                          && (forall k :: 0 <= k < |plan.channels| ==>
                                IsCommand(r.value[k], plan, plan.channels[k], last, snapshot))
                          && HoldsWithinLimits(plan, last, snapshot, r.value))
            && (r.Err? ==> r.error.NothingToHold? && r.error.specIndex < |plan.channels|
                           && !CanHold(plan, plan.channels[r.error.specIndex], last, snapshot)
                           && forall k :: 0 <= k < r.error.specIndex ==> CanHold(plan, plan.channels[k], last, snapshot))
  {
    var commands: seq<seq<real>> := [];
    var last := lastAction.GetOr([]);
    for k := 0 to |plan.channels|
      invariant |commands| == k
      invariant forall j :: 0 <= j < k ==> CanHold(plan, plan.channels[j], last, snapshot)
      invariant forall j :: 0 <= j < k ==> IsCommand(commands[j], plan, plan.channels[j], last, snapshot)
    {
      var channel := plan.channels[k];
      if channel.behavior == Zeros {
        commands := commands + [seq(|channel.names|, _ => 0.0)];
      } else {
        var vec := FillHold(plan, channel, last, snapshot);
        if exists i :: 0 <= i < |vec| && vec[i].None? {
          return Err(NothingToHold(channel.specIndex));
        }
        commands := commands + [seq(|vec|, i requires 0 <= i < |vec| && vec[i].Some? => Clamped(channel.clamp, vec[i].value))];
      }
    }
    CommandsHoldWithinLimits(plan, last, snapshot, commands);
    r := Ok(commands);
  }
}

/** What safe stop guarantees across building, observing and commanding. */
module SafeStopTheorems {
  import opened Prelude
  import opened SafeStop

  lemma {:induction false} OffsetsGrow(channels: seq<Channel>, j: nat, k: nat)
    requires j < k <= |channels|
    ensures Offset(channels, j) + |channels[j].names| <= Offset(channels, k)
  {
    if j + 1 < k {
      OffsetsGrow(channels, j, k - 1);
    }
  }

  /** Different positions of different channels never read the same entry of the last action. */
  lemma FlatPositionsAreDisjoint(plan: SafeStopPlan, j: nat, k: nat, i: nat, l: nat)
    requires WellFormed(plan) && j < k < |plan.channels|
    requires i < |plan.channels[j].names| && l < |plan.channels[k].names|
    ensures FlatOffset(plan, plan.channels[j]) + i < FlatOffset(plan, plan.channels[k]) + l
            < Offset(plan.channels, |plan.channels|)
  {
    OffsetsGrow(plan.channels, j, k);
    OffsetsGrow(plan.channels, k, |plan.channels|);
  }

  /** All commands, one after the other. */
  function Flatten(commands: seq<seq<real>>, k: nat): seq<real>
    requires k <= |commands|
  {
    if k == 0 then [] else Flatten(commands, k - 1) + commands[k - 1]
  }

  lemma {:induction false} FlattenShape(plan: SafeStopPlan, commands: seq<seq<real>>, k: nat)
    requires |commands| == |plan.channels| && k <= |commands|
    requires forall j :: 0 <= j < k ==> |commands[j]| == |plan.channels[j].names|
    ensures |Flatten(commands, k)| == Offset(plan.channels, k)
  {
    if k > 0 {
      FlattenShape(plan, commands, k - 1);
    }
  }

  predicate Within(clamp: Option<Clamp>, v: real) {
    clamp.None? || clamp.value.lo <= v <= clamp.value.hi
  }

  function Targets(last: seq<real>): seq<Num> {
    seq(|last|, i requires 0 <= i < |last| => Finite(last[i]))
  }

  predicate AllWithin(clamp: Option<Clamp>, values: seq<real>) {
    forall i :: 0 <= i < |values| ==> Within(clamp, values[i])
  }

  /** A hold channel repeats its own stretch of a complete last action. */
  lemma HeldStretch(plan: SafeStopPlan, k: nat, last: seq<real>, snapshot: Snapshot, command: seq<real>)
    requires WellFormed(plan) && k < |plan.channels| && plan.channels[k].behavior == Hold
    requires IsCommand(command, plan, plan.channels[k], Targets(last), snapshot)
    requires Offset(plan.channels, k) + |command| <= |last| && AllWithin(plan.channels[k].clamp, last)
    ensures command == last[Offset(plan.channels, k)..Offset(plan.channels, k) + |command|]
  {
    var offset := Offset(plan.channels, k);
    forall i | 0 <= i < |command|
      ensures command[i] == last[offset..offset + |command|][i]
    {
      assert Within(plan.channels[k].clamp, last[offset + i]);
    }
  }

  /** Holding a complete last action whose values are within their clamps publishes just that action. */
  lemma {:induction false} HoldRepublishesLastAction(plan: SafeStopPlan, last: seq<real>, snapshot: Snapshot,
                                                     commands: seq<seq<real>>, k: nat)
    requires WellFormed(plan) && |commands| == |plan.channels| && k <= |plan.channels|
    requires |last| == Offset(plan.channels, |plan.channels|)
    requires forall j :: 0 <= j < |plan.channels| ==>
               && plan.channels[j].behavior == Hold && AllWithin(plan.channels[j].clamp, last)
               && IsCommand(commands[j], plan, plan.channels[j], Targets(last), snapshot)
    ensures Offset(plan.channels, k) <= |last|
    ensures Flatten(commands, k) == last[..Offset(plan.channels, k)]
  {
    if k > 0 {
      HoldRepublishesLastAction(plan, last, snapshot, commands, k - 1);
      OffsetsGrow(plan.channels, k - 1, |plan.channels|);
      HeldStretch(plan, k - 1, last, snapshot, commands[k - 1]);
    }
  }

  /** A fallback value of a channel named after a joint is what the sample reported for that very joint,
      in whatever order the sample listed its joints. */
  lemma FallbackReadsOwnJoint(spec: ActionSpec, index: nat, plan: SafeStopPlan, last: seq<Num>,
                              names: seq<string>, positions: seq<Num>, i: nat, at: nat)
    requires Distinct(plan.jointOrder) && BehaviorOf(spec.behavior) == Some(Hold)
    requires index < |plan.channels| && WellFormed(plan) && plan.channels[index] == ChannelOf(spec, index, plan.jointOrder)
    requires i < |spec.names| && spec.names[i] in plan.jointOrder
    requires ValidateJointState(names, positions, plan.jointOrder).valid
    requires at < |names| && names[at] == spec.names[i]
    requires var flat := Offset(plan.channels, index) + i; flat >= |last| || last[flat] == NonFinite
    ensures positions[at].Finite?
    ensures Held(plan, plan.channels[index], i, last, ValidateJointState(names, positions, plan.jointOrder))
            == Some(positions[at].value)
  {
    AcceptedSampleIsPermutation(names, positions, plan.jointOrder);
    var j := IndexOf(plan.jointOrder, spec.names[i]).value;
    assert names[at] == plan.jointOrder[j];
    assert ValidateJointState(names, positions, plan.jointOrder).positions[j] == positions[at];
  }

  /** A held value always comes from the last target or from a valid reading, and respects its clamp. */
  lemma NothingIsFabricated(plan: SafeStopPlan, c: Channel, i: nat, last: seq<Num>, snapshot: Snapshot,
                            command: seq<real>)
    requires |c.jointIndices| == |c.names| && c.behavior == Hold && i < |c.names|
    requires IsCommand(command, plan, c, last, snapshot)
    requires c.clamp.Some? ==> c.clamp.value.lo <= c.clamp.value.hi
    ensures Within(c.clamp, command[i])
    ensures exists v: real :: command[i] == Clamped(c.clamp, v)
              && (Finite(v) in last || (snapshot.valid && Finite(v) in snapshot.positions))
  {
    var v := Held(plan, c, i, last, snapshot).value;
    assert command[i] == Clamped(c.clamp, v);
  }

  function Distance(x: real, y: real): real {
    if x < y then y - x else x - y
  }

  /** The command of a hold position that has limits is the point within them that is nearest to the value it has
      to hold, and the only one. */
  lemma CommandIsNearestPoint(plan: SafeStopPlan, k: nat, i: nat, last: seq<Num>, snapshot: Snapshot,
                              commands: seq<seq<real>>, v: real, p: real)
    requires WellFormed(plan) && |commands| == |plan.channels| && k < |commands| && plan.channels[k].behavior == Hold
    requires forall j :: 0 <= j < |commands| ==> |commands[j]| == |plan.channels[j].names|
    requires i < |plan.channels[k].names| && HoldsWithinLimits(plan, last, snapshot, commands)
    requires IsToHold(plan, k, i, last, snapshot, v)
    requires plan.channels[k].clamp.Some? && plan.channels[k].clamp.value.lo <= p <= plan.channels[k].clamp.value.hi
    ensures Within(plan.channels[k].clamp, commands[k][i])
    ensures p == commands[k][i] || Distance(commands[k][i], v) < Distance(p, v)
    ensures v < plan.channels[k].clamp.value.lo ==> commands[k][i] == plan.channels[k].clamp.value.lo
    ensures v > plan.channels[k].clamp.value.hi ==> commands[k][i] == plan.channels[k].clamp.value.hi
    ensures Within(plan.channels[k].clamp, v) ==> commands[k][i] == v
  {
    assert IsHeldWithinLimits(plan, k, i, last, snapshot, commands[k][i]);
  }

  /** A safety command can be constructed exactly when every position of every hold channel has something to hold. */
  lemma ConstructibleIff(plan: SafeStopPlan, k: nat, last: seq<Num>, snapshot: Snapshot)
    requires WellFormed(plan) && k < |plan.channels|
    ensures CanHold(plan, plan.channels[k], last, snapshot)
            <==> plan.channels[k].behavior == Zeros
                 || forall i :: 0 <= i < |plan.channels[k].names| ==> SomethingToHold(plan, k, i, last, snapshot)
  {
    forall i | 0 <= i < |plan.channels[k].names|
      ensures Held(plan, plan.channels[k], i, last, snapshot).Some? <==> SomethingToHold(plan, k, i, last, snapshot)
    {
      HeldIsToHold(plan, k, i, last, snapshot);
    }
  }

  // ---- Declared names ---------------------------------------------------------------------------------------

  /** The same word, but for capital letters; `word` has none. */
  predicate Reads(s: string, word: string) {
    |s| == |word| && forall i :: 0 <= i < |s| ==> s[i] == word[i] || ('a' <= word[i] <= 'z' && s[i] as int == word[i] as int - 32)
  }

  lemma LowerCaseReads(s: string, word: string)
    requires forall i :: 0 <= i < |word| ==> 'a' <= word[i] <= 'z'
    ensures LowerCase(s) == word <==> Reads(s, word)
  {
    if Reads(s, word) {
      assert forall i :: 0 <= i < |s| ==> LowerCase(s)[i] == word[i];
    } else if LowerCase(s) == word {
      forall i | 0 <= i < |s|
        ensures s[i] == word[i] || s[i] as int == word[i] as int - 32
      {
        assert LowerCase(s)[i] == word[i];
      }
    }
  }

  /** A channel is zeroed if it declares `zeros`, in whatever case, or nothing; it holds if it declares `hold`; and
      any other declaration is unknown. */
  lemma DeclaredBehavior(declared: string)
    ensures BehaviorOf(declared) == Some(Zeros) <==> declared == "" || Reads(declared, "zeros")
    ensures BehaviorOf(declared) == Some(Hold) <==> Reads(declared, "hold")
  {
    LowerCaseReads(declared, "zeros");
    LowerCaseReads(declared, "hold");
    assert LowerCase("zeros") == "zeros" by {
      LowerCaseReads("zeros", "zeros");
    }
    assert |"zeros"| != |"hold"|;
  }

  /** The decimal digits of a number. */
  function Decimal(n: nat): string {
    if n < 10 then [(n + ('0' as int)) as char] else Decimal(n / 10) + [(n % 10 + ('0' as int)) as char]
  }

  lemma {:induction false} ParseDecimal(n: nat)
    ensures Decimal(n) != [] && AllDigits(Decimal(n)) && ParseNumber(Decimal(n)) == n
  {
    if n >= 10 {
      ParseDecimal(n / 10);
      assert Decimal(n)[..|Decimal(n)| - 1] == Decimal(n / 10);
    } else {
      assert Decimal(n)[..0] == [];
    }
  }

  /** Zeros in front do not matter. */
  lemma {:induction false} ParsePadded(s: string)
    requires AllDigits(s)
    ensures AllDigits("0" + s) && ParseNumber("0" + s) == ParseNumber(s)
  {
    if s != [] {
      var n := |s| - 1;
      ParsePadded(s[..n]);
      assert ("0" + s)[..n + 1] == "0" + s[..n];
    } else {
      assert ("0" + s)[..0] == [];
    }
  }

  /** `action.N` is the joint numbered N, if there is one and no joint has that very name; a joint's own name is its
      first place in the order; and no other name is a joint's. */
  lemma NamesOfJoints(name: string, n: nat, jointOrder: seq<string>)
    ensures name !in jointOrder && name == "action." + Decimal(n) ==>
              NameIndex(name, jointOrder) == if n < |jointOrder| then Some(n) else None
    ensures name in jointOrder ==>
              && NameIndex(name, jointOrder).Some? && jointOrder[NameIndex(name, jointOrder).value] == name
              && name !in jointOrder[..NameIndex(name, jointOrder).value]
    ensures name !in jointOrder && !("action." <= name && |name| > 7 && AllDigits(name[7..])) ==>
              NameIndex(name, jointOrder).None?
  {
    ParseDecimal(n);
    assert name == "action." + Decimal(n) ==> name[7..] == Decimal(n);
  }
}
