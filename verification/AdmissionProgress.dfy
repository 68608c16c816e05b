/**
 What the admission protocol achieves: an acquire, a release and a return to idle that nothing interferes
 with take the runtime where they should, and so does a return that had to wait for a late switch.
 */
module AdmissionProgress {
  import opened Prelude
  import opened Admission
  import opened AdmissionRuns
  import opened AdmissionHistory
  import opened AdmissionSafety
  import opened AdmissionVerdicts
  import opened AdmissionReturns

  // ---- Runs that go on -------------------------------------------------------------------------------------

  /** The last state of a run. */
  function Last(ws: seq<World>): World
    requires |ws| > 0
  {
    ws[|ws| - 1]
  }

  lemma Extend(ws: seq<World>, es: seq<Event>, e: Event) returns (ws': seq<World>, es': seq<Event>)
    requires IsRun(ws, es) && Enabled(Last(ws), e)
    ensures IsRun(ws', es') && ws <= ws' && es' == es + [e] && Last(ws') == Next(Last(ws), e)
  {
    ws', es' := ws + [Next(Last(ws), e)], es + [e];
    forall i | 0 <= i < |es'|
      ensures Enabled(ws'[i], es'[i]) && ws'[i + 1] == Next(ws'[i], es'[i])
    {
      if i < |es| {
        assert ws'[i] == ws[i] && ws'[i + 1] == ws[i + 1] && es'[i] == es[i];
      }
    }
  }

  /** A request is answered: the runtime acts on it, and the answer is delivered. */
  lemma ExtendTwo(ws: seq<World>, es: seq<Event>, e: Event, f: Event) returns (ws': seq<World>, es': seq<Event>)
    requires IsRun(ws, es) && Enabled(Last(ws), e) && Enabled(Next(Last(ws), e), f)
    ensures IsRun(ws', es') && ws <= ws' && es' == es + [e, f] && Last(ws') == Next(Next(Last(ws), e), f)
  {
    var ws1, es1 := Extend(ws, es, e);
    ws', es' := Extend(ws1, es1, f);
  }

  /** Every service answers, queries go out, and nothing else happens. */
  const SMOOTH := Env(true, true, false, false)

  const HEALTHY_IDLE := Status(true, true, Idle, false)

  const HEALTHY_OURS := Status(true, true, Ours, false)

  // ---- An undisturbed acquire ---------------------------------------------------------------------------

  /** What an attempt has reached: this acquire is pending and has just sent this request. */
  predicate Attempting(c: Client, id: nat, role: Role, switching: bool) {
    && |c.log| > 0 && c.log[|c.log| - 1] == Sent(role)
    && c.attempt == Attempt(true, false, switching, Caller(id), Some(|c.log| - 1))
  }

  ghost predicate Fresh(w: World) {
    forall k :: k in w.rt.delivered || k in w.rt.decided || k in w.rt.served ==> k < |w.c.log| - 1
  }

  lemma AcquireAsks(w: World)
    requires !w.c.owned && !w.c.rollback.running && !w.c.attempt.pending && w.c.rollback.unresolved.None?
    requires Causal(w)
    ensures var w' := Next(w, CallAcquire(false, SMOOTH));
            && Attempting(w'.c, w.c.issued, Checked(w.c.generation, false), false)
            && Fresh(w') && w'.rt == w.rt && w'.c.owned == w.c.owned && w'.c.fired == w.c.fired
            && w'.c.generation == w.c.generation && w'.c.status.None? && w'.c.rollback == w.c.rollback
  {
  }

  /** The runtime reports that it is idle and healthy. */
  lemma CheckLeadsToSwitch(w: World, id: nat)
    requires Attempting(w.c, id, Checked(w.c.generation, false), false) && Fresh(w) && !w.c.owned && w.c.status.None?
    requires w.rt.mode == Idle && !w.rt.latched
    ensures var k := |w.c.log| - 1;
            && Enabled(w, Serve(k, HEALTHY_IDLE))
            && var w1 := Next(w, Serve(k, HEALTHY_IDLE));
            && Enabled(w1, Deliver(k, true, false, SMOOTH))
            && var w2 := Next(w1, Deliver(k, true, false, SMOOTH));
            && Attempting(w2.c, id, Switched(w.c.generation), true) && Fresh(w2) && !w2.c.owned
            && w2.c.generation == w.c.generation && w2.c.fired == w.c.fired && w2.c.rollback == w.c.rollback
            && w2.rt.mode == Idle && !w2.rt.latched
  {
    var k := |w.c.log| - 1;
    var w1 := Next(w, Serve(k, HEALTHY_IDLE));
    var heard := w1.c.(attempt := w1.c.attempt.(rpc := None), log := w1.c.log + [Got(k, HEALTHY_IDLE)]);
    assert Observe(heard, HEALTHY_IDLE, SMOOTH) == heard.(status := Some(HEALTHY_IDLE),
                                                          auto := Observe(heard, HEALTHY_IDLE, SMOOTH).auto);
  }

  /** The runtime commits the switch and says so: the client owns the mode and verifies it. */
  lemma SwitchLeadsToVerify(w: World, id: nat)
    requires Attempting(w.c, id, Switched(w.c.generation), true) && Fresh(w) && !w.rt.latched
    ensures var k := |w.c.log| - 1;
            && Enabled(w, Decide(k, true, true))
            && var w1 := Next(w, Decide(k, true, true));
            && Enabled(w1, Deliver(k, true, false, SMOOTH))
            && var w2 := Next(w1, Deliver(k, true, false, SMOOTH));
            && Attempting(w2.c, id, Verified(w.c.generation), true) && Fresh(w2) && w2.c.owned
            && w2.c.generation == w.c.generation && w2.c.fired == w.c.fired
            && w2.rt.mode == Ours && w2.rt.oursByUs && !w2.rt.latched
  {
  }

  lemma VerifyLeadsToSuccess(w: World, id: nat)
    requires Attempting(w.c, id, Verified(w.c.generation), true) && Fresh(w) && w.c.owned
    requires w.rt.mode == Ours && !w.rt.latched
    ensures var k := |w.c.log| - 1;
            && Enabled(w, Serve(k, HEALTHY_OURS))
            && var w1 := Next(w, Serve(k, HEALTHY_OURS));
            && Enabled(w1, Deliver(k, true, false, SMOOTH))
            && var w2 := Next(w1, Deliver(k, true, false, SMOOTH));
            && w2.c.owned && !w2.c.attempt.pending && w2.c.fired == w.c.fired + multiset{Answer(id, true)}
            && w2.rt.mode == Ours && !w2.rt.latched
  {
    var k := |w.c.log| - 1;
    var w1 := Next(w, Serve(k, HEALTHY_OURS));
    ObserveSurvived(TakenAndHeard(w1, k), HEALTHY_OURS, SMOOTH);
  }

  lemma SwitchThenSuccess(ws: seq<World>, es: seq<Event>, id: nat) returns (ws': seq<World>, es': seq<Event>)
    requires IsRun(ws, es)
    requires var w := Last(ws); Attempting(w.c, id, Switched(w.c.generation), true) && Fresh(w) && !w.rt.latched
    ensures IsRun(ws', es') && ws <= ws' && es <= es' && |es'| == |es| + 4
    ensures var w, w' := Last(ws), Last(ws');
            && w'.c.owned && !w'.c.attempt.pending && w'.c.fired == w.c.fired + multiset{Answer(id, true)}
            && w'.rt.mode == Ours && w'.rt.oursByUs
  {
    var k := |Last(ws).c.log| - 1;
    SwitchLeadsToVerify(Last(ws), id);
    var ws1, es1 := ExtendTwo(ws, es, Decide(k, true, true), Deliver(k, true, false, SMOOTH));
    var k1 := |Last(ws1).c.log| - 1;
    VerifyLeadsToSuccess(Last(ws1), id);
    ws', es' := ExtendTwo(ws1, es1, Serve(k1, HEALTHY_OURS), Deliver(k1, true, false, SMOOTH));
  }

  lemma AcquireThenSwitch(ws: seq<World>, es: seq<Event>) returns (ws': seq<World>, es': seq<Event>)
    requires IsRun(ws, es) && NothingOpen(Last(ws).c) && Last(ws).rt.mode == Idle && !Last(ws).rt.latched
    ensures IsRun(ws', es') && ws <= ws' && es + [CallAcquire(false, SMOOTH)] <= es' && |es'| == |es| + 3
    ensures var w, w' := Last(ws), Last(ws');
            && Attempting(w'.c, w.c.issued, Switched(w'.c.generation), true) && Fresh(w') && !w'.rt.latched
            && w'.c.fired == w.c.fired
  {
    Reachable(ws, es, |es|);
    AcquireAsks(Last(ws));
    var ws1, es1 := Extend(ws, es, CallAcquire(false, SMOOTH));
    var k := |Last(ws1).c.log| - 1;
    CheckLeadsToSwitch(Last(ws1), Last(ws).c.issued);
    ws', es' := ExtendTwo(ws1, es1, Serve(k, HEALTHY_IDLE), Deliver(k, true, false, SMOOTH));
  }

  predicate NothingOpen(c: Client) {
    !c.owned && !c.rollback.running && !c.attempt.pending && c.rollback.unresolved.None?
  }

  /** An acquire of a healthy idle runtime, whose requests are answered and which nothing disturbs, succeeds:
      the caller is told so, the client owns the mode and the runtime is in it. */
  lemma UndisturbedAcquire(ws: seq<World>, es: seq<Event>) returns (ws': seq<World>, es': seq<Event>)
    requires IsRun(ws, es) && NothingOpen(Last(ws).c) && Last(ws).rt.mode == Idle && !Last(ws).rt.latched
    ensures IsRun(ws', es') && ws <= ws' && es + [CallAcquire(false, SMOOTH)] <= es' && |es'| == |es| + 7
    ensures var w, w' := Last(ws), Last(ws');
            && w'.c.owned && !w'.c.attempt.pending && w'.c.fired == w.c.fired + multiset{Answer(w.c.issued, true)}
            && w'.rt.mode == Ours && w'.rt.oursByUs
  {
    var ws1, es1 := AcquireThenSwitch(ws, es);
    ws', es' := SwitchThenSuccess(ws1, es1, Last(ws).c.issued);
  }

  // ---- An undisturbed release -----------------------------------------------------------------------------

  lemma ReleaseAsks(w: World)
    requires Inv(w) && w.c.owned && !w.c.attempt.pending
    ensures var w' := Next(w, CallRelease(SMOOTH));
            && Asks(w'.c, ReleaseChecked(w'.c.generation)) && w'.c.attempt.pending && w'.c.attempt.releasing
            && w'.c.attempt.completion == Release && Fresh(w') && w'.rt == w.rt && !w'.c.owned
            && !w'.c.rollback.running && w'.c.rollback.unresolved.None?
  {
  }

  lemma ReleaseCheckLeadsToIdle(w: World)
    requires Asks(w.c, ReleaseChecked(w.c.generation)) && w.c.attempt.pending && Fresh(w) && !w.c.owned
    requires !w.c.rollback.running && w.c.rollback.unresolved.None? && w.c.attempt.completion == Release
    requires w.rt.mode == Ours && !w.rt.latched
    ensures var k := |w.c.log| - 1;
            && Enabled(w, Serve(k, HEALTHY_OURS))
            && var w1 := Next(w, Serve(k, HEALTHY_OURS));
            && Enabled(w1, Deliver(k, true, false, SMOOTH))
            && var w2 := Next(w1, Deliver(k, true, false, SMOOTH));
            && Asks(w2.c, ReleaseIdled(w2.c.generation)) && Fresh(w2) && !w2.c.owned && w2.c.attempt.completion == Release
            && !w2.c.rollback.running && w2.c.rollback.unresolved.None?
  {
  }

  lemma IdleLeadsToRelease(w: World)
    requires Asks(w.c, ReleaseIdled(w.c.generation)) && Fresh(w) && !w.c.owned && w.c.attempt.completion == Release
    requires !w.c.rollback.running && w.c.rollback.unresolved.None?
    ensures var k := |w.c.log| - 1;
            && Enabled(w, Decide(k, true, true))
            && var w1 := Next(w, Decide(k, true, true));
            && Enabled(w1, Deliver(k, true, false, SMOOTH))
            && var w2 := Next(w1, Deliver(k, true, false, SMOOTH));
            && !w2.c.owned && !w2.c.attempt.pending && IsBack(w2.c, true) && w2.rt.mode == Idle
  {
  }

  /** A release of an owned mode, whose requests are answered and which nothing disturbs, succeeds: the
      runtime is idle, and the client has confirmed it. */
  lemma UndisturbedRelease(ws: seq<World>, es: seq<Event>) returns (ws': seq<World>, es': seq<Event>)
    requires IsRun(ws, es)
    requires var w := Last(ws); w.c.owned && !w.c.attempt.pending && w.rt.mode == Ours && !w.rt.latched
    ensures IsRun(ws', es') && ws <= ws' && es + [CallRelease(SMOOTH)] <= es' && |es'| == |es| + 5
    ensures BeginRelease(Last(ws).c, SMOOTH).1 == AwaitIdle
    ensures var w' := Last(ws'); !w'.c.owned && !w'.c.attempt.pending && IsBack(w'.c, true) && w'.rt.mode == Idle
  {
    Reachable(ws, es, |es|);
    ReleaseAsks(Last(ws));
    var ws1, es1 := Extend(ws, es, CallRelease(SMOOTH));
    ws', es' := ReleaseThenIdle(ws1, es1);
  }

  lemma ReleaseThenIdle(ws: seq<World>, es: seq<Event>) returns (ws': seq<World>, es': seq<Event>)
    requires IsRun(ws, es) && Fresh(Last(ws)) && Last(ws).rt.mode == Ours && !Last(ws).rt.latched
    requires var c := Last(ws).c;
             && Asks(c, ReleaseChecked(c.generation)) && c.attempt.pending && !c.owned && c.attempt.completion == Release
             && !c.rollback.running && c.rollback.unresolved.None?
    ensures IsRun(ws', es') && ws <= ws' && es <= es' && |es'| == |es| + 4
    ensures var w' := Last(ws'); !w'.c.owned && !w'.c.attempt.pending && IsBack(w'.c, true) && w'.rt.mode == Idle
  {
    var k := |Last(ws).c.log| - 1;
    ReleaseCheckLeadsToIdle(Last(ws));
    var ws1, es1 := ExtendTwo(ws, es, Serve(k, HEALTHY_OURS), Deliver(k, true, false, SMOOTH));
    var k1 := |Last(ws1).c.log| - 1;
    IdleLeadsToRelease(Last(ws1));
    ws', es' := ExtendTwo(ws1, es1, Decide(k1, true, true), Deliver(k1, true, false, SMOOTH));
  }

  // ---- A switch that comes too late -----------------------------------------------------------------------

  /** The client waits for the answer to its own switch, which the runtime has not decided. */
  predicate AwaitsOwnSwitch(w: World, k: nat) {
    && k == |w.c.log| - 1 && w.c.log[k].Sent? && w.c.log[k].role.Switched? && k !in w.rt.decided
    && w.c.rollback.running && w.c.rollback.unresolved == Some(k)
    && w.c.rollback.answerToken == map[k := w.c.rollback.token]
    && !w.c.owned && !w.c.attempt.pending && w.c.attempt.rpc.None?
  }

  /** The attempt times out while its switch is out. */
  lemma TimeoutAwaitsSwitch(w: World, id: nat)
    requires Inv(w) && Attempting(w.c, id, Switched(w.c.generation), true) && Fresh(w) && !w.c.owned
    ensures var w' := Next(w, AttemptTimeout(w.c.generation, SMOOTH));
            && AwaitsOwnSwitch(w', |w.c.log| - 1) && w'.c.fired == w.c.fired + multiset{Answer(id, false)}
            && Fresh(w') && w'.rt == w.rt
  {
    var closed := Close(w.c, false);
    assert !closed.owned && !closed.attempt.pending && closed.fired == w.c.fired + multiset{Answer(id, false)}
           && closed.log == w.c.log && closed.rollback == w.c.rollback.(inflight := Some(|w.c.log| - 1));
  }

  /** Then the runtime makes the switch and says so. */
  lemma LateSwitchLeadsToReturn(w: World, k: nat)
    requires AwaitsOwnSwitch(w, k) && Fresh(w) && !w.rt.latched
    ensures && Enabled(w, Decide(k, true, true))
            && var w1 := Next(w, Decide(k, true, true));
            && Enabled(w1, AnswerSwitch(k, SMOOTH))
            && var w2 := Next(w1, AnswerSwitch(k, SMOOTH));
            && Returning(w2.c) && w2.c.rollback.unresolved.None? && Fresh(w2) && w2.rt.mode == Ours && !w2.rt.latched
            && !w2.c.attempt.pending && w2.c.fired == w.c.fired && !w2.c.owned
  {
  }

  lemma ReturnLeadsToIdle(w: World)
    requires Returning(w.c) && w.c.rollback.unresolved.None? && Fresh(w) && w.rt.mode == Ours && !w.rt.latched
    ensures var k := |w.c.log| - 1;
            && Enabled(w, Serve(k, HEALTHY_OURS))
            && var w1 := Next(w, Serve(k, HEALTHY_OURS));
            && Enabled(w1, DeliverRollback(k, true, SMOOTH))
            && var w2 := Next(w1, DeliverRollback(k, true, SMOOTH));
            && Fresh(w2) && |w2.c.log| > 0 && w2.c.log[|w2.c.log| - 1] == Sent(RollbackMode(w2.c.rollback.token))
            && w2.c.rollback == w.c.rollback && w2.c.owned == w.c.owned && w2.c.attempt == w.c.attempt && w2.c.fired == w.c.fired
  {
  }

  lemma IdleLeadsToReturned(w: World)
    requires Fresh(w) && |w.c.log| > 0 && w.c.log[|w.c.log| - 1] == Sent(RollbackMode(w.c.rollback.token))
    requires w.c.rollback.running && w.c.rollback.unresolved.None?
    ensures var k := |w.c.log| - 1;
            && Enabled(w, Decide(k, true, true))
            && var w1 := Next(w, Decide(k, true, true));
            && Enabled(w1, DeliverRollback(k, true, SMOOTH))
            && var w2 := Next(w1, DeliverRollback(k, true, SMOOTH));
            && IsBack(w2.c, true) && w2.rt.mode == Idle
            && w2.c.owned == w.c.owned && w2.c.attempt == w.c.attempt && w2.c.fired == w.c.fired
  {
  }

  lemma ReturnThenIdle(ws: seq<World>, es: seq<Event>) returns (ws': seq<World>, es': seq<Event>)
    requires IsRun(ws, es) && Returning(Last(ws).c) && Last(ws).c.rollback.unresolved.None? && Fresh(Last(ws))
    requires Last(ws).rt.mode == Ours && !Last(ws).rt.latched
    ensures IsRun(ws', es') && ws <= ws' && es <= es' && |es'| == |es| + 4
    ensures var w, w' := Last(ws), Last(ws');
            && IsBack(w'.c, true) && w'.rt.mode == Idle
            && w'.c.owned == w.c.owned && w'.c.attempt == w.c.attempt && w'.c.fired == w.c.fired
  {
    var k := |Last(ws).c.log| - 1;
    ReturnLeadsToIdle(Last(ws));
    var ws1, es1 := ExtendTwo(ws, es, Serve(k, HEALTHY_OURS), DeliverRollback(k, true, SMOOTH));
    var k1 := |Last(ws1).c.log| - 1;
    IdleLeadsToReturned(Last(ws1));
    ws', es' := ExtendTwo(ws1, es1, Decide(k1, true, true), DeliverRollback(k1, true, SMOOTH));
  }

  /** An acquire that times out while its switch is out tells its caller of the failure; when the runtime makes
      the switch after all, the client takes it back to idle. */
  lemma LateSwitchIsUndone(ws: seq<World>, es: seq<Event>, id: nat) returns (ws': seq<World>, es': seq<Event>)
    requires IsRun(ws, es)
    requires var w := Last(ws);
             Attempting(w.c, id, Switched(w.c.generation), true) && Fresh(w) && !w.rt.latched && !w.c.owned
    ensures IsRun(ws', es') && ws <= ws' && |es'| == |es| + 7
    ensures var c := Last(ws).c;
            es + [AttemptTimeout(c.generation, SMOOTH), Decide(|c.log| - 1, true, true)] <= es'
    ensures var w, w' := Last(ws), Last(ws');
            && !w'.c.owned && !w'.c.attempt.pending && w'.c.fired == w.c.fired + multiset{Answer(id, false)}
            && IsBack(w'.c, true) && w'.rt.mode == Idle
  {
    var ws1, es1 := LateSwitchIsHeard(ws, es, id);
    ws', es' := ReturnThenIdle(ws1, es1);
  }

  lemma LateSwitchIsHeard(ws: seq<World>, es: seq<Event>, id: nat) returns (ws': seq<World>, es': seq<Event>)
    requires IsRun(ws, es)
    requires var w := Last(ws);
             Attempting(w.c, id, Switched(w.c.generation), true) && Fresh(w) && !w.rt.latched && !w.c.owned
    ensures IsRun(ws', es') && ws <= ws'
    ensures var c := Last(ws).c;
            es' == es + [AttemptTimeout(c.generation, SMOOTH)]
                   + [Decide(|c.log| - 1, true, true), AnswerSwitch(|c.log| - 1, SMOOTH)]
    ensures var w, w' := Last(ws), Last(ws');
            && !w'.c.owned && !w'.c.attempt.pending && w'.c.fired == w.c.fired + multiset{Answer(id, false)}
            && Returning(w'.c) && w'.c.rollback.unresolved.None? && Fresh(w') && w'.rt.mode == Ours && !w'.rt.latched
  {
    var w, k := Last(ws), |Last(ws).c.log| - 1;
    assert Inv(w) by {
      Reachable(ws, es, |es|);
    }
    TimeoutAwaitsSwitch(w, id);
    var ws1, es1 := Extend(ws, es, AttemptTimeout(w.c.generation, SMOOTH));
    LateSwitchLeadsToReturn(Last(ws1), k);
    ws', es' := ExtendTwo(ws1, es1, Decide(k, true, true), AnswerSwitch(k, SMOOTH));
  }
}
