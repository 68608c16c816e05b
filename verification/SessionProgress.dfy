/**
 What the session lifecycle achieves: when a session becomes active, how failures are taken up, and where a
 stop, a restart or a failure ends.
 */
module SessionProgress {
  import opened Prelude
  import opened Sessions
  import opened SessionRuns
  import opened SessionSafety

  // ---- Opening -----------------------------------------------------------------------------------------

  /** What is on record as disturbed was marked at some point, and the other way round. */
  lemma {:induction false} DisturbedIff(ls: seq<Life>, bs: seq<Book>, evs: seq<Event>, n: nat, session: nat)
    requires IsRun(ls, bs, evs) && n < |ls|
    ensures session in bs[n].disturbed <==> exists h: nat :: h <= n && Marked(ls[h], session)
  {
    if n > 0 {
      DisturbedIff(ls, bs, evs, n - 1, session);
      assert bs[n] == Record(ls[n - 1], bs[n - 1], evs[n - 1]);
      if session in bs[n].disturbed && session !in bs[n - 1].disturbed {
        assert Marked(ls[n], session);
      }
    } else {
      assert ls[0] == INITIAL && Disturbed(INITIAL) == {};
    }
  }

  /** An open that succeeds makes its session active, under the generation it was granted and with nothing left
      to do for its callback, exactly if the session was never stopped, revoked, failed or closed meanwhile. */
  lemma OpenActivatesIff(ls: seq<Life>, bs: seq<Book>, evs: seq<Event>, i: nat, session: nat, generation: nat)
    requires IsRun(ls, bs, evs) && i < |evs| && evs[i] == OpenAnswered(session, Opened(generation)) && generation > 0
    ensures ls[i + 1].state == Active <==> forall h: nat :: h <= i ==> !Marked(ls[h], session)
    ensures ls[i + 1].state == Active ==>
              && ls[i + 1] == ls[i].(state := Active, session := Session(Some(session), generation))
              && bs[i + 1].chains[session] == Answered(ThenNothing)
    ensures ls[i + 1].state != Active ==> bs[i + 1].chains[session] == Answered(ThenClose(generation))
  {
    Reachable(ls, bs, evs, i);
    assert ChainOk(session, ls[i], bs[i]);
    assert ls[i + 1] == Next(ls[i], bs[i], evs[i]) && bs[i + 1] == Record(ls[i], bs[i], evs[i]);
    DisturbedIff(ls, bs, evs, i, session);
  }

  /** The callback of an open that activated its session has nothing further to do, whenever it comes to it. */
  lemma ActivatedOpenFollowsUp(ls: seq<Life>, bs: seq<Book>, evs: seq<Event>, i: nat, n: nat, session: nat, generation: nat)
    requires IsRun(ls, bs, evs) && i < n < |evs|
    requires evs[i] == OpenAnswered(session, Opened(generation)) && generation > 0 && ls[i + 1].state == Active
    requires evs[n] == OpenFollowsUp(session)
    ensures ls[n + 1] == ls[n] && bs[n + 1].closes == bs[n].closes
  {
    OpenActivatesIff(ls, bs, evs, i, session, generation);
    DoneStays(ls, bs, evs, i + 1, n, session);
    assert ls[n + 1] == Next(ls[n], bs[n], evs[n]) && bs[n + 1] == Record(ls[n], bs[n], evs[n]);
  }

  /** An open that did not start gives its session up again; any other open that did not succeed, or names no
      generation, will fail its session. */
  lemma FailedOpenVerdict(ls: seq<Life>, bs: seq<Book>, evs: seq<Event>, i: nat, session: nat, reply: OpenReply)
    requires IsRun(ls, bs, evs) && i < |evs| && evs[i] == OpenAnswered(session, reply)
    requires reply.Opened? ==> reply.generation <= 0
    ensures if reply.NotStarted? then
              && ls[i + 1].session == NO_SESSION && bs[i + 1].chains[session] == Answered(ThenNothing)
              && ls[i + 1].state == if ls[i].state == Opening then Stopped else ls[i].state
            else
              && ls[i + 1].session.id == Some(session) && ls[i + 1].state == ls[i].state
              && bs[i + 1].chains[session] == Answered(ThenFail)
              && ls[i + 1].session.generation == if reply.Refused? && reply.generation > 0 then reply.generation else 0
  {
    Reachable(ls, bs, evs, i);
    assert ChainOk(session, ls[i], bs[i]);
    assert ls[i + 1] == Next(ls[i], bs[i], evs[i]) && bs[i + 1] == Record(ls[i], bs[i], evs[i]);
  }

  /** An open begins exactly when the dispatcher waits or has stopped: then it is opening this session alone. */
  lemma OpenBeginsIff(ls: seq<Life>, bs: seq<Book>, evs: seq<Event>, i: nat, session: nat)
    requires IsRun(ls, bs, evs) && i < |evs| && evs[i] == OpenBegins(session)
    ensures if ls[i].state == WaitingReady || ls[i].state == Stopped then
              && ls[i + 1].state == Opening && ls[i + 1].session == Session(Some(session), 0)
              && TracksOpen(ls[i + 1], session) && !ls[i + 1].opening.closeAfter && bs[i + 1].chains[session] == Asked
            else ls[i + 1] == ls[i] && session !in bs[i + 1].chains
  {
    Reachable(ls, bs, evs, i);
    assert ls[i + 1] == Next(ls[i], bs[i], evs[i]) && bs[i + 1] == Record(ls[i], bs[i], evs[i]);
  }

  // ---- Failures --------------------------------------------------------------------------------------------

  /** Does this failure concern the session as it is now? */
  predicate Concerns(failure: Failure, l: Life) {
    && l.session.id == Some(failure.who.session) && l.session.generation == failure.who.generation
    && (failure.request.Some? ==> l.state == Active)
  }

  /** A failure is taken up at once, unless another operation is under way: then it waits for the end of that.
      One that does not concern the current session is void. */
  predicate TakenUp(l: Life, l': Life, failure: Failure) {
    if !Concerns(failure, l) then l' == l
    else if l.op != Free then l' == l.(mailbox := Some(failure))
    else if l.state == DispatcherState.Failed then l' == l
    else l' == l.(op := Held(Fail, true, Begun), state := if failure.request.Some? then Closing else l.state)
  }

  lemma FailureVerdict(ls: seq<Life>, bs: seq<Book>, evs: seq<Event>, i: nat)
    requires IsRun(ls, bs, evs) && i < |evs|
    ensures evs[i].FailureReported? ==> TakenUp(ls[i], ls[i + 1], evs[i].failure)
    ensures evs[i].MailboxDrained? && ls[i].mailbox.Some? ==>
              TakenUp(ls[i].(mailbox := None), ls[i + 1], ls[i].mailbox.value)
    ensures evs[i].MailboxDropped? ==> ls[i + 1] == ls[i].(mailbox := None)
  {
    assert ls[i + 1] == Next(ls[i], bs[i], evs[i]);
  }

  /** The callback of an open whose session has to fail takes that failure up, if the session is still the current
      one; one whose session has to be closed sends the close for exactly that session, unless it is already being
      closed or is gone. */
  lemma FollowUpVerdict(ls: seq<Life>, bs: seq<Book>, evs: seq<Event>, i: nat, session: nat)
    requires IsRun(ls, bs, evs) && i < |evs| && evs[i] == OpenFollowsUp(session)
    ensures var l, l', next := ls[i], ls[i + 1], bs[i].chains[session].next;
            match next
            case ThenNothing => l' == l
            case ThenFail =>
              if l.session.id == Some(session)
              then TakenUp(l, l', Failure(None, Identity(session, l.session.generation))) else l' == l
            case ThenClose(generation) =>
              if l.session == Session(Some(session), generation) && !l.closing.inProgress then
                && l' == l.(state := Closing, closing := CloseState(true, false, Some(Identity(session, generation))))
                && bs[i + 1].closes == bs[i].closes + {Identity(session, generation)}
              else l' == l && bs[i + 1].closes == bs[i].closes
  {
    assert ls[i + 1] == Next(ls[i], bs[i], evs[i]) && bs[i + 1] == Record(ls[i], bs[i], evs[i]);
  }

  /** Only one operation runs at a time; freezing its output leaves a dispatcher that had stopped or failed as it was,
      unless a runtime provider has to be stopped too. */
  lemma OperationBegins(ls: seq<Life>, bs: seq<Book>, evs: seq<Event>, i: nat)
    requires IsRun(ls, bs, evs) && i < |evs|
    ensures evs[i].OpBegins? ==>
              ls[i + 1] == if ls[i].op == Free then ls[i].(op := Held(evs[i].kind, true, Begun)) else ls[i]
    ensures evs[i].OpSafeStops? ==>
              && ls[i + 1].op == Held(ls[i].op.kind, evs[i].provider || evs[i].ok, Frozen)
              && ls[i + 1].session == ls[i].session
              && ls[i + 1].state == if !evs[i].provider && (ls[i].state == Stopped || ls[i].state == DispatcherState.Failed)
                                    then ls[i].state else Closing
    ensures evs[i].ReadinessStops? ==> ls[i + 1] == ls[i].(state := Stopped)
  {
    assert ls[i + 1] == Next(ls[i], bs[i], evs[i]);
  }

  // ---- How an operation ends -----------------------------------------------------------------------------------

  /** Did the last safe stop succeed? With a runtime provider it always counts as done. */
  function SafeAfter(ev: Event, before: bool): bool {
    if ev.OpSafeStops? then ev.provider || ev.ok else before
  }

  /** Did the last operation that came to the end of its closing find its session closed? It did if there was none to
      close, or if the close it waited for had succeeded, and not if it ran out of time. */
  function ClosedAfter(l: Life, ev: Event, before: bool): bool {
    match ev
    case OpCloses => l.session.id.None? || before
    case OpAwaitsOpen(timeout) => !timeout && before
    case OpAwaitsClose(timeout) => if timeout then false else if l.closing.inProgress then before else l.closing.success
    case _ => before
  }

  ghost function SafelyStopped(evs: seq<Event>, n: nat): bool
    requires n <= |evs|
  {
    n == 0 || SafeAfter(evs[n - 1], SafelyStopped(evs, n - 1))
  }

  ghost function CloseSucceeded(ls: seq<Life>, evs: seq<Event>, n: nat): bool
    requires n <= |evs| < |ls|
  {
    n == 0 || ClosedAfter(ls[n - 1], evs[n - 1], CloseSucceeded(ls, evs, n - 1))
  }

  /** The operation under way remembers how its halves went. */
  predicate Remembers(op: Op, safe: bool, closed: bool) {
    op.Held? ==>
      && op.safeOk == (op.stage == Begun || safe)
      && (op.stage.Drained? ==> op.stage.closeOk == closed)
  }

  lemma StepRemembers(l: Life, b: Book, ev: Event, safe: bool, closed: bool)
    requires Enabled(l, b, ev) && Remembers(l.op, safe, closed)
    ensures Remembers(Next(l, b, ev).op, SafeAfter(ev, safe), ClosedAfter(l, ev, closed))
  {
  }

  lemma {:induction false} OperationRemembers(ls: seq<Life>, bs: seq<Book>, evs: seq<Event>, n: nat)
    requires IsRun(ls, bs, evs) && n <= |evs|
    ensures Remembers(ls[n].op, SafelyStopped(evs, n), CloseSucceeded(ls, evs, n))
  {
    if n > 0 {
      OperationRemembers(ls, bs, evs, n - 1);
      StepRemembers(ls[n - 1], bs[n - 1], evs[n - 1], SafelyStopped(evs, n - 1), CloseSucceeded(ls, evs, n - 1));
    }
  }

  /** Whatever happens between its steps, an operation ends stopped exactly if it is no failure and its safe stop,
      its close and its release have all succeeded; then there is no session left. Otherwise it ends failed. */
  lemma OperationOutcome(ls: seq<Life>, bs: seq<Book>, evs: seq<Event>, n: nat, released: bool)
    requires IsRun(ls, bs, evs) && n < |evs| && evs[n] == OpFinishes(released)
    ensures var good := ls[n].op.kind != Fail && released && SafelyStopped(evs, n) && CloseSucceeded(ls, evs, n);
            && ls[n + 1] == ls[n].(op := Free, state := if good then Stopped else DispatcherState.Failed)
            && (good ==> ls[n + 1].session == NO_SESSION)
  {
    Reachable(ls, bs, evs, n);
    Reachable(ls, bs, evs, n + 1);
    OperationRemembers(ls, bs, evs, n);
    assert ls[n + 1] == Next(ls[n], bs[n], evs[n]);
  }

  /** The answer to the close in progress decides: with success its session is gone, and either way it is over.
      The answer to any other close is void. */
  lemma CloseVerdict(ls: seq<Life>, bs: seq<Book>, evs: seq<Event>, n: nat, who: Identity, success: bool)
    requires IsRun(ls, bs, evs) && n < |evs| && evs[n] == CloseFinishes(who, success)
    ensures ls[n].closing.inProgress && ls[n].closing.identity == Some(who) ==>
              && !ls[n + 1].closing.inProgress && ls[n + 1].closing.success == success
              && ls[n + 1].session == if success then NO_SESSION else ls[n].session
    ensures ls[n].closing.identity != Some(who) ==> ls[n + 1] == ls[n]
  {
    Reachable(ls, bs, evs, n);
    assert ls[n + 1] == Next(ls[n], bs[n], evs[n]);
  }

  /** A revocation stops a dispatcher that has no session; any other it fails, and marks its session so that even
      a later success of its open will close it. */
  lemma RevocationVerdict(ls: seq<Life>, bs: seq<Book>, evs: seq<Event>, n: nat)
    requires IsRun(ls, bs, evs) && n < |evs| && evs[n] == RuntimeRevoked
    ensures ls[n + 1].state == if ls[n].session.id.None? then Stopped else DispatcherState.Failed
    ensures ls[n].session.id.Some? ==> Marked(ls[n + 1], ls[n].session.id.value) && ls[n + 1].opening.closeAfter
    ensures ls[n + 1].session == ls[n].session && ls[n + 1].op == ls[n].op
  {
    assert ls[n + 1] == Next(ls[n], bs[n], evs[n]);
  }

  // ---- Stops, restarts and failures run through ----------------------------------------------------------------

  /** These steps lead from here to there. */
  ghost predicate IsPath(l: Life, b: Book, evs: seq<Event>, l': Life, b': Book)
    decreases |evs|
  {
    if evs == [] then l' == l && b' == b
    else Enabled(l, b, evs[0]) && IsPath(Next(l, b, evs[0]), Record(l, b, evs[0]), evs[1..], l', b')
  }

  lemma {:induction false} PathAppend(l: Life, b: Book, evs: seq<Event>, m: Life, bm: Book, ev: Event)
    requires IsPath(l, b, evs, m, bm) && Enabled(m, bm, ev)
    ensures IsPath(l, b, evs + [ev], Next(m, bm, ev), Record(m, bm, ev))
    decreases |evs|
  {
    if evs == [] {
      assert [ev][1..] == [];
    } else {
      PathAppend(Next(l, b, evs[0]), Record(l, b, evs[0]), evs[1..], m, bm, ev);
      assert (evs + [ev])[1..] == evs[1..] + [ev];
    }
  }

  /** A path and where it has led to. */
  datatype Walk = Walk(evs: seq<Event>, l: Life, b: Book)

  ghost predicate Walks(l: Life, b: Book, w: Walk) {
    IsPath(l, b, w.evs, w.l, w.b)
  }

  lemma WalkOn(l: Life, b: Book, w: Walk, ev: Event) returns (w': Walk)
    requires Walks(l, b, w) && Enabled(w.l, w.b, ev)
    ensures w' == Walk(w.evs + [ev], Next(w.l, w.b, ev), Record(w.l, w.b, ev)) && Walks(l, b, w')
  {
    PathAppend(l, b, w.evs, w.l, w.b, ev);
    w' := Walk(w.evs + [ev], Next(w.l, w.b, ev), Record(w.l, w.b, ev));
  }

  /** One step further, to a state that is the work of one section, and no close sent. */
  lemma WalkQuietly(l: Life, b: Book, w: Walk, ev: Event, next: Life) returns (w': Walk)
    requires Walks(l, b, w) && Enabled(w.l, w.b, ev) && next == Next(w.l, w.b, ev)
    requires !ev.OpCloses? && !ev.OpenFollowsUp?
    ensures w'.evs == w.evs + [ev] && w'.l == next && w'.b.closes == w.b.closes && Walks(l, b, w')
    ensures ev.OpenCompletes? ==> w'.b.chains == w.b.chains[ev.session := Completed(w.b.chains[ev.session].next)]
    ensures !ev.OpenBegins? && !ev.OpenAnswered? && !ev.OpenCompletes? ==> w'.b.chains == w.b.chains
  {
    w' := WalkOn(l, b, w, ev);
    assert SentBy(w.l, w.b, ev) == {};
    assert w.b.closes + {} == w.b.closes;
  }

  lemma WalkToClose(l: Life, b: Book, w: Walk, who: Identity) returns (w': Walk)
    requires Walks(l, b, w) && At(w.l, Ready) && w.l.session.Is(who)
    ensures w'.evs == w.evs + [OpCloses] && Walks(l, b, w')
    ensures !w.l.closing.inProgress ==>
              && w'.l == Advance(w.l, AwaitingClose).(state := Closing, closing := CloseState(true, false, Some(who)))
              && w'.b.closes == w.b.closes + {who}
    ensures w.l.closing.inProgress ==> w'.l == Advance(w.l, AwaitingClose) && w'.b.closes == w.b.closes
  {
    w' := WalkOn(l, b, w, OpCloses);
    assert w.b.closes + {} == w.b.closes;
  }

  /** The operation has frozen the output of a session that is open, and nobody has sent its close. */
  predicate HoldsOpenSession(l: Life, kind: OpKind, safeOk: bool, who: Identity) {
    && l.op == Held(kind, safeOk, Frozen) && l.session == Session(Some(who.session), who.generation)
    && who.generation > 0 && !l.closing.inProgress
  }

  /** An operation that runs through sends exactly one close, for the session as it was granted. It ends stopped
      only if its safe stop, its close and its release all succeeded, and if it is no failure; else it ends failed.
      The session is gone exactly if its close succeeded, and the next operation may begin. */
  predicate EndsOperation(l: Life, b: Book, l': Life, b': Book, kind: OpKind, safe: bool, closed: bool, released: bool,
                          who: Identity)
  {
    && l'.state == (if safe && closed && released && kind != Fail then Stopped else DispatcherState.Failed)
    && l'.session == (if closed then NO_SESSION else l.session)
    && l'.op == Free && !l'.closing.inProgress && b'.closes == b.closes + {who}
  }

  /** The close has been sent; it is answered, and the operation finishes. */
  lemma CloseRunsThrough(l: Life, b: Book, w: Walk, kind: OpKind, safe: bool, closed: bool, released: bool, who: Identity)
    returns (w': Walk)
    requires Walks(l, b, w) && w.l.op == Held(kind, safe, AwaitingClose) && w.l.session.Is(who) && who.generation > 0
    requires w.l.closing == CloseState(true, false, Some(who)) && who in w.b.closes
    ensures Walks(l, b, w') && EndsOperation(w.l, w.b, w'.l, w'.b, kind, safe, closed, released, who)
    ensures w'.evs == w.evs + [CloseFinishes(who, closed)] + [OpAwaitsClose(false)] + [OpFinishes(released)]
  {
    var w1 := WalkQuietly(l, b, w, CloseFinishes(who, closed), FinishClose(w.l, who, closed));
    var w2 := WalkQuietly(l, b, w1, OpAwaitsClose(false), Advance(w1.l, Drained(closed)));
    w' := WalkQuietly(l, b, w2, OpFinishes(released), FinishOp(w2.l, released));
    assert w.b.closes + {who} == w.b.closes;
  }

  lemma FrozenRunsThrough(l: Life, b: Book, w: Walk, kind: OpKind, safe: bool, closed: bool, released: bool, who: Identity)
    returns (w': Walk)
    requires Walks(l, b, w) && HoldsOpenSession(w.l, kind, safe, who)
    ensures Walks(l, b, w') && EndsOperation(w.l, w.b, w'.l, w'.b, kind, safe, closed, released, who)
    ensures w'.evs == w.evs + [OpBeginsCloseSync] + [OpCloses] + [CloseFinishes(who, closed)]
                      + [OpAwaitsClose(false)] + [OpFinishes(released)]
  {
    var w1 := WalkQuietly(l, b, w, OpBeginsCloseSync, Advance(w.l, Ready));
    var w2 := WalkToClose(l, b, w1, who);
    w' := CloseRunsThrough(l, b, w2, kind, safe, closed, released, who);
  }

  /** A stop or restart of an open session that nothing interferes with. */
  lemma OperationRunsThrough(l: Life, b: Book, kind: OpKind, provider: bool, safe: bool, closed: bool, released: bool,
                             who: Identity)
    returns (w: Walk)
    requires l.op == Free && l.session == Session(Some(who.session), who.generation) && who.generation > 0
    requires !l.closing.inProgress && kind != Fail
    ensures Walks(l, b, w) && EndsOperation(l, b, w.l, w.b, kind, provider || safe, closed, released, who)
    ensures |w.evs| == 7 && w.evs[..2] == [OpBegins(kind), OpSafeStops(provider, safe)]
  {
    var begun := WalkQuietly(l, b, Walk([], l, b), OpBegins(kind), BeginOp(l, kind));
    var frozen := WalkQuietly(l, b, begun, OpSafeStops(provider, safe), SafeStop(begun.l, provider, safe));
    w := FrozenRunsThrough(l, b, frozen, kind, provider || safe, closed, released, who);
  }

  /** A failure of the request of an active session ends failed, with the session closed. */
  lemma FailureRunsThrough(l: Life, b: Book, failure: Failure, safe: bool, closed: bool, released: bool)
    returns (w: Walk)
    requires l.op == Free && l.state == Active && !l.closing.inProgress && failure.who.generation > 0
    requires l.session == Session(Some(failure.who.session), failure.who.generation)
    ensures Walks(l, b, w) && EndsOperation(l, b, w.l, w.b, Fail, safe, closed, released, failure.who)
    ensures w.l.state == DispatcherState.Failed
    ensures |w.evs| == 7 && w.evs[0] == FailureReported(failure)
  {
    var begun := WalkQuietly(l, b, Walk([], l, b), FailureReported(failure), TryFailure(l, failure));
    var frozen := WalkQuietly(l, b, begun, OpSafeStops(false, safe), SafeStop(begun.l, false, safe));
    w := FrozenRunsThrough(l, b, frozen, Fail, safe, closed, released, failure.who);
  }

  /** A stop that finds no session has only its safe stop and its release to succeed. */
  lemma StopWithoutSession(l: Life, b: Book, provider: bool, safe: bool, released: bool) returns (w: Walk)
    requires l.op == Free && l.session == NO_SESSION
    ensures Walks(l, b, w) && w.l.session == NO_SESSION && w.l.op == Free && w.b.closes == b.closes
    ensures w.l.state == if (provider || safe) && released then Stopped else DispatcherState.Failed
    ensures |w.evs| == 5 && w.evs[..2] == [OpBegins(Stop), OpSafeStops(provider, safe)]
  {
    var begun := WalkQuietly(l, b, Walk([], l, b), OpBegins(Stop), BeginOp(l, Stop));
    var frozen := WalkQuietly(l, b, begun, OpSafeStops(provider, safe), SafeStop(begun.l, provider, safe));
    w := NothingToClose(l, b, frozen, provider || safe, released);
  }

  lemma NothingToClose(l: Life, b: Book, frozen: Walk, safe: bool, released: bool) returns (w: Walk)
    requires Walks(l, b, frozen) && frozen.l.op == Held(Stop, safe, Frozen) && frozen.l.session == NO_SESSION
    ensures Walks(l, b, w) && w.l.session == NO_SESSION && w.l.op == Free && w.b.closes == frozen.b.closes
    ensures w.l.state == if safe && released then Stopped else DispatcherState.Failed
    ensures |w.evs| == |frozen.evs| + 3 && frozen.evs <= w.evs
  {
    var ready := WalkQuietly(l, b, frozen, OpBeginsCloseSync, Advance(frozen.l, Ready));
    var drained := WalkOn(l, b, ready, OpCloses);
    assert drained.l == Advance(ready.l, Drained(true)) && drained.b.closes == ready.b.closes;
    w := WalkQuietly(l, b, drained, OpFinishes(released), FinishOp(drained.l, released));
  }

  /** A stop that finds its session still opening waits for the open; the open succeeds, its callback closes the
      session under the generation it was granted, and the stop waits for that same close. */
  lemma StopWhileOpening(l: Life, b: Book, session: nat, generation: nat, closed: bool) returns (w: Walk)
    requires l.op == Free && l.state == Opening && l.session == Session(Some(session), 0) && !l.closing.inProgress
    requires l.opening == OpenState(Some(session), false) && session in b.chains && b.chains[session] == Asked
    requires generation > 0
    ensures Walks(l, b, w) && w.l.op == Free && w.b.closes == b.closes + {Identity(session, generation)}
    ensures w.l.state == (if closed then Stopped else DispatcherState.Failed)
    ensures w.l.session == if closed then NO_SESSION else Session(Some(session), generation)
    ensures |w.evs| == 11 && w.evs[..2] == [OpBegins(Stop), OpSafeStops(false, true)]
  {
    var answered := WaitsForOpen(l, b, session, generation);
    w := ClosedByCallback(l, b, answered, session, generation, closed);
  }

  lemma WaitsForOpen(l: Life, b: Book, session: nat, generation: nat) returns (w: Walk)
    requires l.op == Free && l.state == Opening && l.session == Session(Some(session), 0) && !l.closing.inProgress
    requires l.opening == OpenState(Some(session), false) && session in b.chains && b.chains[session] == Asked
    requires generation > 0
    ensures Walks(l, b, w) && |w.evs| == 4 && w.evs[..2] == [OpBegins(Stop), OpSafeStops(false, true)]
    ensures w.l.op == Held(Stop, true, AwaitingOpen(session)) && w.l.state == Closing && !w.l.closing.inProgress
    ensures w.l.session == Session(Some(session), generation) && w.l.opening == OpenState(Some(session), true)
    ensures session in w.b.chains && w.b.chains[session] == Answered(ThenClose(generation)) && w.b.closes == b.closes
  {
    var begun := WalkQuietly(l, b, Walk([], l, b), OpBegins(Stop), BeginOp(l, Stop));
    var frozen := WalkQuietly(l, b, begun, OpSafeStops(false, true), SafeStop(begun.l, false, true));
    var marked := WalkQuietly(l, b, frozen, OpBeginsCloseSync, BeginCloseSync(frozen.l));
    assert marked.l.op.stage == AwaitingOpen(session) && marked.l.opening == OpenState(Some(session), true);
    w := WalkOn(l, b, marked, OpenAnswered(session, Opened(generation)));
    assert SentBy(marked.l, marked.b, OpenAnswered(session, Opened(generation))) == {};
  }

  /** The callback completes its open, sends the close, and the stop joins it. */
  lemma ClosedByCallback(l: Life, b: Book, answered: Walk, session: nat, generation: nat, closed: bool) returns (w: Walk)
    requires Walks(l, b, answered) && answered.l.op == Held(Stop, true, AwaitingOpen(session))
    requires answered.l.session == Session(Some(session), generation) && answered.l.opening == OpenState(Some(session), true)
    requires session in answered.b.chains && answered.b.chains[session] == Answered(ThenClose(generation))
    requires !answered.l.closing.inProgress && generation > 0
    ensures Walks(l, b, w) && w.l.op == Free && w.b.closes == answered.b.closes + {Identity(session, generation)}
    ensures w.l.state == (if closed then Stopped else DispatcherState.Failed)
    ensures w.l.session == if closed then NO_SESSION else Session(Some(session), generation)
    ensures |w.evs| == |answered.evs| + 7 && answered.evs <= w.evs
  {
    var who := Identity(session, generation);
    var completed := WalkQuietly(l, b, answered, OpenCompletes(session), CompleteOpen(answered.l, session));
    var closing := SendsOwnClose(l, b, completed, who);
    var ready := WalkQuietly(l, b, closing, OpAwaitsOpen(false), Advance(closing.l, Ready));
    var joined := WalkToClose(l, b, ready, who);
    assert joined.l.closing == CloseState(true, false, Some(who)) && joined.l.op == Held(Stop, true, AwaitingClose);
    w := CloseRunsThrough(l, b, joined, Stop, true, closed, true, who);
    assert answered.b.closes + {who} + {who} == answered.b.closes + {who};
  }

  lemma SendsOwnClose(l: Life, b: Book, w: Walk, who: Identity) returns (w': Walk)
    requires Walks(l, b, w) && w.l.session.Is(who) && !w.l.closing.inProgress
    requires who.session in w.b.chains && w.b.chains[who.session] == Completed(ThenClose(who.generation))
    ensures Walks(l, b, w') && w'.evs == w.evs + [OpenFollowsUp(who.session)]
    ensures w'.l == w.l.(state := Closing, closing := CloseState(true, false, Some(who)))
    ensures w'.b.closes == w.b.closes + {who}
  {
    w' := WalkOn(l, b, w, OpenFollowsUp(who.session));
  }
}
