/**
 The session lifecycle of the scheduled dispatcher: opening, stopping, revoking, failing and closing.

 Each function is one section under the state lock. A stop, restart or failure is a sequence of such
 sections under the lifecycle lock, with waits in between that may time out.
 */
module Sessions {
  import opened Prelude

  datatype DispatcherState = WaitingReady | Stopped | Opening | Active | Closing | Failed

  datatype Identity = Identity(session: nat, generation: nat)

  /** Generation 0 means that the scheduler has not told us one. */
  datatype Session = Session(id: Option<nat>, generation: nat) {
    predicate Is(who: Identity) {
      id == Some(who.session) && generation == who.generation
    }
  }

  const NO_SESSION := Session(None, 0)

  datatype OpenState = OpenState(pending: Option<nat>, closeAfter: bool)

  datatype CloseState = CloseState(inProgress: bool, success: bool, identity: Option<Identity>)

  datatype OpKind = Stop | Restart | Fail

  /** How far the holder of the lifecycle lock has come. */
  datatype Stage =
    | Begun
    | Frozen
    | AwaitingOpen(session: nat)
    | Ready
    | AwaitingClose
    | Drained(closeOk: bool)

  datatype Op = Free | Held(kind: OpKind, safeOk: bool, stage: Stage)

  /** Some failures only count while their request is still the current one. */
  datatype Failure = Failure(request: Option<nat>, who: Identity)

  datatype Life = Life(
    state: DispatcherState,
    session: Session,
    opening: OpenState,
    closing: CloseState,
    op: Op,
    mailbox: Option<Failure>
  )

  const INITIAL := Life(WaitingReady, NO_SESSION, OpenState(None, false), CloseState(false, false, None), Free, None)

  // ---- Opening -----------------------------------------------------------------------------------------

  predicate MayOpen(l: Life) {
    l.state == WaitingReady || l.state == Stopped
  }

  function Open(l: Life, session: nat): Life {
    if !MayOpen(l) then l
    else l.(state := Opening, session := l.session.(id := Some(session)), opening := OpenState(Some(session), false))
  }

  predicate TracksOpen(l: Life, session: nat) {
    l.opening.pending == Some(session) && l.session.id == Some(session)
  }

  function OpenNotStarted(l: Life, session: nat): Life {
    if !TracksOpen(l, session) then l
    else l.(state := if l.state == Opening then Stopped else l.state,
            session := NO_SESSION,
            opening := l.opening.(closeAfter := false))
  }

  function CompleteOpen(l: Life, session: nat): Life {
    if l.opening.pending == Some(session) then l.(opening := l.opening.(pending := None)) else l
  }

  /** What the callback of an open does after it has looked at the result. */
  datatype Then = ThenNothing | ThenClose(generation: nat) | ThenFail

  datatype OpenReply = Opened(generation: int) | Refused(generation: int) | NotStarted | Unknown

  function OnOpenResult(l: Life, session: nat, reply: OpenReply): (Life, Then)
    requires reply.Opened? || reply.Refused?
  {
    if !TracksOpen(l, session) then (l, ThenNothing)
    else if reply.generation <= 0 then (l, ThenFail)
    else
      var known := l.(session := l.session.(generation := reply.generation));
      if reply.Refused? then (known, ThenFail)
      else if l.opening.closeAfter || l.state != Opening then (known, ThenClose(reply.generation))
      else (known.(state := Active), ThenNothing)
  }

  // ---- Closing -----------------------------------------------------------------------------------------

  /** Is there a close to wait for, and which one has to be sent? */
  datatype CloseCall = NoClose | Joined | Sent(who: Identity)

  function CloseCallOf(l: Life, expected: Option<Identity>): CloseCall {
    if expected.Some? && !l.session.Is(expected.value) then NoClose
    else if l.session.id.None? then NoClose
    else if l.closing.inProgress then Joined
    else Sent(Identity(l.session.id.value, l.session.generation))
  }

  function BeginClose(l: Life, expected: Option<Identity>): Life {
    var call := CloseCallOf(l, expected);
    if !call.Sent? then l
    else l.(state := Closing, closing := CloseState(true, false, Some(call.who)))
  }

  function FinishClose(l: Life, who: Identity, success: bool): Life {
    if l.closing.identity != Some(who) then l
    else
      l.(closing := CloseState(false, success, l.closing.identity),
         opening := l.opening.(closeAfter := false),
         session := if success && l.session.id == Some(who.session)
                       && (who.generation == 0 || l.session.generation == who.generation)
                    then NO_SESSION else l.session)
  }

  // ---- Operations under the lifecycle lock -----------------------------------------------------------------

  function BeginOp(l: Life, kind: OpKind): Life {
    if l.op == Free then l.(op := Held(kind, true, Begun)) else l
  }

  predicate At(l: Life, stage: Stage) {
    l.op.Held? && l.op.stage == stage
  }

  function Advance(l: Life, stage: Stage): Life
    requires l.op.Held?
  {
    l.(op := l.op.(stage := stage))
  }

  /** Safe stop: freeze the output first. With a runtime provider it always counts as done. */
  function SafeStop(l: Life, provider: bool, ok: bool): Life
    requires At(l, Begun)
  {
    var state := if provider || (l.state != Stopped && l.state != Failed) then Closing else l.state;
    l.(state := state, op := Held(l.op.kind, provider || ok, Frozen))
  }

  /** A session whose open is still out cannot be closed yet: ask its callback to do so. */
  function BeginCloseSync(l: Life): Life
    requires At(l, Frozen)
  {
    if l.session.id.Some? && l.opening.pending == l.session.id && l.session.generation == 0
    then Advance(l, AwaitingOpen(l.session.id.value))
         .(state := Closing, opening := l.opening.(closeAfter := true))
    else Advance(l, Ready)
  }

  function OpenAwaited(l: Life, timeout: bool): Life
    requires l.op.Held? && l.op.stage.AwaitingOpen?
  {
    if timeout then Advance(l, Drained(false))
    else if l.opening.pending == Some(l.op.stage.session) then l
    else Advance(l, Ready)
  }

  function CloseForOp(l: Life): Life
    requires At(l, Ready)
  {
    if CloseCallOf(l, None).NoClose? then Advance(l, Drained(true))
    else Advance(BeginClose(l, None), AwaitingClose)
  }

  function CloseAwaited(l: Life, timeout: bool): Life
    requires At(l, AwaitingClose)
  {
    if timeout then Advance(l, Drained(false))
    else if l.closing.inProgress then l
    else Advance(l, Drained(l.closing.success))
  }

  /** The outcome: stopped if both halves succeeded, else failed. A failure always ends up failed. */
  function FinishOp(l: Life, released: bool): Life
    requires l.op.Held? && l.op.stage.Drained?
  {
    var ok := l.op.safeOk && released && l.op.stage.closeOk;
    l.(state := if ok && l.op.kind != Fail then Stopped else Failed, op := Free)
  }

  // ---- Revocation and failure -----------------------------------------------------------------------------

  function Revoke(l: Life): Life {
    l.(opening := l.opening.(closeAfter := true), state := if l.session.id.Some? then Failed else Stopped)
  }

  /** A failure runs at once, unless another operation holds the lock: then it waits in the mailbox. */
  function TryFailure(l: Life, failure: Failure): Life {
    if !l.session.Is(failure.who) || (failure.request.Some? && l.state != Active) then l
    else if l.op != Free then l.(mailbox := Some(failure))
    else
      var frozen := if failure.request.Some? then l.(state := Closing) else l;
      if frozen.state == Failed then frozen else frozen.(op := Held(Fail, true, Begun))
  }

  function DropMail(l: Life): Life {
    l.(mailbox := None)
  }

  function DrainMailbox(l: Life): Life {
    if l.mailbox.None? then l else TryFailure(DropMail(l), l.mailbox.value)
  }
}

/** Every run of the session lifecycle. */
module SessionRuns {
  import opened Prelude
  import opened Sessions

  /** How far the callbacks of one open have come. */
  datatype Chain = Asked | Answered(next: Then) | Completed(next: Then) | Done(next: Then)

  /** What an observer knows: the fate of every open, the generations granted, the sessions that were
      ever seen outside opening and active, and the closes sent. */
  datatype Book = Book(chains: map<nat, Chain>, granted: map<nat, nat>, disturbed: set<nat>, closes: set<Identity>)

  const EMPTY_BOOK := Book(map[], map[], {}, {})

  datatype Event =
    | ReadinessStops
    | OpenBegins(session: nat)
    | OpenAnswered(session: nat, reply: OpenReply)
    | OpenCompletes(session: nat)
    | OpenFollowsUp(session: nat)
    | OpBegins(kind: OpKind)
    | OpSafeStops(provider: bool, ok: bool)
    | OpBeginsCloseSync
    | OpAwaitsOpen(timeout: bool)
    | OpCloses
    | OpAwaitsClose(timeout: bool)
    | OpFinishes(released: bool)
    | CloseFinishes(who: Identity, success: bool)
    | RuntimeRevoked
    | FailureReported(failure: Failure)
    | MailboxDrained
    | MailboxDropped

  /** Opens are admitted only while no stop, restart or failure is under way; everything else is
      limited by where its own callbacks are. */
  predicate Enabled(l: Life, b: Book, ev: Event) {
    match ev
    case ReadinessStops => l.state == WaitingReady
    case OpenBegins(session) => session !in b.chains && l.op == Free
    case OpenAnswered(session, _) => session in b.chains && b.chains[session] == Asked
    case OpenCompletes(session) => session in b.chains && b.chains[session].Answered?
    case OpenFollowsUp(session) => session in b.chains && b.chains[session].Completed?
    case OpBegins(kind) => kind != Fail
    case OpSafeStops(_, _) => At(l, Begun)
    case OpBeginsCloseSync => At(l, Frozen)
    case OpAwaitsOpen(_) => l.op.Held? && l.op.stage.AwaitingOpen?
    case OpCloses => At(l, Ready)
    case OpAwaitsClose(_) => At(l, AwaitingClose)
    case OpFinishes(_) => l.op.Held? && l.op.stage.Drained?
    case CloseFinishes(who, _) => who in b.closes
    case _ => true
  }

  function AnswerOpen(l: Life, session: nat, reply: OpenReply): (Life, Then) {
    match reply
    case NotStarted => (OpenNotStarted(l, session), ThenNothing)
    case Unknown => (l, if TracksOpen(l, session) then ThenFail else ThenNothing)
    case _ => OnOpenResult(l, session, reply)
  }

  /** A follow-up close names the session as it was granted; a follow-up failure the current one. */
  function FollowUp(l: Life, session: nat, next: Then): Life {
    match next
    case ThenNothing => l
    case ThenClose(generation) => BeginClose(l, Some(Identity(session, generation)))
    case ThenFail =>
      if l.session.id == Some(session) then TryFailure(l, Failure(None, Identity(session, l.session.generation))) else l
  }

  function Next(l: Life, b: Book, ev: Event): Life
    requires Enabled(l, b, ev)
  {
    match ev
    case ReadinessStops => l.(state := Stopped)
    case OpenBegins(session) => Open(l, session)
    case OpenAnswered(session, reply) => AnswerOpen(l, session, reply).0
    case OpenCompletes(session) => CompleteOpen(l, session)
    case OpenFollowsUp(session) => FollowUp(l, session, b.chains[session].next)
    case OpBegins(kind) => BeginOp(l, kind)
    case OpSafeStops(provider, ok) => SafeStop(l, provider, ok)
    case OpBeginsCloseSync => BeginCloseSync(l)
    case OpAwaitsOpen(timeout) => OpenAwaited(l, timeout)
    case OpCloses => CloseForOp(l)
    case OpAwaitsClose(timeout) => CloseAwaited(l, timeout)
    case OpFinishes(released) => FinishOp(l, released)
    case CloseFinishes(who, success) => FinishClose(l, who, success)
    case RuntimeRevoked => Revoke(l)
    case FailureReported(failure) => TryFailure(l, failure)
    case MailboxDrained => DrainMailbox(l)
    case MailboxDropped => DropMail(l)
  }

  /** The close that a step sends, if any. */
  function SentBy(l: Life, b: Book, ev: Event): set<Identity>
    requires Enabled(l, b, ev)
  {
    var call :=
      match ev
      case OpCloses => CloseCallOf(l, None)
      case OpenFollowsUp(session) =>
        (match b.chains[session].next
         case ThenClose(generation) => CloseCallOf(l, Some(Identity(session, generation)))
         case _ => NoClose)
      case _ => NoClose;
    if call.Sent? then {call.who} else {}
  }

  function ChainsNext(l: Life, b: Book, ev: Event): map<nat, Chain>
    requires Enabled(l, b, ev)
  {
    match ev
    case OpenBegins(session) => if MayOpen(l) then b.chains[session := Asked] else b.chains
    case OpenAnswered(session, reply) => b.chains[session := Answered(AnswerOpen(l, session, reply).1)]
    case OpenCompletes(session) => b.chains[session := Completed(b.chains[session].next)]
    case OpenFollowsUp(session) => b.chains[session := Done(b.chains[session].next)]
    case _ => b.chains
  }

  /** A session is disturbed by any state but opening and active, and by being marked for closing. */
  function Disturbed(l: Life): set<nat> {
    if l.session.id.Some? && ((l.state != Opening && l.state != Active) || l.opening.closeAfter)
    then {l.session.id.value} else {}
  }

  function Record(l: Life, b: Book, ev: Event): Book
    requires Enabled(l, b, ev)
  {
    var l' := Next(l, b, ev);
    Book(ChainsNext(l, b, ev),
         if ev.OpenAnswered? && l'.session.id == Some(ev.session) && l'.session.generation > 0
         then b.granted[ev.session := l'.session.generation] else b.granted,
         b.disturbed + Disturbed(l'),
         b.closes + SentBy(l, b, ev))
  }

  // ---- The invariant --------------------------------------------------------------------------------------

  /** Active means a session with a generation; waiting and stopped mean none. */
  ghost predicate StateOk(l: Life) {
    && (l.state == Active ==> l.session.id.Some? && l.session.generation > 0)
    && (MayOpen(l) ==> l.session == NO_SESSION)
    && (l.session.id.None? ==> l.session.generation == 0)
  }

  /** An opening or active session has never been disturbed, and nothing is being closed. */
  ghost predicate CalmOk(l: Life, disturbed: set<nat>) {
    && (l.state == Opening || l.state == Active ==>
          l.session.id.Some? && l.session.id.value !in disturbed && !l.opening.closeAfter)
    && Disturbed(l) <= disturbed
  }

  /** The close in progress is that of the current session under its current generation. */
  ghost predicate CloseOk(l: Life, closes: set<Identity>) {
    && (l.closing.inProgress ==> l.closing.identity.Some? && l.session.Is(l.closing.identity.value))
    && (l.closing.identity.Some? ==> l.closing.identity.value in closes)
  }

  ghost predicate OpOk(l: Life, chains: map<nat, Chain>) {
    l.op.Held? ==>
      && (l.op.stage != Begun ==> l.state != Opening && l.state != Active)
      && match l.op.stage
      case AwaitingOpen(session) => l.session.id.Some? ==> l.session.id.value == session
      case Ready => l.session.id.Some? && l.session.generation == 0 ==>
                      l.session.id.value in chains && Past(chains[l.session.id.value])
      case AwaitingClose =>
        && (l.session.id.Some? ==> l.closing.identity.Some? && l.session.Is(l.closing.identity.value))
        && (!l.closing.inProgress && l.closing.success ==> l.session.id.None?)
      case Drained(closeOk) => closeOk ==> l.session.id.None?
      case _ => true
  }

  predicate Past(c: Chain) {
    c.Completed? || c.Done?
  }

  /** An open that is still out is tracked; a granted generation is the session's own. */
  ghost predicate ChainOk(s: nat, l: Life, b: Book)
    requires s in b.chains
  {
    && (b.chains[s] == Asked ==> TracksOpen(l, s) && s !in b.granted && l.session.generation == 0)
    && (b.chains[s].Answered? && l.session.id == Some(s) ==> l.opening.pending == Some(s))
    && (b.chains[s] != Asked && b.chains[s].next.ThenClose? ==> ClosesAs(s, b.chains[s].next.generation, l, b))
    && (b.chains[s].Done? && b.chains[s].next.ThenClose? ==> Identity(s, b.chains[s].next.generation) in b.closes)
  }

  /** This session was granted `generation`, and under it is still held or already being closed. */
  ghost predicate ClosesAs(s: nat, generation: nat, l: Life, b: Book) {
    && generation > 0 && s in b.granted && b.granted[s] == generation && s in b.disturbed
    && (l.session.Is(Identity(s, generation)) || Identity(s, generation) in b.closes)
  }

  ghost predicate CloseSentOk(who: Identity, b: Book) {
    && who.session in b.disturbed && who.session in b.chains
    && (if who.generation > 0 then who.session in b.granted && b.granted[who.session] == who.generation
        else who.session !in b.granted && Past(b.chains[who.session]))
  }

  ghost predicate BookOk(l: Life, b: Book) {
    && (forall s: nat :: s in b.chains ==> ChainOk(s, l, b))
    && (forall who :: who in b.closes ==> CloseSentOk(who, b))
    && (forall s: nat :: s in b.granted ==> s in b.chains && b.chains[s] != Asked && b.granted[s] > 0)
    && (forall s: nat :: s in b.disturbed ==> s in b.chains)
    && (l.session.id.Some? ==> l.session.id.value in b.chains)
    && (l.session.id.Some? && l.session.generation > 0 ==>
          l.session.id.value in b.granted && b.granted[l.session.id.value] == l.session.generation)
    && (l.session.id.Some? && l.session.id.value in b.granted ==>
          l.session.generation == b.granted[l.session.id.value])
  }

  ghost predicate Inv(l: Life, b: Book) {
    StateOk(l) && CalmOk(l, b.disturbed) && CloseOk(l, b.closes) && OpOk(l, b.chains) && BookOk(l, b)
  }
}
