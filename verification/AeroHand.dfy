/** The emergency-stop latch of the Aero Hand driver: what its sections under the I/O lock do. */
module AeroLatch {
  import opened Prelude

  const JOINT_COUNT := 7

  /** Commands are numbered in the order in which they enter the queue. */
  datatype Command = Command(id: nat, positions: seq<real>)

  datatype Latch = Latch(estop: bool, pending: Option<Command>, queued: nat)

  const UNLATCHED := Latch(false, None, 0)

  datatype Rejection = WrongLength | NotConnected | Stopped | NotStopped

  function ValidatePositions(values: seq<real>): Result<seq<real>, Rejection> {
    if |values| != JOINT_COUNT then Err(WrongLength) else Ok(values)
  }

  /** Why a command may not pass at this moment; only the safe pose may while the stop is latched, and
      only then. Queueing does not ask for the second half. */
  function QueueRejection(l: Latch, allowDuringStop: bool): Option<Rejection> {
    if l.estop && !allowDuringStop then Some(Stopped) else None
  }

  function WriteRejection(l: Latch, allowDuringStop: bool): Option<Rejection> {
    if allowDuringStop && !l.estop then Some(NotStopped) else QueueRejection(l, allowDuringStop)
  }

  /** A newer command takes the place of a queued one. */
  function Queue(l: Latch, positions: seq<real>, allowDuringStop: bool): Latch {
    if QueueRejection(l, allowDuringStop).Some? then l
    else Latch(l.estop, Some(Command(l.queued, positions)), l.queued + 1)
  }

  /** Dequeue; while the stop is latched the command is dropped. */
  function Dequeued(l: Latch): Option<Command> {
    if l.estop then None else l.pending
  }

  function AfterDequeue(l: Latch): Latch {
    l.(pending := None)
  }

  function SetStop(l: Latch, active: bool): Latch {
    Latch(active, if active then None else l.pending, l.queued)
  }
}

/**
 All interleavings of the I/O thread with any number of callers, at the granularity of lock operations.

 Thread 0 is the I/O thread. A thread that was never seen is resting.
 */
module AeroHandRuns {
  import opened Prelude
  import opened AeroLatch

  datatype Job =
    | TakeCommand
    | QueuedWrite(command: Command)
    | ReadState
    | Bookkeeping
    | QueuePositions(positions: seq<real>, allow: bool)
    | DirectWrite(positions: seq<real>, allow: bool)
    | Stop(active: bool)

  predicate NeedsPort(j: Job) {
    j.QueuedWrite? || j.ReadState? || j.DirectWrite? || j.Stop?
  }

  predicate NeedsIo(j: Job) {
    !j.ReadState?
  }

  /** Anything but the safe pose, which is written directly and names itself as such. */
  predicate NormalWrite(j: Job) {
    j.QueuedWrite? || (j.DirectWrite? && !j.allow)
  }

  /** Where a thread is. Cleared: the latch let the write pass, and it has not started yet. */
  datatype Pc =
    | Resting
    | WantsPort(job: Job)
    | InPort(job: Job)
    | WantsIo(job: Job)
    | InIo(job: Job)
    | Cleared(job: Job)
    | Writing(job: Job)
    | Leaving(job: Job)

  datatype System = System(pcs: map<nat, Pc>, port: Option<nat>, io: Option<nat>, latch: Latch) {
    function At(t: nat): Pc {
      if t in pcs then pcs[t] else Resting
    }

    function Goes(t: nat, pc: Pc): System {
      this.(pcs := pcs[t := pc])
    }
  }

  const STARTED := System(map[], None, None, UNLATCHED)

  predicate HoldsPort(pc: Pc) {
    pc.InPort? || pc.Cleared? || pc.Writing? || pc.Leaving? || ((pc.WantsIo? || pc.InIo?) && NeedsPort(pc.job))
  }

  predicate HoldsIo(pc: Pc) {
    pc.InIo?
  }

  datatype Event =
    | Begin(t: nat, job: Job)
    | TakePort(t: nat)
    | Proceed(t: nat)
    | TakeIo(t: nat)
    | LeaveIo(t: nat)
    | StartWrite(t: nat)
    | EndWrite(t: nat)
    | LeavePort(t: nat)

  /** Only the I/O thread dequeues and reads; a queued write comes from a dequeue. */
  predicate MayBegin(t: nat, j: Job) {
    if t == 0 then j.TakeCommand? || j.ReadState? || j.Bookkeeping?
    else j.QueuePositions? || j.DirectWrite? || j.Stop? || j.Bookkeeping?
  }

  predicate Enabled(s: System, ev: Event) {
    match ev
    case Begin(t, j) => s.At(t) == Resting && MayBegin(t, j)
    case TakePort(t) => s.At(t).WantsPort? && s.port.None?
    case Proceed(t) => s.At(t).InPort?
    case TakeIo(t) => s.At(t).WantsIo? && s.io.None?
    case LeaveIo(t) => s.At(t).InIo?
    case StartWrite(t) => s.At(t).Cleared?
    case EndWrite(t) => s.At(t).Writing?
    case LeavePort(t) => s.At(t).Leaving?
  }

  /** What a thread finds under the I/O lock decides where it goes from there. */
  function AfterIo(l: Latch, j: Job): Pc {
    match j
    case TakeCommand => if Dequeued(l).Some? then WantsPort(QueuedWrite(Dequeued(l).value)) else Resting
    case QueuedWrite(_) => if l.estop then Leaving(j) else Cleared(j)
    case DirectWrite(_, allow) => if WriteRejection(l, allow).Some? then Leaving(j) else Cleared(j)
    case Stop(_) => Leaving(j)
    case _ => Resting
  }

  function LatchAfter(l: Latch, j: Job): Latch {
    match j
    case TakeCommand => AfterDequeue(l)
    case QueuePositions(positions, allow) => Queue(l, positions, allow)
    case Stop(active) => SetStop(l, active)
    case _ => l
  }

  function Next(s: System, ev: Event): System
    requires Enabled(s, ev)
  {
    match ev
    case Begin(t, j) => s.Goes(t, if NeedsPort(j) then WantsPort(j) else WantsIo(j))
    case TakePort(t) => s.Goes(t, InPort(s.At(t).job)).(port := Some(t))
    case Proceed(t) => s.Goes(t, if NeedsIo(s.At(t).job) then WantsIo(s.At(t).job) else Leaving(s.At(t).job))
    case TakeIo(t) => s.Goes(t, InIo(s.At(t).job)).(io := Some(t))
    case LeaveIo(t) =>
      s.Goes(t, AfterIo(s.latch, s.At(t).job)).(io := None, latch := LatchAfter(s.latch, s.At(t).job))
    case StartWrite(t) => s.Goes(t, Writing(s.At(t).job))
    case EndWrite(t) => s.Goes(t, Leaving(s.At(t).job))
    case LeavePort(t) => s.Goes(t, Resting).(port := None)
  }

  // ---- The invariant ------------------------------------------------------------------------------------

  /** The locks are held by exactly the threads that are where they say they are. */
  ghost predicate LocksOk(s: System) {
    && (forall t: nat :: HoldsPort(s.At(t)) <==> s.port == Some(t))
    && (forall t: nat :: HoldsIo(s.At(t)) <==> s.io == Some(t))
  }

  /** No normal write is under way, or about to be, while the stop is latched. */
  ghost predicate NoNormalWrite(s: System) {
    forall t: nat :: (s.At(t).Cleared? || s.At(t).Writing?) && NormalWrite(s.At(t).job) ==> !s.latch.estop
  }

  /** Jobs do what their locks allow. */
  ghost predicate JobsOk(s: System) {
    forall t: nat :: !s.At(t).Resting? ==>
      && (s.At(t).job.TakeCommand? || s.At(t).job.QueuedWrite? ==> t == 0)
      && (s.At(t).WantsIo? || s.At(t).InIo? ==> NeedsIo(s.At(t).job))
      && (s.At(t).WantsPort? || s.At(t).InPort? || s.At(t).Leaving? ==> NeedsPort(s.At(t).job))
      && (s.At(t).Cleared? || s.At(t).Writing? ==> s.At(t).job.QueuedWrite? || s.At(t).job.DirectWrite?)
  }

  /** A dequeued command is older than every queued one. */
  ghost predicate CommandsOk(s: System) {
    && (s.latch.pending.Some? ==> s.latch.pending.value.id < s.latch.queued)
    && (forall t: nat :: !s.At(t).Resting? && s.At(t).job.QueuedWrite? ==>
          && s.At(t).job.command.id < s.latch.queued
          && (s.latch.pending.Some? ==> s.At(t).job.command.id < s.latch.pending.value.id))
  }

  ghost predicate Inv(s: System) {
    LocksOk(s) && NoNormalWrite(s) && JobsOk(s) && CommandsOk(s)
  }

  lemma NextKeepsLocks(s: System, ev: Event)
    requires LocksOk(s) && JobsOk(s) && Enabled(s, ev)
    ensures LocksOk(Next(s, ev)) && JobsOk(Next(s, ev))
  {
    forall t: nat | t != ev.t
      ensures Next(s, ev).At(t) == s.At(t)
    {
    }
    assert s.At(ev.t) == s.At(ev.t);
  }

  lemma NextKeepsLatch(s: System, ev: Event)
    requires Inv(s) && Enabled(s, ev)
    ensures NoNormalWrite(Next(s, ev)) && CommandsOk(Next(s, ev))
  {
    var s' := Next(s, ev);
    forall t: nat
      ensures (s'.At(t).Cleared? || s'.At(t).Writing?) && NormalWrite(s'.At(t).job) ==> !s'.latch.estop
    {
      assert HoldsPort(s.At(t)) <==> s.port == Some(t);
      assert HoldsPort(s.At(ev.t)) <==> s.port == Some(ev.t);
    }
    forall t: nat | !s'.At(t).Resting? && s'.At(t).job.QueuedWrite?
      ensures s'.At(t).job.command.id < s'.latch.queued
      ensures s'.latch.pending.Some? ==> s'.At(t).job.command.id < s'.latch.pending.value.id
    {
      assert t != ev.t ==> s'.At(t) == s.At(t);
      assert !s.At(ev.t).Resting? && s.At(ev.t).job.QueuedWrite? ==> s.At(ev.t).job.command.id < s.latch.queued;
    }
  }

  lemma NextKeeps(s: System, ev: Event)
    requires Inv(s) && Enabled(s, ev)
    ensures Inv(Next(s, ev))
  {
    NextKeepsLocks(s, ev);
    NextKeepsLatch(s, ev);
  }

  // ---- Every run ----------------------------------------------------------------------------------------

  ghost predicate IsRun(ss: seq<System>, evs: seq<Event>) {
    && |ss| == |evs| + 1 && ss[0] == STARTED
    && (forall i :: 0 <= i < |evs| ==> Enabled(ss[i], evs[i]) && ss[i + 1] == Next(ss[i], evs[i]))
  }

  lemma {:induction false} Reachable(ss: seq<System>, evs: seq<Event>, n: nat)
    requires IsRun(ss, evs) && n < |ss|
    ensures Inv(ss[n])
  {
    if n > 0 {
      Reachable(ss, evs, n - 1);
      NextKeeps(ss[n - 1], evs[n - 1]);
    }
  }

  /** Does this step unlatch the stop? */
  predicate Unlatches(s: System, ev: Event) {
    ev.LeaveIo? && s.At(ev.t) == InIo(Stop(false))
  }

  lemma {:induction false} LatchHolds(ss: seq<System>, evs: seq<Event>, i: nat, n: nat)
    requires IsRun(ss, evs) && i <= n < |ss| && ss[i].latch.estop
    requires forall k :: i <= k < n ==> !Unlatches(ss[k], evs[k])
    ensures ss[n].latch.estop
  {
    if i < n {
      LatchHolds(ss, evs, i, n - 1);
      assert ss[n] == Next(ss[n - 1], evs[n - 1]);
    }
  }

  /** A thread that is about to return from `set_emergency_stop(True)` still sees its own latch. */
  lemma {:induction false} StopReturnsLatched(ss: seq<System>, evs: seq<Event>, n: nat, t: nat)
    requires IsRun(ss, evs) && n < |ss| && ss[n].At(t) == Leaving(Stop(true))
    ensures ss[n].latch.estop
  {
    Reachable(ss, evs, n - 1);
    assert ss[n] == Next(ss[n - 1], evs[n - 1]);
    if ss[n - 1].At(t) == Leaving(Stop(true)) {
      StopReturnsLatched(ss, evs, n - 1, t);
      assert HoldsPort(ss[n - 1].At(t)) && HoldsPort(ss[n - 1].At(t)) <==> ss[n - 1].port == Some(t);
      assert HoldsPort(ss[n - 1].At(evs[n - 1].t)) <==> ss[n - 1].port == Some(evs[n - 1].t);
    }
  }

  /** The barrier: from the return of `set_emergency_stop(True)` until the latch is released again, no
      normal write starts, and none is still in progress. */
  lemma EmergencyStopBarrier(ss: seq<System>, evs: seq<Event>, i: nat, n: nat, t: nat, writer: nat)
    requires IsRun(ss, evs) && i < n < |ss|
    requires evs[i] == LeavePort(t) && ss[i].At(t) == Leaving(Stop(true))
    requires forall k :: i <= k < n ==> !Unlatches(ss[k], evs[k])
    ensures !((ss[n].At(writer).Cleared? || ss[n].At(writer).Writing?) && NormalWrite(ss[n].At(writer).job))
    ensures n < |evs| && evs[n] == StartWrite(writer) ==> !NormalWrite(ss[n].At(writer).job)
  {
    StopReturnsLatched(ss, evs, i, t);
    LatchHolds(ss, evs, i, n);
    Reachable(ss, evs, n);
  }

  /** At any time at most one thread uses the serial port. */
  lemma PortIsExclusive(ss: seq<System>, evs: seq<Event>, n: nat, t: nat, u: nat)
    requires IsRun(ss, evs) && n < |ss| && HoldsPort(ss[n].At(t)) && HoldsPort(ss[n].At(u))
    ensures t == u
  {
    Reachable(ss, evs, n);
    assert HoldsPort(ss[n].At(t)) <==> ss[n].port == Some(t);
    assert HoldsPort(ss[n].At(u)) <==> ss[n].port == Some(u);
  }

  /** Lock order: whoever waits for the port holds no lock, so no thread waits in a circle, and as long
      as some thread is not at rest some thread that is not at rest can move. */
  lemma NoDeadlock(ss: seq<System>, evs: seq<Event>, n: nat, t: nat) returns (ev: Event)
    requires IsRun(ss, evs) && n < |ss| && !ss[n].At(t).Resting?
    ensures ss[n].At(t).WantsPort? ==> ss[n].port != Some(t) && ss[n].io != Some(t)
    ensures Enabled(ss[n], ev) && !ev.Begin? && !ss[n].At(ev.t).Resting?
  {
    Reachable(ss, evs, n);
    var s := ss[n];
    assert HoldsPort(s.At(t)) <==> s.port == Some(t);
    assert HoldsIo(s.At(t)) <==> s.io == Some(t);
    if s.io.Some? {
      var u := s.io.value;
      assert HoldsIo(s.At(u)) <==> s.io == Some(u);
      ev := LeaveIo(u);
    } else {
      var u := if s.port.Some? then s.port.value else t;
      assert HoldsPort(s.At(u)) <==> s.port == Some(u);
      assert HoldsIo(s.At(u)) <==> s.io == Some(u);
      var pc := s.At(u);
      ev := if pc.WantsPort? then TakePort(u)
            else if pc.InPort? then Proceed(u)
            else if pc.WantsIo? then TakeIo(u)
            else if pc.Cleared? then StartWrite(u)
            else if pc.Writing? then EndWrite(u)
            else LeavePort(u);
    }
  }

  // ---- Commands across a stop --------------------------------------------------------------------------------

  /** On its way from the queue to the port. */
  predicate Carries(pc: Pc, id: nat) {
    !pc.Resting? && !pc.Leaving? && pc.job.QueuedWrite? && pc.job.command.id == id
  }

  /** This command is neither queued nor on its way to the port. */
  ghost predicate Gone(s: System, id: nat) {
    && id < s.latch.queued
    && (s.latch.pending.Some? ==> s.latch.pending.value.id != id)
    && (forall t: nat :: !Carries(s.At(t), id))
  }

  lemma {:induction false} GoneStaysGone(ss: seq<System>, evs: seq<Event>, i: nat, n: nat, id: nat)
    requires IsRun(ss, evs) && i <= n < |ss| && Gone(ss[i], id)
    ensures Gone(ss[n], id)
  {
    if i < n {
      GoneStaysGone(ss, evs, i, n - 1, id);
      GoneStep(ss[n - 1], evs[n - 1], id);
    }
  }

  lemma GoneStep(s: System, ev: Event, id: nat)
    requires Gone(s, id) && Enabled(s, ev)
    ensures Gone(Next(s, ev), id)
  {
    var s' := Next(s, ev);
    forall t: nat
      ensures !Carries(s'.At(t), id)
    {
      assert t != ev.t ==> s'.At(t) == s.At(t);
      assert !Carries(s.At(ev.t), id);
    }
  }

  /** A command that is still queued when the stop is latched is never written. */
  lemma StopDropsQueuedCommand(ss: seq<System>, evs: seq<Event>, i: nat, n: nat, t: nat, writer: nat)
    requires IsRun(ss, evs) && i < n < |evs|
    requires evs[i] == LeaveIo(t) && ss[i].At(t) == InIo(Stop(true)) && ss[i].latch.pending.Some?
    requires evs[n] == StartWrite(writer) && ss[n].At(writer).job.QueuedWrite?
    ensures ss[n].At(writer).job.command.id != ss[i].latch.pending.value.id
  {
    Reachable(ss, evs, i);
    var id := ss[i].latch.pending.value.id;
    var s, s' := ss[i], ss[i + 1];
    assert s' == Next(s, evs[i]);
    forall u: nat
      ensures !Carries(s'.At(u), id)
    {
      assert u != t ==> s'.At(u) == s.At(u);
    }
    GoneStaysGone(ss, evs, i + 1, n, id);
    assert !Carries(ss[n].At(writer), id);
  }

  // ---- What may pass -------------------------------------------------------------------------------------------

  /** A direct write passes its check exactly if it is the safe pose and the stop is latched, or if it is any other
      write and the stop is not. A write that does not pass never starts. */
  lemma DirectWritePassesIff(ss: seq<System>, evs: seq<Event>, n: nat, t: nat, positions: seq<real>, allow: bool)
    requires IsRun(ss, evs) && n < |evs| && evs[n] == LeaveIo(t) && ss[n].At(t) == InIo(DirectWrite(positions, allow))
    ensures ss[n + 1].latch == ss[n].latch
    ensures ss[n + 1].At(t) == if allow <==> ss[n].latch.estop then Cleared(DirectWrite(positions, allow))
                               else Leaving(DirectWrite(positions, allow))
  {
    assert ss[n + 1] == Next(ss[n], evs[n]);
  }

  predicate WritesSafePose(pc: Pc) {
    (pc.Cleared? || pc.Writing?) && pc.job.DirectWrite? && pc.job.allow
  }

  /** The safe pose is written only while the stop is latched, from its check until it is done. */
  lemma {:induction false} SafePoseOnlyWhileLatched(ss: seq<System>, evs: seq<Event>, n: nat, t: nat)
    requires IsRun(ss, evs) && n < |ss| && WritesSafePose(ss[n].At(t))
    ensures ss[n].latch.estop
  {
    Reachable(ss, evs, n - 1);
    var s, ev := ss[n - 1], evs[n - 1];
    assert ss[n] == Next(s, ev);
    if WritesSafePose(s.At(t)) {
      SafePoseOnlyWhileLatched(ss, evs, n - 1, t);
      assert HoldsPort(s.At(t)) <==> s.port == Some(t);
      assert HoldsPort(s.At(ev.t)) <==> s.port == Some(ev.t);
    }
  }

  /** Setting the stop latches it and empties the queue; releasing it only unlatches. */
  lemma StopVerdict(ss: seq<System>, evs: seq<Event>, n: nat, t: nat, active: bool)
    requires IsRun(ss, evs) && n < |evs| && evs[n] == LeaveIo(t) && ss[n].At(t) == InIo(Stop(active))
    ensures ss[n + 1].latch.estop == active
    ensures ss[n + 1].latch.pending == if active then None else ss[n].latch.pending
  {
    assert ss[n + 1] == Next(ss[n], evs[n]);
  }

  // ---- The newest command wins ---------------------------------------------------------------------------------

  /** This step is a caller's queueing of these positions. */
  predicate Queues(s: System, ev: Event, positions: seq<real>, allow: bool) {
    ev.LeaveIo? && s.At(ev.t) == InIo(QueuePositions(positions, allow))
  }

  predicate Takes(s: System, ev: Event) {
    ev.LeaveIo? && s.At(ev.t) == InIo(TakeCommand)
  }

  predicate Latches(s: System, ev: Event) {
    ev.LeaveIo? && s.At(ev.t) == InIo(Stop(true))
  }

  /** Queueing is accepted exactly if the stop is not latched or the caller asks for the safe pose; a refused call
      changes nothing. */
  lemma QueueAcceptedIff(ss: seq<System>, evs: seq<Event>, n: nat, positions: seq<real>, allow: bool)
    requires IsRun(ss, evs) && n < |evs| && Queues(ss[n], evs[n], positions, allow)
    ensures if ss[n].latch.estop && !allow then ss[n + 1].latch == ss[n].latch
            else ss[n + 1].latch == Latch(ss[n].latch.estop, Some(Command(ss[n].latch.queued, positions)),
                                          ss[n].latch.queued + 1)
  {
    assert ss[n + 1] == Next(ss[n], evs[n]);
  }

  /** Nothing else was queued, nothing taken and no stop latched from step `i` up to `n`. */
  ghost predicate QueueUntouched(ss: seq<System>, evs: seq<Event>, i: nat, n: nat)
    requires i <= n <= |evs| < |ss|
  {
    forall k :: i <= k < n ==>
      && !Takes(ss[k], evs[k]) && !Latches(ss[k], evs[k])
      && !(evs[k].LeaveIo? && ss[k].At(evs[k].t).InIo? && ss[k].At(evs[k].t).job.QueuePositions?)
  }

  lemma {:induction false} UntouchedQueueStays(ss: seq<System>, evs: seq<Event>, i: nat, n: nat)
    requires IsRun(ss, evs) && i <= n <= |evs| && QueueUntouched(ss, evs, i, n)
    ensures ss[n].latch.pending == ss[i].latch.pending
  {
    if i < n {
      UntouchedQueueStays(ss, evs, i, n - 1);
      assert ss[n] == Next(ss[n - 1], evs[n - 1]);
    }
  }

  /** The command that the I/O thread takes is the one queued last; if the stop is latched by then, it takes none. */
  lemma NewestIsTaken(ss: seq<System>, evs: seq<Event>, i: nat, n: nat, positions: seq<real>, allow: bool)
    requires IsRun(ss, evs) && i < n < |evs| && Queues(ss[i], evs[i], positions, allow)
    requires !ss[i].latch.estop || allow
    requires QueueUntouched(ss, evs, i + 1, n) && Takes(ss[n], evs[n])
    ensures ss[n + 1].latch.pending.None?
    ensures ss[n + 1].At(evs[n].t) == if ss[n].latch.estop then Resting
                                      else WantsPort(QueuedWrite(Command(ss[i].latch.queued, positions)))
  {
    QueueAcceptedIff(ss, evs, i, positions, allow);
    UntouchedQueueStays(ss, evs, i + 1, n);
    assert ss[n + 1] == Next(ss[n], evs[n]);
  }

  /** A queued command that a newer one replaces is never written. */
  lemma ReplacedCommandIsNeverWritten(ss: seq<System>, evs: seq<Event>, i: nat, n: nat, writer: nat,
                                      positions: seq<real>, allow: bool)
    requires IsRun(ss, evs) && i < n < |evs| && Queues(ss[i], evs[i], positions, allow)
    requires (!ss[i].latch.estop || allow) && ss[i].latch.pending.Some?
    requires evs[n] == StartWrite(writer) && ss[n].At(writer).job.QueuedWrite?
    ensures ss[n].At(writer).job.command.id != ss[i].latch.pending.value.id
  {
    Reachable(ss, evs, i);
    QueueAcceptedIff(ss, evs, i, positions, allow);
    var id := ss[i].latch.pending.value.id;
    var s, s' := ss[i], ss[i + 1];
    assert s' == Next(s, evs[i]);
    forall u: nat
      ensures !Carries(s'.At(u), id)
    {
      assert u != evs[i].t ==> s'.At(u) == s.At(u);
    }
    GoneStaysGone(ss, evs, i + 1, n, id);
    assert !Carries(ss[n].At(writer), id);
  }

  // ---- A command that was dequeued before the stop ------------------------------------------------------------

  /** The last state of a run. */
  function Last(ss: seq<System>): System
    requires |ss| > 0
  {
    ss[|ss| - 1]
  }

  lemma Extend(ss: seq<System>, evs: seq<Event>, ev: Event) returns (ss': seq<System>, evs': seq<Event>)
    requires IsRun(ss, evs) && Enabled(Last(ss), ev)
    ensures IsRun(ss', evs') && ss <= ss' && evs <= evs' && |evs'| == |evs| + 1
    ensures Last(ss') == Next(Last(ss), ev) && evs'[|evs|] == ev
  {
    ss', evs' := ss + [Next(Last(ss), ev)], evs + [ev];
    forall i | 0 <= i < |evs'|
      ensures Enabled(ss'[i], evs'[i]) && ss'[i + 1] == Next(ss'[i], evs'[i])
    {
      if i < |evs| {
        assert ss'[i] == ss[i] && ss'[i + 1] == ss[i + 1] && evs'[i] == evs[i];
      }
    }
  }

  /** A command is queued by caller 1 and taken by the I/O thread, which then waits for the port. */
  lemma CommandDequeued(positions: seq<real>) returns (ss: seq<System>, evs: seq<Event>)
    ensures IsRun(ss, evs) && |evs| == 6
    ensures Last(ss).At(0) == WantsPort(QueuedWrite(Command(0, positions))) && Last(ss).At(2) == Resting
    ensures Last(ss).port.None? && Last(ss).io.None? && !Last(ss).latch.estop
  {
    ss, evs := [STARTED], [];
    ss, evs := Extend(ss, evs, Begin(1, QueuePositions(positions, false)));
    ss, evs := Extend(ss, evs, TakeIo(1));
    ss, evs := Extend(ss, evs, LeaveIo(1));
    ss, evs := Extend(ss, evs, Begin(0, TakeCommand));
    ss, evs := Extend(ss, evs, TakeIo(0));
    ss, evs := Extend(ss, evs, LeaveIo(0));
  }

  /** Caller 2 sets or releases the stop while the I/O thread still waits. */
  lemma StopCalled(ss: seq<System>, evs: seq<Event>, active: bool) returns (ss': seq<System>, evs': seq<Event>)
    requires IsRun(ss, evs) && Last(ss).At(0).WantsPort? && Last(ss).At(2) == Resting
    requires Last(ss).port.None? && Last(ss).io.None?
    ensures IsRun(ss', evs') && ss <= ss' && evs <= evs' && |evs'| == |evs| + 6
    ensures evs'[|evs| + 5] == LeavePort(2) && ss'[|evs| + 5].At(2) == Leaving(Stop(active))
    ensures Last(ss').At(0) == Last(ss).At(0) && Last(ss').At(2) == Resting
    ensures Last(ss').port.None? && Last(ss').io.None? && Last(ss').latch.estop == active
  {
    ss', evs' := Extend(ss, evs, Begin(2, Stop(active)));
    ss', evs' := Extend(ss', evs', TakePort(2));
    ss', evs' := Extend(ss', evs', Proceed(2));
    ss', evs' := Extend(ss', evs', TakeIo(2));
    ss', evs' := Extend(ss', evs', LeaveIo(2));
    ss', evs' := Extend(ss', evs', LeavePort(2));
  }

  /** A dequeued command is not dropped by a stop: it waits for the port through a full cycle of stop
      and release, finds the latch off, and is written. So the barrier is only claimed while latched. */
  lemma DequeuedCommandSurvivesCycle(positions: seq<real>) returns (ss: seq<System>, evs: seq<Event>)
    ensures IsRun(ss, evs) && |evs| == 23
    ensures ss[6].At(0) == WantsPort(QueuedWrite(Command(0, positions)))
    ensures evs[11] == LeavePort(2) && ss[11].At(2) == Leaving(Stop(true))
    ensures evs[17] == LeavePort(2) && ss[17].At(2) == Leaving(Stop(false))
    ensures evs[22] == StartWrite(0) && ss[22].At(0) == Cleared(QueuedWrite(Command(0, positions)))
  {
    ss, evs := CommandDequeued(positions);
    ss, evs := StopCalled(ss, evs, true);
    ss, evs := StopCalled(ss, evs, false);
    ss, evs := Extend(ss, evs, TakePort(0));
    ss, evs := Extend(ss, evs, Proceed(0));
    ss, evs := Extend(ss, evs, TakeIo(0));
    ss, evs := Extend(ss, evs, LeaveIo(0));
    ss, evs := Extend(ss, evs, StartWrite(0));
  }

  /** A dequeued command passes its last check exactly when the latch is off at that moment. */
  lemma DequeuedCommandPassesIff(ss: seq<System>, evs: seq<Event>, n: nat, command: Command)
    requires IsRun(ss, evs) && n < |evs| && evs[n] == LeaveIo(0) && ss[n].At(0) == InIo(QueuedWrite(command))
    ensures ss[n + 1].At(0) == Cleared(QueuedWrite(command)) <==> !ss[n].latch.estop
    ensures ss[n].latch.estop ==> Gone(ss[n + 1], command.id)
  {
    Reachable(ss, evs, n);
    var s, s' := ss[n], ss[n + 1];
    assert s' == Next(s, evs[n]);
    forall t: nat
      ensures s.latch.estop ==> !Carries(s'.At(t), command.id)
    {
      assert t != 0 ==> s'.At(t) == s.At(t);
    }
    assert !s.At(0).Resting? && s.At(0).job.command.id == command.id;
  }
}

/** The driver as an object; each method is what one section under the I/O lock does to its fields. */
module AeroHandDriverNode {
  import opened Prelude
  import opened AeroLatch

  class AeroHandDriver {
    const mock: bool
    var connected: bool
    var pendingCommand: Option<Command>
    var estopActive: bool
    var queuedCount: nat
    var mockPositions: seq<real>
    var mockCommandCount: nat
    // What reached the SDK, in order.
    var written: seq<seq<real>>

    ghost function View(): Latch
      reads this
    {
      Latch(estopActive, pendingCommand, queuedCount)
    }

    constructor (mock: bool)
      ensures View() == UNLATCHED && !connected && this.mock == mock && written == []
      ensures mockPositions == seq(JOINT_COUNT, _ => 0.0) && mockCommandCount == 0
    {
      this.mock := mock;
      connected, pendingCommand, estopActive, queuedCount := false, None, false, 0;
      mockPositions, mockCommandCount, written := seq(JOINT_COUNT, _ => 0.0), 0, [];
    }

    /** Connecting starts with an empty queue and the stop released. */
    method Connect()
      modifies this`connected, this`pendingCommand, this`estopActive
      ensures connected
      ensures View() == if old(connected) then old(View()) else Latch(false, None, old(queuedCount))
    {
      if connected {
        return;
      }
      pendingCommand, estopActive, connected := None, false, true;
    }

    /** A rejected command leaves everything as it was. Otherwise the real hand gets it queued, or written
        at once when blocking; the mock takes it over under the rules of a direct write. */
    method SetJointPositions(values: seq<real>, blocking: bool, allowDuringStop: bool) returns (rejected: Option<Rejection>)
      modifies this`pendingCommand, this`queuedCount, this`mockPositions, this`mockCommandCount, this`written
      ensures var check := if mock || blocking then WriteRejection(old(View()), allowDuringStop)
                           else QueueRejection(old(View()), allowDuringStop);
              rejected == if |values| != JOINT_COUNT then Some(WrongLength)
                          else if !connected then Some(NotConnected) else check
      ensures rejected.Some? ==>
                View() == old(View()) && mockPositions == old(mockPositions) && written == old(written)
      ensures rejected.None? && !mock && !blocking ==>
                View() == Queue(old(View()), values, allowDuringStop) && written == old(written)
      ensures rejected.None? && !mock && blocking ==> View() == old(View()) && written == old(written) + [values]
      ensures rejected.None? && mock ==>
                View() == old(View()) && mockPositions == values && mockCommandCount == old(mockCommandCount) + 1
                && written == old(written)
    {
      var valid := ValidatePositions(values);
      if valid.Err? {
        return Some(valid.error);
      }
      if !connected {
        return Some(NotConnected);
      }
      if mock || blocking {
        if allowDuringStop && !estopActive {
          return Some(NotStopped);
        }
        if estopActive && !allowDuringStop {
          return Some(Stopped);
        }
        if mock {
          mockPositions := values;
          mockCommandCount := mockCommandCount + 1;
        } else {
          written := written + [values];
        }
        return None;
      }
      if estopActive && !allowDuringStop {
        return Some(Stopped);
      }
      pendingCommand := Some(Command(queuedCount, values));
      queuedCount := queuedCount + 1;
      rejected := None;
    }

    method SetEmergencyStop(active: bool)
      modifies this`estopActive, this`pendingCommand
      ensures View() == SetStop(old(View()), active)
    {
      estopActive := active;
      if active {
        pendingCommand := None;
      }
    }

    /** The I/O thread dequeues; it looks at the latch once more before it writes. */
    method TakeCommand() returns (command: Option<Command>)
      modifies this`pendingCommand
      ensures View() == AfterDequeue(old(View())) && command == Dequeued(old(View()))
    {
      command := pendingCommand;
      pendingCommand := None;
      if estopActive {
        command := None;
      }
    }

    method WriteCommand(command: Command) returns (passed: bool)
      modifies this`written
      ensures passed == !estopActive && View() == old(View())
      ensures written == if passed then old(written) + [command.positions] else old(written)
    {
      passed := !estopActive;
      if passed {
        written := written + [command.positions];
      }
    }
  }
}
