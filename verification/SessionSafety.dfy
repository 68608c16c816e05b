/** The lifecycle invariant is kept by every step; what follows from it for every run. */
module SessionSafety {
  import opened Prelude
  import opened Sessions
  import opened SessionRuns

  /** What one step must show about opens and closes that it does not itself concern. */
  lemma KeepsBook(l: Life, b: Book, l': Life, b': Book)
    requires BookOk(l, b)
    requires b'.chains == b.chains && b'.granted == b.granted && b.disturbed <= b'.disturbed
    requires b'.closes == b.closes && b'.disturbed <= b.disturbed + {l'.session.id.GetOr(0)}
    requires l'.session == l.session && l'.opening.pending == l.opening.pending
    requires l'.session.id.None? ==> b'.disturbed == b.disturbed
    ensures BookOk(l', b')
  {
    forall s: nat | s in b'.chains
      ensures ChainOk(s, l', b')
    {
      assert ChainOk(s, l, b);
    }
    forall who | who in b'.closes
      ensures CloseSentOk(who, b')
    {
      assert CloseSentOk(who, b);
    }
  }

  lemma OpKeeps(l: Life, b: Book, ev: Event)
    requires Inv(l, b) && Enabled(l, b, ev)
    requires ev.OpSafeStops? || ev.OpBeginsCloseSync? || ev.OpAwaitsOpen? || ev.OpAwaitsClose? || ev.OpFinishes?
    ensures Inv(Next(l, b, ev), Record(l, b, ev))
  {
    var l', b' := Next(l, b, ev), Record(l, b, ev);
    assert SentBy(l, b, ev) == {} && b'.closes == b.closes;
    KeepsBook(l, b, l', b');
    if l.session.id.Some? {
      assert ChainOk(l.session.id.value, l, b);
    }
  }

  lemma QuietKeeps(l: Life, b: Book, ev: Event)
    requires Inv(l, b) && Enabled(l, b, ev)
    requires ev.ReadinessStops? || ev.OpBegins? || ev.RuntimeRevoked?
    ensures Inv(Next(l, b, ev), Record(l, b, ev))
  {
    var l', b' := Next(l, b, ev), Record(l, b, ev);
    assert SentBy(l, b, ev) == {} && b'.closes == b.closes;
    KeepsBook(l, b, l', b');
  }

  lemma FailureKeeps(l: Life, b: Book, ev: Event)
    requires Inv(l, b) && Enabled(l, b, ev)
    requires ev.FailureReported? || ev.MailboxDrained? || ev.MailboxDropped?
    ensures Inv(Next(l, b, ev), Record(l, b, ev))
  {
    var l', b' := Next(l, b, ev), Record(l, b, ev);
    assert SentBy(l, b, ev) == {} && b'.closes == b.closes;
    KeepsBook(l, b, l', b');
  }

  lemma OpenBeginsKeeps(l: Life, b: Book, session: nat)
    requires Inv(l, b) && Enabled(l, b, OpenBegins(session))
    ensures Inv(Next(l, b, OpenBegins(session)), Record(l, b, OpenBegins(session)))
  {
    var ev := OpenBegins(session);
    var l', b' := Next(l, b, ev), Record(l, b, ev);
    assert SentBy(l, b, ev) == {} && b'.closes == b.closes;
    if MayOpen(l) {
      assert Disturbed(l') == {};
      assert session !in b.granted && session !in b.disturbed;
      forall s: nat | s in b'.chains
        ensures ChainOk(s, l', b')
      {
        assert s in b.chains ==> ChainOk(s, l, b);
      }
      forall who | who in b'.closes
        ensures CloseSentOk(who, b')
      {
        assert CloseSentOk(who, b);
      }
    } else {
      KeepsBook(l, b, l', b');
    }
  }

  lemma OpenAnsweredKeeps(l: Life, b: Book, session: nat, reply: OpenReply)
    requires Inv(l, b) && Enabled(l, b, OpenAnswered(session, reply))
    ensures Inv(Next(l, b, OpenAnswered(session, reply)), Record(l, b, OpenAnswered(session, reply)))
  {
    var ev := OpenAnswered(session, reply);
    var l', b' := Next(l, b, ev), Record(l, b, ev);
    assert ChainOk(session, l, b);
    assert SentBy(l, b, ev) == {} && b'.closes == b.closes;
    forall who | who in b.closes
      ensures CloseSentOk(who, b') && who.session != session
    {
      assert CloseSentOk(who, b);
    }
    forall s: nat | s in b'.chains
      ensures ChainOk(s, l', b')
    {
      assert ChainOk(s, l, b);
    }
  }

  lemma OpenCompletesKeeps(l: Life, b: Book, session: nat)
    requires Inv(l, b) && Enabled(l, b, OpenCompletes(session))
    ensures Inv(Next(l, b, OpenCompletes(session)), Record(l, b, OpenCompletes(session)))
  {
    var ev := OpenCompletes(session);
    var l', b' := Next(l, b, ev), Record(l, b, ev);
    assert ChainOk(session, l, b);
    assert SentBy(l, b, ev) == {} && b'.closes == b.closes;
    assert l.session.id.Some? ==> ChainOk(l.session.id.value, l, b);
    forall who | who in b'.closes
      ensures CloseSentOk(who, b')
    {
      assert CloseSentOk(who, b);
    }
    forall s: nat | s in b'.chains
      ensures ChainOk(s, l', b')
    {
      assert ChainOk(s, l, b);
    }
  }

  /** Sending a close concerns no chain, and closes the current session under its own generation. */
  lemma ClosesKeepBook(l: Life, b: Book, l': Life, b': Book, sent: set<Identity>)
    requires BookOk(l, b) && l'.session == l.session && l'.opening == l.opening
    requires b'.granted == b.granted && b'.closes == b.closes + sent && b.disturbed <= b'.disturbed
    requires forall s: nat :: s in b'.disturbed ==> s in b.disturbed || l.session.id == Some(s)
    requires b'.chains.Keys == b.chains.Keys
    requires forall s: nat :: s in b.chains ==>
               b'.chains[s] == b.chains[s]
               || (b.chains[s].Completed? && b'.chains[s] == Chain.Done(b.chains[s].next)
                   && (b.chains[s].next.ThenClose? ==> Identity(s, b.chains[s].next.generation) in b'.closes))
    requires forall who :: who in sent ==>
               && l.session.Is(who) && who.session in b'.disturbed
               && (who.generation == 0 ==> Past(b.chains[who.session]))
    ensures BookOk(l', b')
  {
    forall s: nat | s in b'.chains
      ensures ChainOk(s, l', b')
    {
      assert ChainOk(s, l, b);
    }
    forall who | who in b'.closes
      ensures CloseSentOk(who, b')
    {
      assert who in b.closes ==> CloseSentOk(who, b);
    }
  }

  lemma OpClosesKeeps(l: Life, b: Book)
    requires Inv(l, b) && Enabled(l, b, OpCloses)
    ensures Inv(Next(l, b, OpCloses), Record(l, b, OpCloses))
  {
    var l', b' := Next(l, b, OpCloses), Record(l, b, OpCloses);
    var sent := SentBy(l, b, OpCloses);
    forall who | who in sent
      ensures l.session.Is(who) && who.session in b'.disturbed
      ensures who.generation == 0 ==> Past(b.chains[who.session])
    {
    }
    ClosesKeepBook(l, b, l', b', sent);
  }

  lemma FollowUpKeeps(l: Life, b: Book, session: nat)
    requires Inv(l, b) && Enabled(l, b, OpenFollowsUp(session))
    ensures Inv(Next(l, b, OpenFollowsUp(session)), Record(l, b, OpenFollowsUp(session)))
  {
    var ev := OpenFollowsUp(session);
    var l', b' := Next(l, b, ev), Record(l, b, ev);
    var sent := SentBy(l, b, ev);
    var next := b.chains[session].next;
    assert ChainOk(session, l, b);
    if next.ThenClose? {
      assert l.session.Is(Identity(session, next.generation)) && l.closing.inProgress ==>
               Identity(session, next.generation) in b.closes;
      ClosesKeepBook(l, b, l', b', sent);
    } else {
      assert sent == {};
      assert b'.closes == b.closes + sent;
      ClosesKeepBook(l, b, l', b', sent);
    }
  }

  lemma CloseFinishesKeeps(l: Life, b: Book, who: Identity, success: bool)
    requires Inv(l, b) && Enabled(l, b, CloseFinishes(who, success))
    ensures Inv(Next(l, b, CloseFinishes(who, success)), Record(l, b, CloseFinishes(who, success)))
  {
    var ev := CloseFinishes(who, success);
    var l', b' := Next(l, b, ev), Record(l, b, ev);
    assert CloseSentOk(who, b);
    assert ChainOk(who.session, l, b);
    assert SentBy(l, b, ev) == {} && b'.closes == b.closes;
    assert Disturbed(l') <= b.disturbed by {
      assert Disturbed(l') <= Disturbed(l) || l'.session.id == Some(who.session);
    }
    assert b'.disturbed == b.disturbed;
    forall s: nat | s in b'.chains
      ensures ChainOk(s, l', b')
    {
      assert ChainOk(s, l, b);
    }
    forall other | other in b'.closes
      ensures CloseSentOk(other, b')
    {
      assert CloseSentOk(other, b);
    }
  }

  lemma NextKeeps(l: Life, b: Book, ev: Event)
    requires Inv(l, b) && Enabled(l, b, ev)
    ensures Inv(Next(l, b, ev), Record(l, b, ev))
  {
    match ev
    case OpenBegins(session) => OpenBeginsKeeps(l, b, session);
    case OpenAnswered(session, reply) => OpenAnsweredKeeps(l, b, session, reply);
    case OpenCompletes(session) => OpenCompletesKeeps(l, b, session);
    case OpenFollowsUp(session) => FollowUpKeeps(l, b, session);
    case OpCloses => OpClosesKeeps(l, b);
    case CloseFinishes(who, success) => CloseFinishesKeeps(l, b, who, success);
    case ReadinessStops => QuietKeeps(l, b, ev);
    case OpBegins(_) => QuietKeeps(l, b, ev);
    case RuntimeRevoked => QuietKeeps(l, b, ev);
    case FailureReported(_) => FailureKeeps(l, b, ev);
    case MailboxDrained => FailureKeeps(l, b, ev);
    case MailboxDropped => FailureKeeps(l, b, ev);
    case _ => OpKeeps(l, b, ev);
  }

  // ---- Every run -------------------------------------------------------------------------------------------

  ghost predicate IsRun(ls: seq<Life>, bs: seq<Book>, evs: seq<Event>) {
    && |ls| == |bs| == |evs| + 1
    && ls[0] == INITIAL && bs[0] == EMPTY_BOOK
    && (forall i {:trigger evs[i]} :: 0 <= i < |evs| ==>
          && Enabled(ls[i], bs[i], evs[i])
          && ls[i + 1] == Next(ls[i], bs[i], evs[i]) && bs[i + 1] == Record(ls[i], bs[i], evs[i]))
  }

  lemma RunExtends(ls: seq<Life>, bs: seq<Book>, evs: seq<Event>, ev: Event)
    requires IsRun(ls, bs, evs) && Enabled(ls[|evs|], bs[|evs|], ev)
    ensures IsRun(ls + [Next(ls[|evs|], bs[|evs|], ev)], bs + [Record(ls[|evs|], bs[|evs|], ev)], evs + [ev])
  {
    var ls', bs', evs' := ls + [Next(ls[|evs|], bs[|evs|], ev)], bs + [Record(ls[|evs|], bs[|evs|], ev)], evs + [ev];
    forall i | 0 <= i < |evs'|
      ensures Enabled(ls'[i], bs'[i], evs'[i])
      ensures ls'[i + 1] == Next(ls'[i], bs'[i], evs'[i]) && bs'[i + 1] == Record(ls'[i], bs'[i], evs'[i])
    {
      if i < |evs| {
        assert ls'[i] == ls[i] && bs'[i] == bs[i] && evs'[i] == evs[i];
        assert ls'[i + 1] == ls[i + 1] && bs'[i + 1] == bs[i + 1];
      }
    }
  }

  lemma {:induction false} Reachable(ls: seq<Life>, bs: seq<Book>, evs: seq<Event>, n: nat)
    requires IsRun(ls, bs, evs) && n < |ls|
    ensures Inv(ls[n], bs[n])
  {
    if n > 0 {
      Reachable(ls, bs, evs, n - 1);
      NextKeeps(ls[n - 1], bs[n - 1], evs[n - 1]);
    }
  }

  /** Active implies a session and a positive generation; waiting and stopped imply none. */
  lemma StatesMeanSessions(ls: seq<Life>, bs: seq<Book>, evs: seq<Event>, n: nat)
    requires IsRun(ls, bs, evs) && n < |ls|
    ensures ls[n].state == Active ==> ls[n].session.id.Some? && ls[n].session.generation > 0
    ensures ls[n].state == WaitingReady || ls[n].state == Stopped ==> ls[n].session == NO_SESSION
  {
    Reachable(ls, bs, evs, n);
  }

  /** At this point the session is marked: stopped, revoked, failing or closing. */
  predicate Marked(l: Life, session: nat) {
    session in Disturbed(l)
  }

  lemma {:induction false} MarksStay(ls: seq<Life>, bs: seq<Book>, evs: seq<Event>, i: nat, n: nat, session: nat)
    requires IsRun(ls, bs, evs) && i <= n < |ls| && session in bs[i].disturbed
    ensures session in bs[n].disturbed
  {
    if i < n {
      MarksStay(ls, bs, evs, i, n - 1, session);
      assert bs[n] == Record(ls[n - 1], bs[n - 1], evs[n - 1]);
    }
  }

  /** A session that was ever stopped or revoked is never active afterwards. */
  lemma MarkedNeverActive(ls: seq<Life>, bs: seq<Book>, evs: seq<Event>, i: nat, n: nat, session: nat)
    requires IsRun(ls, bs, evs) && i <= n < |ls| && Marked(ls[i], session)
    ensures !(ls[n].state == Active && ls[n].session.id == Some(session))
  {
    Reachable(ls, bs, evs, i);
    MarksStay(ls, bs, evs, i, n, session);
    Reachable(ls, bs, evs, n);
  }

  lemma {:induction false} DoneStays(ls: seq<Life>, bs: seq<Book>, evs: seq<Event>, i: nat, n: nat, session: nat)
    requires IsRun(ls, bs, evs) && i <= n < |ls| && session in bs[i].chains && bs[i].chains[session] != Asked
    ensures session in bs[n].chains && bs[n].chains[session] != Asked
    ensures bs[n].chains[session].next == bs[i].chains[session].next
  {
    if i < n {
      DoneStays(ls, bs, evs, i, n - 1, session);
      assert bs[n] == Record(ls[n - 1], bs[n - 1], evs[n - 1]);
    }
  }

  /** An open that succeeds after its session was stopped or revoked does not become active; once its
      callback is through, a close was sent for exactly this session under the generation it was granted. */
  lemma LateOpenIsClosed(ls: seq<Life>, bs: seq<Book>, evs: seq<Event>, h: nat, i: nat, n: nat,
                         session: nat, generation: nat)
    requires IsRun(ls, bs, evs) && h <= i < n < |ls|
    requires Marked(ls[h], session) && evs[i] == OpenAnswered(session, Opened(generation)) && generation > 0
    ensures !(ls[n].state == Active && ls[n].session.id == Some(session))
    ensures session in bs[n].chains && bs[n].chains[session] != Asked
    ensures bs[n].chains[session].Done? ==> Identity(session, generation) in bs[n].closes
  {
    MarkedNeverActive(ls, bs, evs, h, n, session);
    Reachable(ls, bs, evs, h);
    MarksStay(ls, bs, evs, h, i, session);
    Reachable(ls, bs, evs, i);
    assert ChainOk(session, ls[i], bs[i]);
    assert bs[i + 1] == Record(ls[i], bs[i], evs[i]);
    assert bs[i + 1].chains[session] == Answered(ThenClose(generation));
    DoneStays(ls, bs, evs, i + 1, n, session);
    Reachable(ls, bs, evs, n);
    assert ChainOk(session, ls[n], bs[n]);
  }

  /** Whoever sends it, a close names its session under the generation that session was granted, or under
      none if its open has come back without one; and no active session is being closed. */
  lemma ClosesNameOwnGeneration(ls: seq<Life>, bs: seq<Book>, evs: seq<Event>, n: nat, who: Identity)
    requires IsRun(ls, bs, evs) && n < |ls| && who in bs[n].closes
    ensures who.generation > 0 ==> who.session in bs[n].granted && bs[n].granted[who.session] == who.generation
    ensures who.generation == 0 ==>
              who.session !in bs[n].granted && who.session in bs[n].chains && Past(bs[n].chains[who.session])
    ensures !(ls[n].state == Active && ls[n].session.id == Some(who.session))
  {
    Reachable(ls, bs, evs, n);
    assert CloseSentOk(who, bs[n]);
  }

  /** No answer to an open is lost: as long as it is out, its session is the current one. */
  lemma OpensAreTracked(ls: seq<Life>, bs: seq<Book>, evs: seq<Event>, n: nat, session: nat)
    requires IsRun(ls, bs, evs) && n < |ls| && session in bs[n].chains && bs[n].chains[session] == Asked
    ensures TracksOpen(ls[n], session)
  {
    Reachable(ls, bs, evs, n);
    assert ChainOk(session, ls[n], bs[n]);
  }
}
