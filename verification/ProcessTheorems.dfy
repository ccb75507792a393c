/** What holds in every run of the whole process. */
module ProcessTheorems {
  import opened Options
  import opened Status
  import opened Settings
  import opened Handlers
  import opened System
  import opened LoginStates
  import opened WholeRuns
  import opened PropertyStore
  import opened World
  import opened Publication
  import opened Handshake

  /** No update of a property is ever given up, and the agent is never stuck in SetProperty. */
  lemma NoUpdateIsLost(cfg: Settings, w: Process)
    requires Happens(cfg, w)
    ensures Move(cfg, w, Drop).None?
    ensures w.sys.pc.InSetProperty? ==>
              Move(cfg, w, HandOver).Some?
              || (Move(cfg, w, Store).Some? && Move(cfg, Move(cfg, w, Store).value, HandOver).Some?)
  {
    HappensInv(cfg, w);
  }

  // ---------------------------------------------------------------- the published map

  lemma {:induction false} LookUpFrom(props: map<Property, Value>, es: seq<Effect>, p: Property)
    requires p in props
    ensures p in SetAll(props, Updates(es))
    ensures SetAll(props, Updates(es))[p] == if LastPublished(es, p).Some? then LastPublished(es, p).value else props[p]
  {
    if es != [] {
      var q, e := es[..|es| - 1], es[|es| - 1];
      LookUpFrom(props, q, p);
      if e.Publish? {
        SetAllOne(props, Updates(q), e.update);
      } else {
        assert Updates(q) + [] == Updates(q);
      }
    }
  }

  /** The service's map holds what was last published, or else the value it was started with. */
  lemma LookUp(es: seq<Effect>, p: Property)
    ensures p in SetAll(EXPORTED, STARTED)
    ensures p in SetAll(EXPORTED, STARTED + Updates(es))
    ensures SetAll(EXPORTED, STARTED + Updates(es))[p] ==
            if LastPublished(es, p).Some? then LastPublished(es, p).value else SetAll(EXPORTED, STARTED)[p]
  {
    StartedMap();
    SetAllConcat(EXPORTED, STARTED, Updates(es));
    LookUpFrom(SetAll(EXPORTED, STARTED), es, p);
  }

  /**
    With no update under way at the loop head, the service's map has the agent's field for the config,
    the network and the login state, and for each time -1 until it was first published and then the field.
   */
  lemma ServiceMirrorsAgent(cfg: Settings, w: Process, p: Property)
    requires Happens(cfg, w) && w.sys.pc.AtLoop? && w.svc.pc.Serving?
    ensures p in w.svc.props
    ensures LastPublished(w.sys.effects, p).Some? ==> w.svc.props[p] == Field(cfg, w.sys.a, p)
    ensures LastPublished(w.sys.effects, p).None? ==> w.svc.props[p] == Stamp(-1) && Field(cfg, w.sys.a, p) == Stamp(0)
    ensures p == PropConfig || p == PropTrustedNetwork || p == PropLoginState ==> w.svc.props[p] == Field(cfg, w.sys.a, p)
  {
    HappensInv(cfg, w);
    PublishedIsCurrent(cfg, w.sys);
    LookUp(w.sys.effects, p);
    StartedMap();
    assert w.svc.signals + [] == w.svc.signals;
    assert STARTED + Updates(w.sys.effects) + [] == STARTED + Updates(w.sys.effects);
  }

  /**
    When the service has finished, its updates were the start values, every update of the agent in order,
    and the flush; every property is unknown or invalid; and after a shutdown the last login state
    before the flush was LoggedOut.
   */
  lemma FinalFlush(cfg: Settings, w: Process)
    requires Happens(cfg, w) && w.svc.pc.Finished?
    ensures w.svc.signals == STARTED + Updates(w.sys.effects) + FLUSH
    ensures w.svc.props == EXPORTED
    ensures Shutdown in w.sys.events ==> Latest(PublishedLogins(w.sys.effects)) == LoggedOut
  {
    HappensInv(cfg, w);
    assert w.svc.signals + [] == w.svc.signals;
    SetAllConcat(EXPORTED, STARTED + Updates(w.sys.effects), FLUSH);
    forall p: Property
      ensures p in SetAll(EXPORTED, STARTED + Updates(w.sys.effects))
    {
      LookUp(w.sys.effects, p);
    }
    FlushResets(SetAll(EXPORTED, STARTED + Updates(w.sys.effects)));
    ShutdownStopsClient(cfg, w.sys);
  }

  // ---------------------------------------------------------------- ReLogin calls

  /** Event k is the request q, handled on a trusted network, with the restart done. */
  ghost predicate Restarted(cfg: Settings, s: State, q: nat, k: nat)
    requires AllValid(s.events) && k < |s.events|
  {
    assert AllValid(s.events[..k]) && AllValid(s.events[..k + 1]);
    var before := HandleAll(cfg, s.events[..k]).a;
    var after := HandleAll(cfg, s.events[..k + 1]);
    && s.events[k] == ReLogin(q)
    && before.trustedNetwork == Trusted
    && after.es <= s.effects
    && (before.client.Some? ==> CloseDone(before.client.value) in after.es && Joined(before.client.value) in after.es)
    && (if Usable(before) then after.a.client == Some(before.started) else after.a.client.None?)
  }

  lemma AnswerRestarts(cfg: Settings, events: seq<Event>, es: seq<Effect>, n: nat, k: nat)
    requires AllValid(events) && n < |es| && k < |events| && Answers(cfg, events, es, n, k) && es[n].ok
    ensures AllValid(events[..k]) && AllValid(events[..k + 1])
    ensures var before := HandleAll(cfg, events[..k]).a;
            var after := HandleAll(cfg, events[..k + 1]);
            && (before.client.Some? ==> CloseDone(before.client.value) in after.es && Joined(before.client.value) in after.es)
            && (if Usable(before) then after.a.client == Some(before.started) else after.a.client.None?)
  {
    var p, q := events[..k], es[n].request;
    assert AllValid(p) && events[..k + 1] == p + [events[k]];
    HandleAllStep(cfg, p, ReLogin(q));
    RestartEffects(cfg, HandleAll(cfg, p).a, q);
  }

  lemma ReplyInRun(cfg: Settings, s: State, q: nat, ok: bool) returns (n: nat, k: nat)
    requires Reachable(cfg, s) && Reply(q, ok) in s.effects
    ensures AllValid(s.events) && n < |s.effects| && k < |s.events| && s.effects[n] == Reply(q, ok)
    ensures Answers(cfg, s.events, s.effects, n, k)
  {
    LoopIsSequential(cfg, s);
    var es := HandleAll(cfg, s.events).es;
    n :| 0 <= n < |s.effects| && s.effects[n] == Reply(q, ok);
    assert es[n] == s.effects[n] && es[..n + 1] == s.effects[..n + 1];
    EveryReplyAnswers(cfg, s.events, n);
    k :| k < |s.events| && Answers(cfg, s.events, es, n, k);
  }

  lemma RestartedBy(cfg: Settings, s: State, q: nat)
    requires Reachable(cfg, s) && Reply(q, true) in s.effects
    ensures AllValid(s.events) && exists k: nat :: k < |s.events| && Restarted(cfg, s, q, k)
  {
    var n, k := ReplyInRun(cfg, s, q, true);
    AnswerRestarts(cfg, s.events, s.effects, n, k);
    assert Restarted(cfg, s, q, k);
  }

  /**
    A ReLogin call returns success only if the agent took its request on a trusted network, ended the
    running client and started a new one if it had the credentials.
   */
  lemma SuccessMeansRestarted(cfg: Settings, w: Process, q: nat)
    requires Happens(cfg, w) && q < |w.callers| && w.callers[q] == Returned(true)
    ensures AllValid(w.sys.events) && exists k: nat :: k < |w.sys.events| && Restarted(cfg, w.sys, q, k)
  {
    HappensInv(cfg, w);
    RestartedBy(cfg, w.sys, q);
  }

  lemma ClosingReleases(cfg: Settings, w: Process, q: nat)
    requires ProcessInv(cfg, w) && q < |w.callers| && (w.sys.pc.InServiceStop? || w.sys.pc.Exited?)
    ensures w.callers[q].Returned? || Move(cfg, w, Abort(q)).Some?
  {
  }

  lemma AnsweredReturns(cfg: Settings, w: Process, q: nat)
    requires ProcessInv(cfg, w) && q < |w.callers| && w.sys.pc.AtLoop? && w.callers[q].Waiting?
    ensures Move(cfg, w, Return(q)).Some?
  {
    RequestsAnswered(cfg, w.sys, q);
  }

  /** Once the service is closing, every call that has not returned can do so; none is left waiting. */
  lemma WaitersAreReleased(cfg: Settings, w: Process, q: nat)
    requires Happens(cfg, w) && q < |w.callers|
    ensures w.sys.pc.InServiceStop? || w.sys.pc.Exited? ==> w.callers[q].Returned? || Move(cfg, w, Abort(q)).Some?
    ensures w.sys.pc.AtLoop? && w.callers[q].Waiting? ==> Move(cfg, w, Return(q)).Some?
  {
    HappensInv(cfg, w);
    if w.sys.pc.InServiceStop? || w.sys.pc.Exited? {
      ClosingReleases(cfg, w, q);
    }
    if w.sys.pc.AtLoop? && w.callers[q].Waiting? {
      AnsweredReturns(cfg, w, q);
    }
  }

  lemma {:induction false} HandleAllGrows(cfg: Settings, events: seq<Event>, k: nat)
    requires AllValid(events) && k <= |events|
    ensures AllValid(events[..k]) && HandleAll(cfg, events[..k]).es <= HandleAll(cfg, events).es
  {
    if k == |events| {
      assert events[..k] == events;
    } else {
      var p := events[..|events| - 1];
      assert p[..k] == events[..k];
      HandleAllGrows(cfg, p, k);
    }
  }

  /** At the loop head the reply to a request is success exactly if the network was trusted when it was taken. */
  lemma ReplyTellsTrust(cfg: Settings, s: State, k: nat)
    requires Reachable(cfg, s) && s.pc.AtLoop? && k < |s.events| && s.events[k].ReLogin?
    ensures AllValid(s.events[..k])
    ensures Reply(s.events[k].request, HandleAll(cfg, s.events[..k]).a.trustedNetwork == Trusted) in s.effects
  {
    LoopIsSequential(cfg, s);
    ReplyInHistory(cfg, s.events, k);
  }

  lemma ReplyInHistory(cfg: Settings, events: seq<Event>, k: nat)
    requires AllValid(events) && k < |events| && events[k].ReLogin?
    ensures AllValid(events[..k])
    ensures Reply(events[k].request, HandleAll(cfg, events[..k]).a.trustedNetwork == Trusted) in HandleAll(cfg, events).es
  {
    HandledPart(cfg, events, k);
    ReplyStays(cfg, HandleAll(cfg, events[..k]), events[k], HandleAll(cfg, events).es);
  }

  /** The calls of the first k events and those of event k come first. */
  lemma HandledPart(cfg: Settings, events: seq<Event>, k: nat)
    requires AllValid(events) && k < |events|
    ensures AllValid(events[..k]) && ValidEvent(events[k])
    ensures var o := HandleAll(cfg, events[..k]); o.es + Handle(cfg, o.a, events[k]).es <= HandleAll(cfg, events).es
  {
    var p, e := events[..k], events[k];
    assert events[..k + 1] == p + [e];
    HandleAllStep(cfg, p, e);
    HandleAllGrows(cfg, events, k + 1);
  }

  lemma ReplyStays(cfg: Settings, o: Out, e: Event, es: seq<Effect>)
    requires e.ReLogin? && o.es + Handle(cfg, o.a, e).es <= es
    ensures Reply(e.request, o.a.trustedNetwork == Trusted) in es
  {
    ReplyIsLast(cfg, o.a, e);
    LastStays(o.es, Handle(cfg, o.a, e).es, es);
  }

  lemma LastStays(xs: seq<Effect>, ys: seq<Effect>, zs: seq<Effect>)
    requires ys != [] && xs + ys <= zs
    ensures ys[|ys| - 1] in zs
  {
    assert zs[|xs| + |ys| - 1] == (xs + ys)[|xs| + |ys| - 1];
  }

  /** At the loop head every request taken has been replied to. */
  lemma RequestsAnswered(cfg: Settings, s: State, q: nat)
    requires Reachable(cfg, s) && s.pc.AtLoop? && ReLogin(q) in s.events
    ensures Replied(s.effects, q).Some?
  {
    LoopIsSequential(cfg, s);
    RepliesMatch(cfg, s.events);
    TakenIsRequested(s.events, q);
    RepliedIsReply(s.effects, q);
  }

  lemma {:induction false} TakenIsRequested(events: seq<Event>, q: nat)
    ensures ReLogin(q) in events <==> q in Requests(events)
  {
    if events != [] {
      TakenIsRequested(events[..|events| - 1], q);
    }
  }

  lemma {:induction false} RepliedIsReply(es: seq<Effect>, q: nat)
    ensures q in Replies(es) <==> Reply(q, true) in es || Reply(q, false) in es
  {
    if es != [] {
      RepliedIsReply(es[..|es| - 1], q);
    }
  }

  ghost predicate Distinct(qs: seq<nat>) {
    forall i, j | 0 <= i < j < |qs| :: qs[i] != qs[j]
  }

  lemma {:induction false} DistinctRequests(events: seq<Event>)
    requires forall i, j, q: nat | 0 <= i < j < |events| && events[i] == ReLogin(q) :: events[j] != ReLogin(q)
    ensures Distinct(Requests(events))
  {
    if events != [] {
      var p, e := events[..|events| - 1], events[|events| - 1];
      forall i, j, q: nat | 0 <= i < j < |p| && p[i] == ReLogin(q)
        ensures p[j] != ReLogin(q)
      {
        assert events[i] == ReLogin(q) && events[j] == p[j];
      }
      DistinctRequests(p);
      if e.ReLogin? {
        TakenIsRequested(p, e.request);
      }
    }
  }

  /** The replies so far are the first of the requests taken. */
  lemma RepliesInOrder(cfg: Settings, s: State)
    requires Reachable(cfg, s)
    ensures Replies(s.effects) <= Requests(s.events)
  {
    LoopIsSequential(cfg, s);
    RepliesMatch(cfg, s.events);
    RepliesPrefix(s.effects, HandleAll(cfg, s.events).es);
  }

  lemma RepliesPrefix(xs: seq<Effect>, ys: seq<Effect>)
    requires xs <= ys
    ensures Replies(xs) <= Replies(ys)
  {
    RepliesConcat(xs, ys[|xs|..]);
    assert xs + ys[|xs|..] == ys;
  }

  /** The agent closes each request's channel at most once. */
  lemma RequestsClosedOnce(cfg: Settings, w: Process)
    requires Happens(cfg, w)
    ensures Distinct(Replies(w.sys.effects))
  {
    HappensInv(cfg, w);
    RepliesInOrder(cfg, w.sys);
    DistinctRequests(w.sys.events);
  }

  lemma LastIsNew(qs: seq<nat>, q: nat)
    requires Distinct(qs + [q])
    ensures q !in qs
  {
    forall i | 0 <= i < |qs|
      ensures qs[i] != q
    {
      assert (qs + [q])[i] != (qs + [q])[|qs|];
    }
  }

  lemma {:induction false} OneReply(es: seq<Effect>, q: nat)
    requires Distinct(Replies(es)) && Reply(q, false) in es
    ensures Reply(q, true) !in es
  {
    var p, e := es[..|es| - 1], es[|es| - 1];
    RepliedIsReply(p, q);
    if e.Reply? {
      assert Replies(es) == Replies(p) + [e.request];
      LastIsNew(Replies(p), e.request);
    }
    if Reply(q, false) in p {
      DistinctFirst(Replies(p), Replies(es));
      OneReply(p, q);
    }
  }

  lemma DistinctFirst(qs: seq<nat>, rs: seq<nat>)
    requires qs <= rs && Distinct(rs)
    ensures Distinct(qs)
  {
    forall i, j | 0 <= i < j < |qs|
      ensures qs[i] != qs[j]
    {
      assert qs[i] == rs[i] && qs[j] == rs[j];
    }
  }

  lemma RepliedIs(es: seq<Effect>, q: nat, ok: bool)
    requires Distinct(Replies(es)) && Reply(q, ok) in es
    ensures Replied(es, q) == Some(ok)
  {
    if !ok {
      OneReply(es, q);
    }
  }

  /** The network was trusted, or not, when the agent took request q as its event k. */
  ghost predicate TakenOn(cfg: Settings, events: seq<Event>, q: nat, k: nat, trusted: bool) {
    && k < |events| && events[k] == ReLogin(q) && AllValid(events[..k])
    && (HandleAll(cfg, events[..k]).a.trustedNetwork == Trusted <==> trusted)
  }

  lemma ReplyTellsTaken(cfg: Settings, s: State, q: nat) returns (k: nat, trusted: bool)
    requires Reachable(cfg, s) && s.pc.AtLoop? && ReLogin(q) in s.events && Distinct(Replies(s.effects))
    ensures TakenOn(cfg, s.events, q, k, trusted) && Replied(s.effects, q) == Some(trusted)
  {
    k :| k < |s.events| && s.events[k] == ReLogin(q);
    ReplyTellsTrust(cfg, s, k);
    trusted := HandleAll(cfg, s.events[..k]).a.trustedNetwork == Trusted;
    RepliedIs(s.effects, q, trusted);
  }

  lemma WaitingWasTaken(cfg: Settings, w: Process, q: nat)
    requires ProcessInv(cfg, w) && q < |w.callers| && w.callers[q].Waiting?
    ensures ReLogin(q) in w.sys.events
  {
  }

  lemma ReturnGives(cfg: Settings, w: Process, q: nat, ok: bool)
    requires q < |w.callers| && w.callers[q].Waiting? && Replied(w.sys.effects, q) == Some(ok)
    ensures Move(cfg, w, Return(q)) == Some(w.(callers := w.callers[q := Returned(ok)]))
  {
  }

  /**
    At the loop head a waiting call can return, and it then reports success exactly if the network was
    trusted when the agent took its request.
   */
  lemma CallGetsReply(cfg: Settings, w: Process, q: nat)
    requires Happens(cfg, w) && q < |w.callers| && w.sys.pc.AtLoop? && w.callers[q].Waiting?
    ensures exists k: nat, trusted: bool :: TakenOn(cfg, w.sys.events, q, k, trusted)
              && Move(cfg, w, Return(q)) == Some(w.(callers := w.callers[q := Returned(trusted)]))
  {
    HappensInv(cfg, w);
    RequestsClosedOnce(cfg, w);
    WaitingWasTaken(cfg, w, q);
    var k, trusted := ReplyTellsTaken(cfg, w.sys, q);
    ReturnGives(cfg, w, q, trusted);
  }

  lemma RepliedWasTaken(cfg: Settings, s: State, q: nat, ok: bool) returns (k: nat)
    requires Reachable(cfg, s) && Reply(q, ok) in s.effects
    ensures TakenOn(cfg, s.events, q, k, ok)
  {
    var n;
    n, k := ReplyInRun(cfg, s, q, ok);
    AnswerIsTaken(cfg, s.events, s.effects, n, k);
  }

  lemma AnswerIsTaken(cfg: Settings, events: seq<Event>, es: seq<Effect>, n: nat, k: nat)
    requires AllValid(events) && n < |es| && k < |events| && Answers(cfg, events, es, n, k)
    ensures TakenOn(cfg, events, es[n].request, k, es[n].ok)
  {
  }

  /** A request is taken once, so it is taken on one network. */
  lemma TakenOnOne(cfg: Settings, w: Process, q: nat, k1: nat, trusted1: bool, k2: nat, trusted2: bool)
    requires CallersFit(w) && TakenOn(cfg, w.sys.events, q, k1, trusted1) && TakenOn(cfg, w.sys.events, q, k2, trusted2)
    ensures k1 == k2 && trusted1 == trusted2
  {
  }

  lemma ReturnedWasReplied(cfg: Settings, w: Process, q: nat)
    requires CallersFit(w) && q < |w.callers| && w.callers[q].Returned?
    ensures w.callers[q].ok || w.svc.doneCloses == 0 ==> Reply(q, w.callers[q].ok) in w.sys.effects
  {
  }

  /**
    Every call that has returned by the time done is closed returned success if and only if its request
    was taken on a trusted network; once done is closed this is still so for every success.
   */
  lemma ResultTellsTrust(cfg: Settings, w: Process, q: nat)
    requires Happens(cfg, w) && q < |w.callers| && w.callers[q].Returned?
    requires w.callers[q].ok || w.svc.doneCloses == 0
    ensures exists k: nat :: TakenOn(cfg, w.sys.events, q, k, w.callers[q].ok)
    ensures forall k: nat, trusted: bool :: TakenOn(cfg, w.sys.events, q, k, trusted) ==> (w.callers[q].ok <==> trusted)
  {
    HappensInv(cfg, w);
    ReturnedWasReplied(cfg, w, q);
    var k := RepliedWasTaken(cfg, w.sys, q, w.callers[q].ok);
    forall j: nat, trusted: bool | TakenOn(cfg, w.sys.events, q, j, trusted)
      ensures w.callers[q].ok <==> trusted
    {
      TakenOnOne(cfg, w, q, k, w.callers[q].ok, j, trusted);
    }
  }
}
