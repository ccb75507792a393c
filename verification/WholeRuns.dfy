/** The histories of the handlers, read off every run of the agent and its clients. */
module WholeRuns {
  import opened Options
  import opened Status
  import opened Settings
  import opened ClientMachine
  import opened Handlers
  import opened AgentMachine
  import opened System
  import opened SystemInvariant
  import opened LoginStates
  import opened Notices
  import opened KerberosHistory
  import opened Publication
  import opened RunCondition
  import opened Credentials

  lemma ReachableStep(cfg: Settings, s: State, l: Label)
    requires Reachable(cfg, s) && Do(cfg, s, l).Some?
    ensures Reachable(cfg, Do(cfg, s, l).value)
  {
    var ls: seq<Label> :| Exec(cfg, Init(cfg), ls) == Some(s);
    assert (ls + [l])[..|ls|] == ls;
    assert Exec(cfg, Init(cfg), ls + [l]) == Do(cfg, s, l);
  }

  // ---------------------------------------------------------------- which events end the loop

  /** The agent is on its way out of the loop. */
  predicate Ending(pc: PC) {
    match pc
    case InSetProperty(_, r) => (r.BeforeStop? && r.after.ToExit?) || (r.AfterStop? && r.after.ToExit?)
    case InStop(after) => after.ToExit?
    case AtLoop => false
    case _ => true
  }

  /** Only the last event can end the loop, and then the agent leaves it. */
  ghost predicate EndsOnce(events: seq<Event>, ending: bool) {
    && (forall i | 0 <= i < |events| - 1 :: !EndEvent(events[i]))
    && (events != [] ==> (EndEvent(events[|events| - 1]) <==> ending))
    && (events == [] ==> !ending)
  }

  ghost predicate EndInv(s: State) {
    EndsOnce(s.events, Ending(s.pc))
  }

  lemma TakeEnds(cfg: Settings, s: State, e: Event)
    requires EndInv(s) && s.pc.AtLoop? && ValidEvent(e)
    ensures EndInv(TakeEvent(cfg, s, e))
  {
    BeginEnds(cfg, s.a, e);
  }

  lemma StoppedEnds(cfg: Settings, a: Agent, after: After)
    ensures Ending(Resume(cfg, a, AfterStop(after)).pc) <==> after.ToExit?
  {
  }

  lemma EnterLoginEnds(cfg: Settings, a: Agent, l: LoginState, r: Rest)
    requires !r.AfterNetwork? && !r.BootLogin?
    ensures Ending(EnterLogin(cfg, a, l, r).pc) <==> Ending(InSetProperty(LoginUpdate(l), r))
  {
    if r.AfterStop? {
      StoppedEnds(cfg, a, r.after);
    }
  }

  lemma EnterStopEnds(cfg: Settings, a: Agent, after: After)
    ensures Ending(EnterStop(cfg, a, after).pc) <==> after.ToExit?
  {
    if a.client.None? {
      StoppedEnds(cfg, a, after);
    } else {
      EnterLoginEnds(cfg, a, LoggingOut, BeforeStop(after));
    }
  }

  lemma ResumeEnds(cfg: Settings, a: Agent, u: Update, r: Rest)
    ensures Ending(Resume(cfg, a, r).pc) <==> Ending(InSetProperty(u, r))
  {
    match r
    case AfterNetwork => EnterStopEnds(cfg, a, ToSelect);
    case BootLogin => EnterLoginEnds(cfg, a, LoggedOut, BootConfig);
    case AfterStop(after) => StoppedEnds(cfg, a, after);
    case _ =>
  }

  lemma EnterNetworkEnds(cfg: Settings, a: Agent, trusted: bool)
    ensures !Ending(EnterNetwork(cfg, a, trusted, AfterNetwork).pc)
  {
    ResumeEnds(cfg, a, NetworkUpdate(Trusted), AfterNetwork);
  }

  lemma BeginEnds(cfg: Settings, a: Agent, e: Event)
    requires ValidEvent(e)
    ensures Ending(Begin(cfg, a, e).pc) <==> EndEvent(e)
  {
    match e
    case TND(r) => EnterNetworkEnds(cfg, a, r);
    case Sleep(s) => EnterNetworkEnds(cfg, a, false);
    case LoginResult(l, now) => EnterLoginEnds(cfg, a, l, AfterLogin(l, now));
    case ReLogin(q) => EnterStopEnds(cfg, a, ToRestart(q));
    case Shutdown => EnterStopEnds(cfg, a, ToExit);
    case _ =>
  }

  lemma AfterJoinEnds(cfg: Settings, a: Agent, after: After)
    ensures Ending(AfterJoin(cfg, a, after).pc) <==> after.ToExit?
  {
    EnterLoginEnds(cfg, a.(client := None, login := None), LoggedOut, AfterStop(after));
  }

  lemma EndStep(cfg: Settings, s: State, l: Label)
    requires EndInv(s) && Do(cfg, s, l).Some?
    ensures EndInv(Do(cfg, s, l).value)
  {
    match l
    case Take(e) => TakeEnds(cfg, s, e);
    case Deliver(now) =>
      var i := s.a.login.value;
      TakeEnds(cfg, SetClient(s, i, Sent(s.clients[i], true)), LoginResult(s.clients[i].pc.state, now));
    case SeeClosed => TakeEnds(cfg, s, SourceClosed(LoginSource));
    case Published => ResumeEnds(cfg, s.a, s.pc.update, s.pc.rest);
    case StopReturns => AfterJoinEnds(cfg, s.a, s.pc.after);
    case _ =>
  }

  lemma {:induction false} EndExec(cfg: Settings, ls: seq<Label>)
    requires Exec(cfg, Init(cfg), ls).Some?
    ensures EndInv(Exec(cfg, Init(cfg), ls).value)
  {
    if ls != [] {
      EndExec(cfg, ls[..|ls| - 1]);
      EndStep(cfg, Exec(cfg, Init(cfg), ls[..|ls| - 1]).value, ls[|ls| - 1]);
    }
  }

  lemma ReachableEnds(cfg: Settings, s: State)
    requires Reachable(cfg, s)
    ensures EndInv(s)
  {
    var ls: seq<Label> :| Exec(cfg, Init(cfg), ls) == Some(s);
    EndExec(cfg, ls);
  }

  /** Once past the loop, the agent is where the handlers have brought it. */
  lemma PastLoop(cfg: Settings, s: State)
    requires Reachable(cfg, s) && (s.pc.Exiting? || s.pc.InServiceStop? || s.pc.Exited?)
    ensures AllValid(s.events) && HandleAll(cfg, s.events) == Out(s.a, s.effects)
    ensures s.events != [] && EndEvent(s.events[|s.events| - 1])
  {
    RunRefines(cfg, s);
    ReachableEnds(cfg, s);
    assert s.effects + [] == s.effects;
  }

  /** Handling a shutdown leaves the agent without a client. */
  lemma ShutdownEnds(cfg: Settings, p: seq<Event>)
    requires AllValid(p)
    ensures AllValid(p + [Shutdown]) && HandleAll(cfg, p + [Shutdown]).a.client.None?
  {
    HandleAllStep(cfg, p, Shutdown);
    StopFrame(cfg, HandleAll(cfg, p).a);
  }

  lemma ShutdownComesLast(events: seq<Event>, ending: bool)
    requires EndsOnce(events, ending) && Shutdown in events
    ensures events == events[..|events| - 1] + [Shutdown]
  {
  }

  lemma ShutdownIsLast(cfg: Settings, s: State)
    requires Reachable(cfg, s) && (s.pc.Exiting? || s.pc.InServiceStop? || s.pc.Exited?) && Shutdown in s.events
    ensures s.a.client.None?
  {
    PastLoop(cfg, s);
    ReachableEnds(cfg, s);
    ShutdownComesLast(s.events, Ending(s.pc));
    var p := s.events[..|s.events| - 1];
    assert forall e | e in p :: e in s.events;
    ShutdownEnds(cfg, p);
  }

  /**
    After leaving the loop every client is gone exactly if the agent refers to none, and then the last
    published login state is LoggedOut; the done arm always gets there.
   */
  lemma ShutdownStopsClient(cfg: Settings, s: State)
    requires Reachable(cfg, s) && (s.pc.Exiting? || s.pc.InServiceStop? || s.pc.Exited?)
    ensures Shutdown in s.events ==> s.a.client.None?
    ensures s.a.client.None? <==> forall i: nat | i < |s.clients| :: s.clients[i].pc.Dead?
    ensures s.a.client.None? ==> s.a.loginState == LoggedOut && Latest(PublishedLogins(s.effects)) == LoggedOut
  {
    ReachableInv(cfg, s);
    if Shutdown in s.events {
      ShutdownIsLast(cfg, s);
    }
    if s.a.client.Some? {
      assert ClientInv(cfg, s.clients[s.a.client.value]);
    } else {
      ReachableHistory(cfg, s);
      assert PublishedLogins(s.effects) + [] == PublishedLogins(s.effects);
    }
  }

  lemma RunningClientIsOpen(cfg: Settings, s: State, i: nat)
    requires Inv(cfg, s) && s.pc.AtLoop? && s.a.client == Some(i)
    ensures i < |s.clients| && s.clients[i].doneCloses == 0 && !s.clients[i].pc.Dead?
  {
    assert ClientInv(cfg, s.clients[i]);
  }

  /** A closed event source ends the loop and leaves the running client alone, its done channel open. */
  lemma ErrorExitLeavesClient(cfg: Settings, s: State, source: Source)
    requires Reachable(cfg, s) && s.pc.AtLoop? && source != LoginSource
    ensures Do(cfg, s, Take(SourceClosed(source))).Some?
    ensures var t := Do(cfg, s, Take(SourceClosed(source))).value;
            && t.pc.Exiting? && t.a == s.a && t.clients == s.clients
            && (forall i: nat | i < |t.clients| && s.a.client == Some(i) :: t.clients[i].doneCloses == 0 && !t.clients[i].pc.Dead?)
  {
    ReachableInv(cfg, s);
    if s.a.client.Some? {
      RunningClientIsOpen(cfg, s, s.a.client.value);
    }
  }

  // ---------------------------------------------------------------- the state at the loop head

  lemma {:induction false} ResultsKnown(cfg: Settings, ls: seq<Label>)
    requires Exec(cfg, Init(cfg), ls).Some?
    ensures forall e | e in Exec(cfg, Init(cfg), ls).value.events && e.LoginResult? :: e.state != LoginUnknown
  {
    if ls != [] {
      var s := Exec(cfg, Init(cfg), ls[..|ls| - 1]).value;
      ResultsKnown(cfg, ls[..|ls| - 1]);
      InvExec(cfg, ls[..|ls| - 1]);
      ResultKnown(cfg, s);
    }
  }

  lemma ResultKnown(cfg: Settings, s: State)
    requires Inv(cfg, s)
    ensures CanDeliver(s) ==> s.clients[s.a.login.value].pc.state != LoginUnknown
  {
    if CanDeliver(s) {
      assert ClientInv(cfg, s.clients[s.a.login.value]);
    }
  }

  lemma NoShutdownYet(cfg: Settings, s: State)
    requires Reachable(cfg, s) && s.pc.AtLoop?
    ensures Shutdown !in s.events
  {
    ReachableEnds(cfg, s);
    NoneEnded(s.events);
  }

  lemma NoneEnded(events: seq<Event>)
    requires EndsOnce(events, false)
    ensures forall e | e in events :: !EndEvent(e)
  {
    forall e | e in events
      ensures !EndEvent(e)
    {
      var i :| 0 <= i < |events| && events[i] == e;
      assert i < |events| - 1 || !EndEvent(events[|events| - 1]);
    }
  }

  /** At every loop head a client runs only on a trusted network with saved credentials, and always when they are usable. */
  lemma ClientRunsWhenItShould(cfg: Settings, s: State)
    requires Reachable(cfg, s) && s.pc.AtLoop?
    ensures s.a.login == s.a.client
    ensures s.a.client.Some? ==> s.a.trustedNetwork == Trusted && s.a.ccacheUp.Some? && s.a.krbcfgUp.Some?
    ensures s.a.trustedNetwork == Trusted && Usable(s.a) ==> s.a.client.Some?
    ensures NoNilConf(s.events) ==> (s.a.client.Some? <==> s.a.trustedNetwork == Trusted && Usable(s.a))
    ensures s.a.client.None? ==> s.a.loginState == LoggedOut && !s.a.loggedIn && s.a.login.None?
  {
    LoopIsSequential(cfg, s);
    ReachableEnds(cfg, s);
    ReachableInv(cfg, s);
    AllAreNoticed(cfg, s);
    AllRun(cfg, s.events);
  }

  lemma AllAreNoticed(cfg: Settings, s: State)
    requires Reachable(cfg, s)
    ensures AllValid(s.events)
    ensures var o := HandleAll(cfg, s.events); Noticed(cfg, o.es, o.a)
  {
    LoopIsSequential(cfg, s);
    var ls: seq<Label> :| Exec(cfg, Init(cfg), ls) == Some(s);
    ResultsKnown(cfg, ls);
    AllNoticed(cfg, s.events);
  }

  lemma NoticesOfPrefix(cfg: Settings, es: seq<Effect>, all: seq<Effect>, a: Agent)
    requires es <= all && Noticed(cfg, all, a)
    ensures if cfg.notifications then Alternating(LoginNotices(es)) else LoginNotices(es) == []
  {
    NoticesConcat(es, all[|es|..]);
    assert es + all[|es|..] == all;
    if cfg.notifications {
      AlternatingPrefix(LoginNotices(es), LoginNotices(all));
    }
  }

  /** In every run, notices alternate from a login on, and count the session flag at the loop head. */
  lemma NoticesAlternate(cfg: Settings, s: State)
    requires Reachable(cfg, s)
    ensures if cfg.notifications then Alternating(LoginNotices(s.effects)) else LoginNotices(s.effects) == []
    ensures s.pc.AtLoop? ==> (s.a.loggedIn <==> LastSession(PublishedLogins(s.effects)))
    ensures s.pc.AtLoop? && cfg.notifications ==>
              Count(LoginNotices(s.effects), true) == Count(LoginNotices(s.effects), false) + if s.a.loggedIn then 1 else 0
  {
    LoopIsSequential(cfg, s);
    AllAreNoticed(cfg, s);
    var o := HandleAll(cfg, s.events);
    NoticesOfPrefix(cfg, s.effects, o.es, o.a);
    if s.pc.AtLoop? && cfg.notifications {
      AlternatingCounts(LoginNotices(s.effects));
    }
  }

  /** At every loop head, what was last published for each property is the agent's field. */
  lemma PublishedIsCurrent(cfg: Settings, s: State)
    requires Reachable(cfg, s) && s.pc.AtLoop?
    ensures Mirrors(cfg, s.effects, s.a)
  {
    LoopIsSequential(cfg, s);
    AllMirrored(cfg, s.events);
  }

  /** At every loop head, the TGT times and the saved ccache are those of the update history. */
  lemma TGTIsRemembered(cfg: Settings, s: State)
    requires Reachable(cfg, s) && s.pc.AtLoop?
    ensures AllValid(s.events) && Remembers(cfg, s.a, s.events)
  {
    LoopIsSequential(cfg, s);
    KerberosRemembered(cfg, s.events);
  }

  /**
    At every loop head, the running client has the ccache of the latest update with a TGT for the realm if
    and only if that update was not passed over for bringing the remembered times in another ccache.
   */
  lemma ClientHasLatest(cfg: Settings, s: State, k: nat)
    requires Reachable(cfg, s) && s.pc.AtLoop? && s.a.client.Some?
    requires AllValid(s.events) && IsLatest(cfg, s.events, k)
    ensures s.a.client.value < |s.clients|
    ensures s.clients[s.a.client.value].ccache == s.events[k].ccache.ccache <==> !PassedOver(cfg, s.events, k)
  {
    TGTIsRemembered(cfg, s);
    CredentialsAgree(cfg, s);
    LatestIs(cfg, s.events, k);
  }
}
