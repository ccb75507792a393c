/**
  The agent as a function of the events it has taken. Each field has a definition of its own here, which
  looks back through the history and does not use the handlers.
 */
module AgentHistory {
  import opened Options
  import opened Status
  import opened Kerberos
  import opened Settings
  import opened Handlers
  import opened KerberosHistory

  // ---------------------------------------------------------------- the fields, from the events alone

  function Front(events: seq<Event>): seq<Event>
    requires events != []
  {
    events[..|events| - 1]
  }

  function Last(events: seq<Event>): Event
    requires events != []
  {
    events[|events| - 1]
  }

  /** Not trusted at first, then what the latest TND result says; falling asleep counts as untrusted. */
  predicate TrustedIn(events: seq<Event>) {
    events != [] &&
    match Last(events)
    case TND(r) => r
    case Sleep(s) => !s && TrustedIn(Front(events))
    case _ => TrustedIn(Front(events))
  }

  /** The time of the latest LoggedIn result, zero if there was none. */
  function LastKeepAliveIn(events: seq<Event>): int {
    if events == [] then 0
    else if Last(events).LoginResult? && Last(events).state == LoggedIn then Last(events).now
    else LastKeepAliveIn(Front(events))
  }

  /** The latest config update. */
  function ConfIn(events: seq<Event>): Option<ConfUpdate> {
    if events == [] then None
    else if Last(events).ConfUp? then Some(Last(events).conf)
    else ConfIn(Front(events))
  }

  /** A ccache has been saved, and the latest config update had a config. */
  predicate EquippedIn(cfg: Settings, events: seq<Event>)
    requires AllValid(events)
  {
    SavedUpdate(cfg, events).Some? && ConfIn(events).Some? && ConfIn(events).value.config.Some?
  }

  lemma FrontValid(events: seq<Event>)
    requires AllValid(events) && events != []
    ensures AllValid(Front(events)) && ValidEvent(Last(events))
  {
    assert Last(events) in events;
  }

  /** The last event brings a TGT with new times. */
  predicate NewTimes(cfg: Settings, events: seq<Event>)
    requires AllValid(events) && events != []
  {
    LatestTGT(cfg, events) != LatestTGT(cfg, Front(events))
  }

  /** The last event is a re-login request on a trusted network. */
  predicate RestartIn(events: seq<Event>)
    requires events != []
  {
    Last(events).ReLogin? && TrustedIn(Front(events))
  }

  /** A client runs after the events. */
  predicate RunningIn(cfg: Settings, events: seq<Event>)
    requires AllValid(events)
  {
    events != [] &&
    match Last(events)
    case TND(r) => r && (RunningIn(cfg, Front(events)) || EquippedIn(cfg, events))
    case Sleep(s) => !s && RunningIn(cfg, Front(events))
    case CCacheUp(_) =>
      RunningIn(cfg, Front(events)) || (NewTimes(cfg, events) && TrustedIn(events) && EquippedIn(cfg, events))
    case ConfUp(_) => RunningIn(cfg, Front(events)) || (TrustedIn(events) && EquippedIn(cfg, events))
    case ReLogin(_) => if TrustedIn(events) then EquippedIn(cfg, events) else RunningIn(cfg, Front(events))
    case Shutdown => false
    case _ => RunningIn(cfg, Front(events))
  }

  /** The last event starts a client. */
  predicate StartsIn(cfg: Settings, events: seq<Event>)
    requires AllValid(events) && events != []
  {
    RunningIn(cfg, events) && (!RunningIn(cfg, Front(events)) || RestartIn(events))
  }

  /** The last event ends the running client. */
  predicate StopsIn(cfg: Settings, events: seq<Event>)
    requires AllValid(events) && events != []
  {
    RunningIn(cfg, Front(events)) && (!RunningIn(cfg, events) || RestartIn(events))
  }

  /** How many clients the events have started. */
  function StartedIn(cfg: Settings, events: seq<Event>): nat
    requires AllValid(events)
  {
    if events == [] then 0 else StartedIn(cfg, Front(events)) + if StartsIn(cfg, events) then 1 else 0
  }

  /** The state the latest result reported, or logged out when a client has been ended since. */
  function LoginIn(cfg: Settings, events: seq<Event>): LoginState
    requires AllValid(events)
  {
    if events == [] then LoggedOut
    else if Last(events).LoginResult? then Last(events).state
    else if StopsIn(cfg, events) then LoggedOut
    else LoginIn(cfg, Front(events))
  }

  /** All fields of the agent but the session flag. */
  ghost predicate IsAfter(cfg: Settings, a: Agent, events: seq<Event>)
    requires AllValid(events)
  {
    && a.trustedNetwork == (if TrustedIn(events) then Trusted else NotTrusted)
    && a.lastKeepAlive == LastKeepAliveIn(events)
    && a.kerberosTGT == LatestTGT(cfg, events)
    && a.ccacheUp == SavedUpdate(cfg, events)
    && a.krbcfgUp == ConfIn(events)
    && a.started == StartedIn(cfg, events)
    && a.client == (if RunningIn(cfg, events) then Some(a.started - 1) else None)
    && a.login == a.client
    && a.loginState == LoginIn(cfg, events)
  }

  // ---------------------------------------------------------------- the handlers follow the definitions

  lemma AppendParts(events: seq<Event>, e: Event)
    ensures events + [e] != [] && Front(events + [e]) == events && Last(events + [e]) == e
  {
  }

  lemma {:induction false} SavedHasCCache(cfg: Settings, events: seq<Event>)
    requires AllValid(events)
    ensures SavedUpdate(cfg, events).Some? ==> SavedUpdate(cfg, events).value.ccache.Some?
  {
    if events != [] {
      FrontValid(events);
      SavedHasCCache(cfg, Front(events));
    }
  }

  lemma UsableIs(cfg: Settings, a: Agent, events: seq<Event>)
    requires AllValid(events) && a.ccacheUp == SavedUpdate(cfg, events) && a.krbcfgUp == ConfIn(events)
    ensures Usable(a) <==> EquippedIn(cfg, events)
  {
    SavedHasCCache(cfg, events);
  }

  /** Every event but a ccache update leaves what is remembered of the ccaches. */
  lemma SameTickets(cfg: Settings, events: seq<Event>, e: Event)
    requires AllValid(events) && ValidEvent(e) && !e.CCacheUp?
    ensures AllValid(events + [e])
    ensures LatestTGT(cfg, events + [e]) == LatestTGT(cfg, events) && SavedUpdate(cfg, events + [e]) == SavedUpdate(cfg, events)
  {
    assert (events + [e])[..|events|] == events;
  }

  lemma StopIs(cfg: Settings, a: Agent)
    ensures var b := StopClient(cfg, a).a;
            && SameSaved(a, b) && b.started == a.started && b.client.None?
            && (if a.client.None? then b == a else b.login.None? && b.loginState == LoggedOut)
  {
  }

  lemma StartIs(a: Agent)
    ensures var b := StartClient(a).a;
            if a.client.None? && Usable(a) then b == a.(client := Some(a.started), login := Some(a.started), started := a.started + 1)
            else b == a
  {
  }

  lemma NetworkIs(cfg: Settings, a: Agent, r: bool)
    ensures var b := SetTrustedNetwork(cfg, a, r).a; b == a.(trustedNetwork := if r then Trusted else NotTrusted)
  {
  }

  lemma TNDIsAfter(cfg: Settings, a: Agent, events: seq<Event>, r: bool)
    requires AllValid(events) && IsAfter(cfg, a, events)
    ensures AllValid(events + [TND(r)]) && IsAfter(cfg, HandleTNDResult(cfg, a, r).a, events + [TND(r)])
  {
    var all := events + [TND(r)];
    var b := SetTrustedNetwork(cfg, a, r).a;
    AppendParts(events, TND(r));
    SameTickets(cfg, events, TND(r));
    NetworkIs(cfg, a, r);
    StartIs(b);
    StopIs(cfg, b);
    UsableIs(cfg, b, all);
  }

  lemma SleepIsAfter(cfg: Settings, a: Agent, events: seq<Event>, s: bool)
    requires AllValid(events) && IsAfter(cfg, a, events)
    ensures AllValid(events + [Sleep(s)]) && IsAfter(cfg, HandleSleepEvent(cfg, a, s).a, events + [Sleep(s)])
  {
    AppendParts(events, Sleep(s));
    SameTickets(cfg, events, Sleep(s));
    NetworkIs(cfg, a, false);
    StopIs(cfg, SetTrustedNetwork(cfg, a, false).a);
  }

  lemma ShutdownIsAfter(cfg: Settings, a: Agent, events: seq<Event>)
    requires AllValid(events) && IsAfter(cfg, a, events)
    ensures AllValid(events + [Shutdown]) && IsAfter(cfg, StopClient(cfg, a).a, events + [Shutdown])
  {
    AppendParts(events, Shutdown);
    SameTickets(cfg, events, Shutdown);
    StopIs(cfg, a);
  }

  lemma ReLoginIsAfter(cfg: Settings, a: Agent, events: seq<Event>, q: nat)
    requires AllValid(events) && IsAfter(cfg, a, events)
    ensures AllValid(events + [ReLogin(q)]) && IsAfter(cfg, HandleReLogin(cfg, a, q).a, events + [ReLogin(q)])
  {
    var all := events + [ReLogin(q)];
    AppendParts(events, ReLogin(q));
    SameTickets(cfg, events, ReLogin(q));
    var b := StopClient(cfg, a).a;
    StopIs(cfg, a);
    StartIs(b);
    UsableIs(cfg, b, all);
  }

  lemma LoginResultIs(cfg: Settings, a: Agent, l: LoginState, now: int)
    ensures var b := HandleLoginResult(cfg, a, l, now).a;
            b == a.(loginState := l, loggedIn := b.loggedIn, lastKeepAlive := if l == LoggedIn then now else a.lastKeepAlive)
  {
  }

  lemma LoginResultIsAfter(cfg: Settings, a: Agent, events: seq<Event>, l: LoginState, now: int)
    requires AllValid(events) && IsAfter(cfg, a, events)
    ensures AllValid(events + [LoginResult(l, now)])
    ensures IsAfter(cfg, HandleLoginResult(cfg, a, l, now).a, events + [LoginResult(l, now)])
  {
    AppendParts(events, LoginResult(l, now));
    SameTickets(cfg, events, LoginResult(l, now));
    LoginResultIs(cfg, a, l, now);
  }

  lemma ConfIsAfter(cfg: Settings, a: Agent, events: seq<Event>, u: ConfUpdate)
    requires AllValid(events) && IsAfter(cfg, a, events)
    ensures AllValid(events + [ConfUp(u)]) && IsAfter(cfg, SaveConf(a, u).a, events + [ConfUp(u)])
  {
    var all := events + [ConfUp(u)];
    var b := a.(krbcfgUp := Some(u));
    AppendParts(events, ConfUp(u));
    SameTickets(cfg, events, ConfUp(u));
    StartIs(b);
    UsableIs(cfg, b, all);
  }

  lemma SourceIsAfter(cfg: Settings, a: Agent, events: seq<Event>, source: Source)
    requires AllValid(events) && IsAfter(cfg, a, events)
    ensures AllValid(events + [SourceClosed(source)]) && IsAfter(cfg, a, events + [SourceClosed(source)])
  {
    AppendParts(events, SourceClosed(source));
    SameTickets(cfg, events, SourceClosed(source));
  }

  /** What a ccache update does to what is remembered of the ccaches. */
  lemma NextTickets(cfg: Settings, events: seq<Event>, u: CCacheUpdate)
    requires AllValid(events) && u.ccache.Some?
    ensures AllValid(events + [CCacheUp(u)])
    ensures var all, tgt := events + [CCacheUp(u)], GetTGT(u, cfg.realm);
            if tgt.None? || tgt.value == LatestTGT(cfg, events) then
              LatestTGT(cfg, all) == LatestTGT(cfg, events) && SavedUpdate(cfg, all) == SavedUpdate(cfg, events)
            else LatestTGT(cfg, all) == tgt.value && SavedUpdate(cfg, all) == Some(u)
  {
    assert (events + [CCacheUp(u)])[..|events|] == events;
  }

  lemma CCacheIsAfter(cfg: Settings, a: Agent, events: seq<Event>, u: CCacheUpdate)
    requires AllValid(events) && u.ccache.Some? && IsAfter(cfg, a, events)
    ensures AllValid(events + [CCacheUp(u)]) && IsAfter(cfg, HandleCCacheUpdate(cfg, a, u).a, events + [CCacheUp(u)])
  {
    var all, tgt := events + [CCacheUp(u)], GetTGT(u, cfg.realm);
    AppendParts(events, CCacheUp(u));
    NextTickets(cfg, events, u);
    if tgt.Some? && tgt.value != a.kerberosTGT {
      var b := a.(kerberosTGT := tgt.value, ccacheUp := Some(u));
      StartIs(b);
      UsableIs(cfg, b, all);
    }
  }

  lemma HandleIsAfter(cfg: Settings, a: Agent, events: seq<Event>, e: Event)
    requires AllValid(events) && ValidEvent(e) && IsAfter(cfg, a, events)
    ensures AllValid(events + [e]) && IsAfter(cfg, Handle(cfg, a, e).a, events + [e])
  {
    match e
    case TND(r) => TNDIsAfter(cfg, a, events, r);
    case LoginResult(l, now) => LoginResultIsAfter(cfg, a, events, l, now);
    case CCacheUp(u) => CCacheIsAfter(cfg, a, events, u);
    case ConfUp(u) => ConfIsAfter(cfg, a, events, u);
    case ReLogin(q) => ReLoginIsAfter(cfg, a, events, q);
    case Sleep(s) => SleepIsAfter(cfg, a, events, s);
    case Shutdown => ShutdownIsAfter(cfg, a, events);
    case SourceClosed(source) => SourceIsAfter(cfg, a, events, source);
  }

  /** After Start and any history of events, every field is what its definition over the events says. */
  lemma {:induction false} AgentIsItsHistory(cfg: Settings, events: seq<Event>)
    requires AllValid(events)
    ensures IsAfter(cfg, HandleAll(cfg, events).a, events)
  {
    if events != [] {
      FrontValid(events);
      AgentIsItsHistory(cfg, Front(events));
      assert events == Front(events) + [Last(events)];
      HandleIsAfter(cfg, HandleAll(cfg, Front(events)).a, Front(events), Last(events));
    }
  }

  /** Until the first TND result that says trusted, the network is not trusted and no client is started. */
  lemma {:induction false} NothingBeforeTrust(cfg: Settings, events: seq<Event>)
    requires AllValid(events) && TND(true) !in events
    ensures !TrustedIn(events) && !RunningIn(cfg, events) && StartedIn(cfg, events) == 0
  {
    if events != [] {
      FrontValid(events);
      assert Last(events) in events;
      NothingBeforeTrust(cfg, Front(events));
    }
  }
}
