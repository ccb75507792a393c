/**
  Everything the agent publishes and every network notice it gives, as sequences determined by the events
  it has taken.
 */
module PublishedHistory {
  import opened Status
  import opened Settings
  import opened Kerberos
  import opened Options
  import opened Handlers
  import opened KerberosHistory
  import opened AgentHistory

  function PublishedBy(e: Effect, p: Property): seq<Value> {
    if e.Publish? && e.update.name == p then [e.update.value] else []
  }

  function NoticedBy(e: Effect): seq<bool> {
    if e.NotifyNetwork? then [e.trusted] else []
  }

  /** The values that the first n calls publish for a property, in order. */
  function PublishedTo(es: seq<Effect>, n: nat, p: Property): seq<Value>
    requires n <= |es|
  {
    if n == 0 then [] else PublishedTo(es, n - 1, p) + PublishedBy(es[n - 1], p)
  }

  /** The network notices that the first n calls give to the user, true for a trusted network. */
  function NoticesTo(es: seq<Effect>, n: nat): seq<bool>
    requires n <= |es|
  {
    if n == 0 then [] else NoticesTo(es, n - 1) + NoticedBy(es[n - 1])
  }

  function PublishedValues(es: seq<Effect>, p: Property): seq<Value> { PublishedTo(es, |es|, p) }

  function NetworkNotices(es: seq<Effect>): seq<bool> { NoticesTo(es, |es|) }

  /** The calls publish vs for a property and give the network notices ns. */
  ghost predicate Says(es: seq<Effect>, p: Property, vs: seq<Value>, ns: seq<bool>) {
    PublishedValues(es, p) == vs && NetworkNotices(es) == ns
  }

  // ---------------------------------------------------------------- from the events alone

  /** The network at the start and at every change. */
  function NetworkChanges(events: seq<Event>): seq<bool> {
    if events == [] then [false]
    else
      NetworkChanges(Front(events)) +
      if TrustedIn(events) != TrustedIn(Front(events)) then [TrustedIn(events)] else []
  }

  /** What the last event has published for a property. */
  function Next(cfg: Settings, events: seq<Event>, p: Property): seq<Value>
    requires AllValid(events) && events != []
  {
    match p
    case PropConfig => []
    case PropTrustedNetwork =>
      if TrustedIn(events) != TrustedIn(Front(events)) then [Code(if TrustedIn(events) then 2 else 1)] else []
    case PropLoginState =>
      var before := LoginIn(cfg, Front(events));
      if Last(events).LoginResult? then
        if Last(events).state != before then [Code(LoginCode(Last(events).state))] else []
      else if StopsIn(cfg, events) then
        if before != LoggingOut then [Code(4), Code(1)] else [Code(1)]
      else []
    case PropLastKeepAliveAt =>
      if LastKeepAliveIn(events) != LastKeepAliveIn(Front(events)) then [Stamp(LastKeepAliveIn(events))] else []
    case PropTGTStart => if NewTimes(cfg, events) then [Stamp(LatestTGT(cfg, events).startTime)] else []
    case PropTGTEnd => if NewTimes(cfg, events) then [Stamp(LatestTGT(cfg, events).endTime)] else []
  }

  /** All that has been published for a property after Start and the events. */
  function AllNext(cfg: Settings, events: seq<Event>, p: Property): seq<Value>
    requires AllValid(events)
  {
    if events == [] then
      match p
      case PropConfig => [Text(cfg.json)]
      case PropTrustedNetwork => [Code(1)]
      case PropLoginState => [Code(1)]
      case _ => []
    else AllNext(cfg, Front(events), p) + Next(cfg, events, p)
  }

  // ---------------------------------------------------------------- what each part of a handler says

  lemma {:induction false} FirstSays(xs: seq<Effect>, ys: seq<Effect>, n: nat, p: Property)
    requires n <= |xs|
    ensures PublishedTo(xs + ys, n, p) == PublishedTo(xs, n, p) && NoticesTo(xs + ys, n) == NoticesTo(xs, n)
  {
    if n > 0 {
      FirstSays(xs, ys, n - 1, p);
    }
  }

  lemma Grouped<T>(xs: seq<T>, ys: seq<T>, zs: seq<T>)
    ensures xs + ys + zs == xs + (ys + zs)
  {
  }

  lemma StepTo(es: seq<Effect>, n: nat, p: Property)
    requires n < |es|
    ensures PublishedTo(es, n + 1, p) == PublishedTo(es, n, p) + PublishedBy(es[n], p)
    ensures NoticesTo(es, n + 1) == NoticesTo(es, n) + NoticedBy(es[n])
  {
  }

  /** The calls xs and the first n of ys say what the two parts say. */
  ghost predicate Splits(xs: seq<Effect>, ys: seq<Effect>, n: nat, p: Property)
    requires n <= |ys|
  {
    && PublishedTo(xs + ys, |xs| + n, p) == PublishedValues(xs, p) + PublishedTo(ys, n, p)
    && NoticesTo(xs + ys, |xs| + n) == NetworkNotices(xs) + NoticesTo(ys, n)
  }

  lemma SplitsFirst(xs: seq<Effect>, ys: seq<Effect>, p: Property)
    ensures Splits(xs, ys, 0, p)
  {
    FirstSays(xs, ys, |xs|, p);
  }

  lemma SplitsNext(xs: seq<Effect>, ys: seq<Effect>, n: nat, p: Property)
    requires n < |ys| && Splits(xs, ys, n, p)
    ensures Splits(xs, ys, n + 1, p)
  {
    var e := ys[n];
    StepTo(xs + ys, |xs| + n, p);
    StepTo(ys, n, p);
    assert (xs + ys)[|xs| + n] == e;
    Grouped(PublishedValues(xs, p), PublishedTo(ys, n, p), PublishedBy(e, p));
    Grouped(NetworkNotices(xs), NoticesTo(ys, n), NoticedBy(e));
  }

  lemma {:induction false} SplitsTo(xs: seq<Effect>, ys: seq<Effect>, n: nat, p: Property)
    requires n <= |ys|
    ensures Splits(xs, ys, n, p)
  {
    if n == 0 {
      SplitsFirst(xs, ys, p);
    } else {
      SplitsTo(xs, ys, n - 1, p);
      SplitsNext(xs, ys, n - 1, p);
    }
  }

  lemma ConcatSays(xs: seq<Effect>, ys: seq<Effect>, p: Property, vs: seq<Value>, ns: seq<bool>, ws: seq<Value>, ms: seq<bool>)
    requires Says(xs, p, vs, ns) && Says(ys, p, ws, ms)
    ensures Says(xs + ys, p, vs + ws, ns + ms)
  {
    SplitsTo(xs, ys, |ys|, p);
  }

  /** Two computations in a row. */
  lemma BothSay(o1: Out, o2: Out, p: Property, vs: seq<Value>, ns: seq<bool>, ws: seq<Value>, ms: seq<bool>)
    requires Says(o1.es, p, vs, ns) && Says(o2.es, p, ws, ms)
    ensures Says(Both(o1, o2).es, p, vs + ws, ns + ms)
  {
    ConcatSays(o1.es, o2.es, p, vs, ns, ws, ms);
  }

  /** A computation followed by one without network notices. */
  lemma ThenPublishes(o1: Out, o2: Out, p: Property, vs: seq<Value>, ns: seq<bool>, ws: seq<Value>)
    requires Says(o1.es, p, vs, ns) && Says(o2.es, p, ws, [])
    ensures Says(Both(o1, o2).es, p, vs + ws, ns)
  {
    BothSay(o1, o2, p, vs, ns, ws, []);
    assert ns + [] == ns;
  }

  /** A computation followed by one that says nothing. */
  lemma ThenSilent(o1: Out, o2: Out, p: Property, vs: seq<Value>, ns: seq<bool>)
    requires Says(o1.es, p, vs, ns) && Says(o2.es, p, [], [])
    ensures Says(Both(o1, o2).es, p, vs, ns)
  {
    BothSay(o1, o2, p, vs, ns, [], []);
    assert vs + [] == vs && ns + [] == ns;
  }

  lemma {:induction false} SilentTo(es: seq<Effect>, n: nat, p: Property)
    requires n <= |es| && forall e | e in es :: !e.Publish? && !e.NotifyNetwork?
    ensures PublishedTo(es, n, p) == [] && NoticesTo(es, n) == []
  {
    if n > 0 {
      SilentTo(es, n - 1, p);
    }
  }

  lemma SilentSays(es: seq<Effect>, p: Property)
    requires forall e | e in es :: !e.Publish? && !e.NotifyNetwork?
    ensures Says(es, p, [], [])
  {
    SilentTo(es, |es|, p);
  }

  /** The values of an update for a property. */
  function Of(u: Update, p: Property): seq<Value> { if u.name == p then [u.value] else [] }

  lemma OneSays(e: Effect, p: Property)
    ensures Says([e], p, PublishedBy(e, p), NoticedBy(e))
  {
    assert PublishedTo([e], 1, p) == PublishedTo([e], 0, p) + PublishedBy(e, p);
    assert NoticesTo([e], 1) == NoticesTo([e], 0) + NoticedBy(e);
  }

  lemma UpdateSays(u: Update, p: Property)
    ensures Says([Publish(u)], p, Of(u, p), [])
  {
    OneSays(Publish(u), p);
  }

  function NetworkSaid(changed: bool, r: bool, p: Property): seq<Value> {
    if changed && p == PropTrustedNetwork then [Code(if r then 2 else 1)] else []
  }

  lemma NetworkSays(cfg: Settings, a: Agent, r: bool, p: Property)
    ensures var changed := a.trustedNetwork != if r then Trusted else NotTrusted;
            Says(SetTrustedNetwork(cfg, a, r).es, p, NetworkSaid(changed, r, p), if changed && cfg.notifications then [r] else [])
  {
    var t := NetworkOf(r);
    if t == a.trustedNetwork {
      SilentSays([], p);
    } else {
      UpdateSays(NetworkUpdate(t), p);
      if cfg.notifications {
        OneSays(NotifyNetwork(r), p);
        ConcatSays([NotifyNetwork(r)], [Publish(NetworkUpdate(t))], p, [], [r], Of(NetworkUpdate(t), p), []);
        assert [] + Of(NetworkUpdate(t), p) == Of(NetworkUpdate(t), p) && [r] + [] == [r];
      } else {
        assert [] + [Publish(NetworkUpdate(t))] == [Publish(NetworkUpdate(t))];
      }
    }
  }

  function LoginSaid(l: LoginState, before: LoginState, p: Property): seq<Value> {
    if l != before && p == PropLoginState then [Code(LoginCode(l))] else []
  }

  lemma LoginSays(cfg: Settings, a: Agent, l: LoginState, p: Property)
    ensures Says(SetLoginState(cfg, a, l).es, p, LoginSaid(l, a.loginState, p), [])
  {
    if l == a.loginState {
      SilentSays([], p);
    } else {
      var es := SwitchLogin(cfg, a, l).es;
      SilentSays(es, p);
      UpdateSays(LoginUpdate(l), p);
      ConcatSays(es, [Publish(LoginUpdate(l))], p, [], [], Of(LoginUpdate(l), p), []);
      assert [] + Of(LoginUpdate(l), p) == LoginSaid(l, a.loginState, p);
    }
  }

  lemma KeepAliveSays(a: Agent, now: int, p: Property)
    ensures Says(SetLastKeepAlive(a, now).es, p, if now != a.lastKeepAlive then Of(KeepAliveUpdate(now), p) else [], [])
  {
    SilentSays([], p);
    UpdateSays(KeepAliveUpdate(now), p);
  }

  function TGTSaid(t: KerberosTicket, p: Property): seq<Value> {
    if p == PropTGTStart then [Stamp(t.startTime)] else if p == PropTGTEnd then [Stamp(t.endTime)] else []
  }

  lemma TGTSays(a: Agent, t: KerberosTicket, p: Property)
    requires t != a.kerberosTGT
    ensures Says(SetKerberosTGT(a, t.startTime, t.endTime).es, p, TGTSaid(t, p), [])
  {
    var u, v := TGTStartUpdate(t.startTime), TGTEndUpdate(t.endTime);
    assert SetKerberosTGT(a, t.startTime, t.endTime).es == [Publish(u)] + [Publish(v)];
    UpdateSays(u, p);
    UpdateSays(v, p);
    ConcatSays([Publish(u)], [Publish(v)], p, Of(u, p), [], Of(v, p), []);
    assert Of(u, p) + Of(v, p) == TGTSaid(t, p);
  }

  function StopSaid(running: bool, before: LoginState, p: Property): seq<Value> {
    if !running || p != PropLoginState then [] else if before != LoggingOut then [Code(4), Code(1)] else [Code(1)]
  }

  lemma StopSays(cfg: Settings, a: Agent, p: Property)
    ensures Says(StopClient(cfg, a).es, p, StopSaid(a.client.Some?, a.loginState, p), [])
  {
    if a.client.None? {
      SilentSays([], p);
    } else {
      var o1, mid, o2 := StopParts(cfg, a);
      var vs, ws := LoginSaid(LoggingOut, a.loginState, p), LoginSaid(LoggedOut, LoggingOut, p);
      SilentSays(mid.es, p);
      LoginSays(cfg, a, LoggingOut, p);
      LoginSays(cfg, mid.a, LoggedOut, p);
      ThenSilent(o1, mid, p, vs, []);
      ThenPublishes(Both(o1, mid), o2, p, vs, [], ws);
      StopSaidIs(a.loginState, p);
    }
  }

  lemma StopSaidIs(before: LoginState, p: Property)
    ensures LoginSaid(LoggingOut, before, p) + LoginSaid(LoggedOut, LoggingOut, p) == StopSaid(true, before, p)
  {
  }

  lemma StopParts(cfg: Settings, a: Agent) returns (o1: Out, mid: Out, o2: Out)
    requires a.client.Some?
    ensures StopClient(cfg, a) == Both(Both(o1, mid), o2)
    ensures o1 == SetLoginState(cfg, a, LoggingOut) && o2 == SetLoginState(cfg, mid.a, LoggedOut)
    ensures mid.a.loginState == LoggingOut && forall e | e in mid.es :: !e.Publish? && !e.NotifyNetwork?
  {
    o1 := SetLoginState(cfg, a, LoggingOut);
    mid := Out(o1.a.(client := None, login := None), [CloseDone(a.client.value), Joined(a.client.value)]);
    o2 := SetLoginState(cfg, mid.a, LoggedOut);
  }

  // ---------------------------------------------------------------- the handlers

  /** The notice that the last event gives. */
  function NextNotice(cfg: Settings, events: seq<Event>): seq<bool>
    requires events != []
  {
    if cfg.notifications && TrustedIn(events) != TrustedIn(Front(events)) then [TrustedIn(events)] else []
  }

  /** What a handler says is what its event adds to the history. */
  ghost predicate Adds(cfg: Settings, es: seq<Effect>, events: seq<Event>, p: Property)
    requires AllValid(events) && events != []
  {
    Says(es, p, Next(cfg, events, p), NextNotice(cfg, events))
  }

  lemma TNDSays(cfg: Settings, a: Agent, r: bool, p: Property)
    ensures var changed := a.trustedNetwork != if r then Trusted else NotTrusted;
            Says(HandleTNDResult(cfg, a, r).es, p, NetworkSaid(changed, r, p) + StopSaid(!r && a.client.Some?, a.loginState, p),
                 if changed && cfg.notifications then [r] else [])
  {
    var changed := a.trustedNetwork != if r then Trusted else NotTrusted;
    var o1 := SetTrustedNetwork(cfg, a, r);
    var o2 := if r then StartClient(o1.a) else StopClient(cfg, o1.a);
    var ns := if changed && cfg.notifications then [r] else [];
    NetworkIs(cfg, a, r);
    NetworkSays(cfg, a, r, p);
    if r {
      SilentSays(o2.es, p);
    } else {
      StopSays(cfg, o1.a, p);
    }
    ThenPublishes(o1, o2, p, NetworkSaid(changed, r, p), ns, StopSaid(!r && a.client.Some?, a.loginState, p));
  }

  /** What an untrusted or trusted network adds to the history. */
  lemma NextOfNetwork(cfg: Settings, events: seq<Event>, e: Event, r: bool, p: Property)
    requires AllValid(events) && AllValid(events + [e]) && (e == TND(r) || (e == Sleep(true) && !r))
    ensures var all := events + [e];
            && Next(cfg, all, p) == NetworkSaid(r != TrustedIn(events), r, p) + StopSaid(!r && RunningIn(cfg, events), LoginIn(cfg, events), p)
            && NextNotice(cfg, all) == if r != TrustedIn(events) && cfg.notifications then [r] else []
  {
    AppendParts(events, e);
    SameTickets(cfg, events, e);
  }

  lemma TNDAdds(cfg: Settings, a: Agent, events: seq<Event>, r: bool, p: Property)
    requires AllValid(events) && IsAfter(cfg, a, events)
    ensures AllValid(events + [TND(r)]) && Adds(cfg, HandleTNDResult(cfg, a, r).es, events + [TND(r)], p)
  {
    SameTickets(cfg, events, TND(r));
    NextOfNetwork(cfg, events, TND(r), r, p);
    TNDSays(cfg, a, r, p);
  }

  lemma SleepAdds(cfg: Settings, a: Agent, events: seq<Event>, s: bool, p: Property)
    requires AllValid(events) && IsAfter(cfg, a, events)
    ensures AllValid(events + [Sleep(s)]) && Adds(cfg, HandleSleepEvent(cfg, a, s).es, events + [Sleep(s)], p)
  {
    SameTickets(cfg, events, Sleep(s));
    if s {
      NextOfNetwork(cfg, events, Sleep(true), false, p);
      assert HandleSleepEvent(cfg, a, true) == HandleTNDResult(cfg, a, false);
      TNDSays(cfg, a, false, p);
    } else {
      AppendParts(events, Sleep(false));
      SilentSays([], p);
    }
  }

  lemma ShutdownAdds(cfg: Settings, a: Agent, events: seq<Event>, p: Property)
    requires AllValid(events) && IsAfter(cfg, a, events)
    ensures AllValid(events + [Shutdown]) && Adds(cfg, StopClient(cfg, a).es, events + [Shutdown], p)
  {
    AppendParts(events, Shutdown);
    SameTickets(cfg, events, Shutdown);
    StopSays(cfg, a, p);
  }

  lemma ReLoginSays(cfg: Settings, a: Agent, q: nat, p: Property)
    ensures Says(HandleReLogin(cfg, a, q).es, p, StopSaid(a.trustedNetwork == Trusted && a.client.Some?, a.loginState, p), [])
  {
    if a.trustedNetwork != Trusted {
      SilentSays([Reply(q, false)], p);
    } else {
      var o1 := StopClient(cfg, a);
      var o2 := StartClient(o1.a);
      var reply := Out(o2.a, [Reply(q, true)]);
      var vs := StopSaid(a.client.Some?, a.loginState, p);
      StopSays(cfg, a, p);
      SilentSays(o2.es, p);
      ThenSilent(o1, o2, p, vs, []);
      SilentSays(reply.es, p);
      ThenSilent(Both(o1, o2), reply, p, vs, []);
    }
  }

  lemma ReLoginAdds(cfg: Settings, a: Agent, events: seq<Event>, q: nat, p: Property)
    requires AllValid(events) && IsAfter(cfg, a, events)
    ensures AllValid(events + [ReLogin(q)]) && Adds(cfg, HandleReLogin(cfg, a, q).es, events + [ReLogin(q)], p)
  {
    AppendParts(events, ReLogin(q));
    SameTickets(cfg, events, ReLogin(q));
    ReLoginSays(cfg, a, q, p);
  }

  lemma LoginResultSays(cfg: Settings, a: Agent, l: LoginState, now: int, p: Property)
    ensures Says(HandleLoginResult(cfg, a, l, now).es, p,
                 LoginSaid(l, a.loginState, p) + (if l == LoggedIn && now != a.lastKeepAlive then Of(KeepAliveUpdate(now), p) else []), [])
  {
    var o1 := SetLoginState(cfg, a, l);
    var vs := LoginSaid(l, a.loginState, p);
    LoginSays(cfg, a, l, p);
    if l == LoggedIn {
      KeepAliveSays(o1.a, now, p);
      ThenPublishes(o1, SetLastKeepAlive(o1.a, now), p, vs, [], if now != a.lastKeepAlive then Of(KeepAliveUpdate(now), p) else []);
    } else {
      assert vs + [] == vs;
    }
  }

  lemma LoginResultAdds(cfg: Settings, a: Agent, events: seq<Event>, l: LoginState, now: int, p: Property)
    requires AllValid(events) && IsAfter(cfg, a, events)
    ensures AllValid(events + [LoginResult(l, now)])
    ensures Adds(cfg, HandleLoginResult(cfg, a, l, now).es, events + [LoginResult(l, now)], p)
  {
    AppendParts(events, LoginResult(l, now));
    SameTickets(cfg, events, LoginResult(l, now));
    LoginResultSays(cfg, a, l, now, p);
  }

  lemma SilentAdds(cfg: Settings, events: seq<Event>, e: Event, es: seq<Effect>, p: Property)
    requires AllValid(events) && (e.ConfUp? || e.SourceClosed?)
    requires forall x | x in es :: !x.Publish? && !x.NotifyNetwork?
    ensures AllValid(events + [e]) && Adds(cfg, es, events + [e], p)
  {
    AppendParts(events, e);
    SameTickets(cfg, events, e);
    SilentSays(es, p);
  }

  lemma CCacheSays(cfg: Settings, a: Agent, u: CCacheUpdate, p: Property)
    requires u.ccache.Some?
    ensures var tgt := GetTGT(u, cfg.realm);
            Says(HandleCCacheUpdate(cfg, a, u).es, p, if tgt.Some? && tgt.value != a.kerberosTGT then TGTSaid(tgt.value, p) else [], [])
  {
    var tgt := GetTGT(u, cfg.realm);
    if tgt.Some? && tgt.value != a.kerberosTGT {
      var o1 := SetKerberosTGT(a, tgt.value.startTime, tgt.value.endTime);
      TGTSays(a, tgt.value, p);
      SilentSays(SaveCCache(o1.a, u).es, p);
      ThenSilent(o1, SaveCCache(o1.a, u), p, TGTSaid(tgt.value, p), []);
    } else {
      SilentSays([], p);
    }
  }

  lemma CCacheAdds(cfg: Settings, a: Agent, events: seq<Event>, u: CCacheUpdate, p: Property)
    requires AllValid(events) && u.ccache.Some? && IsAfter(cfg, a, events)
    ensures AllValid(events + [CCacheUp(u)]) && Adds(cfg, HandleCCacheUpdate(cfg, a, u).es, events + [CCacheUp(u)], p)
  {
    AppendParts(events, CCacheUp(u));
    NextTickets(cfg, events, u);
    NextOfCCache(cfg, events, u, p);
    CCacheSays(cfg, a, u, p);
  }

  lemma NextOfCCache(cfg: Settings, events: seq<Event>, u: CCacheUpdate, p: Property)
    requires AllValid(events) && u.ccache.Some? && AllValid(events + [CCacheUp(u)])
    ensures var all, tgt := events + [CCacheUp(u)], GetTGT(u, cfg.realm);
            && Next(cfg, all, p) == (if tgt.Some? && tgt.value != LatestTGT(cfg, events) then TGTSaid(tgt.value, p) else [])
            && NextNotice(cfg, all) == []
  {
    AppendParts(events, CCacheUp(u));
    NextTickets(cfg, events, u);
  }

  lemma HandleAdds(cfg: Settings, a: Agent, events: seq<Event>, e: Event, p: Property)
    requires AllValid(events) && ValidEvent(e) && IsAfter(cfg, a, events)
    ensures AllValid(events + [e]) && Adds(cfg, Handle(cfg, a, e).es, events + [e], p)
  {
    match e
    case TND(r) => TNDAdds(cfg, a, events, r, p);
    case LoginResult(l, now) => LoginResultAdds(cfg, a, events, l, now, p);
    case CCacheUp(u) => CCacheAdds(cfg, a, events, u, p);
    case ConfUp(u) => SilentAdds(cfg, events, e, SaveConf(a, u).es, p);
    case ReLogin(q) => ReLoginAdds(cfg, a, events, q, p);
    case Sleep(s) => SleepAdds(cfg, a, events, s, p);
    case Shutdown => ShutdownAdds(cfg, a, events, p);
    case SourceClosed(_) => SilentAdds(cfg, events, e, [], p);
  }

  lemma BootParts(cfg: Settings) returns (o1: Out, o2: Out, o3: Out)
    ensures Boot(cfg) == Both(Both(o1, o2), o3)
    ensures o1 == SetTrustedNetwork(cfg, NEW_AGENT, false) && o2 == SetLoginState(cfg, o1.a, LoggedOut)
    ensures o1.a.loginState == LoginUnknown && o3.es == [Publish(ConfigUpdate(cfg))]
  {
    o1 := SetTrustedNetwork(cfg, NEW_AGENT, false);
    o2 := SetLoginState(cfg, o1.a, LoggedOut);
    o3 := Out(o2.a, [Publish(ConfigUpdate(cfg))]);
  }

  lemma BootSays(cfg: Settings, p: Property)
    ensures Says(Boot(cfg).es, p, AllNext(cfg, [], p), if cfg.notifications then [false] else [])
  {
    var o1, o2, o3 := BootParts(cfg);
    var ns := if cfg.notifications then [false] else [];
    var vs, ws, us := NetworkSaid(true, false, p), LoginSaid(LoggedOut, LoginUnknown, p), Of(ConfigUpdate(cfg), p);
    NetworkSays(cfg, NEW_AGENT, false, p);
    LoginSays(cfg, o1.a, LoggedOut, p);
    UpdateSays(ConfigUpdate(cfg), p);
    ThenPublishes(o1, o2, p, vs, ns, ws);
    ThenPublishes(Both(o1, o2), o3, p, vs + ws, ns, us);
    FirstNext(cfg, p);
  }

  lemma FirstNext(cfg: Settings, p: Property)
    ensures NetworkSaid(true, false, p) + LoginSaid(LoggedOut, LoginUnknown, p) + Of(ConfigUpdate(cfg), p) == AllNext(cfg, [], p)
  {
  }

  /** All that is said after Start and a history of events. */
  ghost predicate SaysAll(cfg: Settings, events: seq<Event>, p: Property) {
    && AllValid(events)
    && Says(HandleAll(cfg, events).es, p, AllNext(cfg, events, p), if cfg.notifications then NetworkChanges(events) else [])
  }

  lemma FrontAndLast(events: seq<Event>)
    requires events != []
    ensures Front(events) + [Last(events)] == events
  {
  }

  lemma {:induction false} AllSay(cfg: Settings, events: seq<Event>, p: Property)
    requires AllValid(events)
    ensures SaysAll(cfg, events, p)
  {
    if events == [] {
      BootSays(cfg, p);
    } else {
      FrontValid(events);
      AllSay(cfg, Front(events), p);
      OneMoreSays(cfg, Front(events), Last(events), p);
      FrontAndLast(events);
    }
  }

  lemma OneMoreSays(cfg: Settings, before: seq<Event>, e: Event, p: Property)
    requires ValidEvent(e) && SaysAll(cfg, before, p)
    ensures SaysAll(cfg, before + [e], p)
  {
    var events := before + [e];
    var o := HandleAll(cfg, before);
    AgentIsItsHistory(cfg, before);
    HandleAllStep(cfg, before, e);
    HandleAdds(cfg, o.a, before, e, p);
    AppendParts(before, e);
    BothSay(o, Handle(cfg, o.a, e), p, AllNext(cfg, before, p), if cfg.notifications then NetworkChanges(before) else [],
            Next(cfg, events, p), NextNotice(cfg, events));
  }

  /**
    After Start and any history of events, the values published for each property, all of them and in
    order, are determined by the events, and the network notices are the network at the start and at every
    change, if notices are enabled.
   */
  lemma AllPublished(cfg: Settings, events: seq<Event>, p: Property)
    requires AllValid(events)
    ensures PublishedValues(HandleAll(cfg, events).es, p) == AllNext(cfg, events, p)
    ensures NetworkNotices(HandleAll(cfg, events).es) == if cfg.notifications then NetworkChanges(events) else []
  {
    AllSay(cfg, events, p);
  }
}
