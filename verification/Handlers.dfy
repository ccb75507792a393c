/**
  The agent's event handlers (internal/agent/agent.go) as functions that run to completion: each
  gives the fields afterwards and, in order, the calls made on the other components.
 */
module Handlers {
  import opened Options
  import opened Status
  import opened Kerberos
  import opened Settings

  /** The properties of the D-Bus service and the values they can have. */
  datatype Property = PropConfig | PropTrustedNetwork | PropLoginState | PropLastKeepAliveAt | PropTGTStart | PropTGTEnd

  datatype Value = Text(text: string) | Code(code: nat) | Stamp(stamp: int)

  datatype Update = Update(name: Property, value: Value)

  /** A call on another component; clients are numbered in the order they are created. */
  datatype Effect =
    | NotifyNetwork(trusted: bool)
    | NotifyLogin(loggedIn: bool)
    | Publish(update: Update)
    | Spawn(id: nat, ccache: Option<CCache>, conf: Option<KrbConf>)
    | CloseDone(id: nat)
    | Joined(id: nat)
    | GiveCCache(id: nat, ccache: Option<CCache>)
    | GiveConf(id: nat, conf: Option<KrbConf>)
    | Reply(request: nat, ok: bool)

  /** The fields of the agent; started counts the clients created so far. */
  datatype Agent = Agent(
    trustedNetwork: TrustedNetwork,
    loginState: LoginState,
    loggedIn: bool,
    lastKeepAlive: int,
    kerberosTGT: KerberosTicket,
    ccacheUp: Option<CCacheUpdate>,
    krbcfgUp: Option<ConfUpdate>,
    client: Option<nat>,
    login: Option<nat>,
    started: nat)

  /** The zero value that NewAgent returns. */
  const NEW_AGENT := Agent(NetworkUnknown, LoginUnknown, false, 0, KerberosTicket(0, 0), None, None, None, None, 0)

  /** The event sources whose channels the main loop selects on. */
  datatype Source = TNDSource | LoginSource | CCacheSource | ConfSource | RequestSource | SleepSource

  datatype Event =
    | TND(trusted: bool)
    | LoginResult(state: LoginState, now: int)
    | CCacheUp(ccache: CCacheUpdate)
    | ConfUp(conf: ConfUpdate)
    | ReLogin(request: nat)
    | Sleep(sleep: bool)
    | Shutdown
    | SourceClosed(source: Source)

  /** A ccache update is only sent with a ccache in it. */
  predicate ValidEvent(e: Event) {
    e.CCacheUp? ==> e.ccache.ccache.Some?
  }

  datatype Out = Out(a: Agent, es: seq<Effect>)

  function Quiet(a: Agent): Out { Out(a, []) }

  /** Two computations in a row. */
  function Both(o1: Out, o2: Out): Out { Out(o2.a, o1.es + o2.es) }

  // ---------------------------------------------------------------- setters

  function NetworkUpdate(t: TrustedNetwork): Update { Update(PropTrustedNetwork, Code(NetworkCode(t))) }
  function LoginUpdate(l: LoginState): Update { Update(PropLoginState, Code(LoginCode(l))) }
  function KeepAliveUpdate(t: int): Update { Update(PropLastKeepAliveAt, Stamp(t)) }
  function TGTStartUpdate(t: int): Update { Update(PropTGTStart, Stamp(t)) }
  function TGTEndUpdate(t: int): Update { Update(PropTGTEnd, Stamp(t)) }
  function ConfigUpdate(cfg: Settings): Update { Update(PropConfig, Text(cfg.json)) }

  function NetworkOf(trusted: bool): TrustedNetwork { if trusted then Trusted else NotTrusted }

  function NetworkNotice(cfg: Settings, t: TrustedNetwork): seq<Effect> {
    if cfg.notifications then [NotifyNetwork(t == Trusted)] else []
  }

  function SetTrustedNetwork(cfg: Settings, a: Agent, trusted: bool): Out {
    var t := NetworkOf(trusted);
    if t == a.trustedNetwork then Quiet(a)
    else Out(a.(trustedNetwork := t), NetworkNotice(cfg, t) + [Publish(NetworkUpdate(t))])
  }

  /** The field changes when the login state is set to l, with the notice for the user. */
  function SwitchLogin(cfg: Settings, a: Agent, l: LoginState): Out {
    var b := a.(loginState := l);
    var switched := (l == LoggedOut && a.loggedIn) || (l == LoggedIn && !a.loggedIn);
    if switched then Out(b.(loggedIn := !a.loggedIn), if cfg.notifications then [NotifyLogin(!a.loggedIn)] else [])
    else Quiet(b)
  }

  function SetLoginState(cfg: Settings, a: Agent, l: LoginState): Out {
    if l == a.loginState then Quiet(a)
    else
      var o := SwitchLogin(cfg, a, l);
      Out(o.a, o.es + [Publish(LoginUpdate(l))])
  }

  function SetLastKeepAlive(a: Agent, now: int): Out {
    if now == a.lastKeepAlive then Quiet(a)
    else Out(a.(lastKeepAlive := now), [Publish(KeepAliveUpdate(now))])
  }

  function SetKerberosTGT(a: Agent, start: int, end: int): Out {
    if start == a.kerberosTGT.startTime && end == a.kerberosTGT.endTime then Quiet(a)
    else Out(a.(kerberosTGT := KerberosTicket(start, end)), [Publish(TGTStartUpdate(start)), Publish(TGTEndUpdate(end))])
  }

  // ---------------------------------------------------------------- client start and stop

  /** A ccache and a krb5 config are saved and usable for a new client. */
  predicate Usable(a: Agent) {
    && a.ccacheUp.Some? && a.ccacheUp.value.ccache.Some?
    && a.krbcfgUp.Some? && a.krbcfgUp.value.config.Some?
  }

  function StartClient(a: Agent): Out {
    if a.client.Some? || !Usable(a) then Quiet(a)
    else
      Out(a.(client := Some(a.started), login := Some(a.started), started := a.started + 1),
          [Spawn(a.started, a.ccacheUp.value.ccache, a.krbcfgUp.value.config)])
  }

  function StopClient(cfg: Settings, a: Agent): Out {
    if a.client.None? then Quiet(a)
    else
      var o1 := SetLoginState(cfg, a, LoggingOut);
      var b := o1.a.(client := None, login := None);
      var o2 := SetLoginState(cfg, b, LoggedOut);
      Out(o2.a, o1.es + [CloseDone(a.client.value), Joined(a.client.value)] + o2.es)
  }

  // ---------------------------------------------------------------- handlers

  function HandleTNDResult(cfg: Settings, a: Agent, r: bool): Out {
    var o1 := SetTrustedNetwork(cfg, a, r);
    var o2 := if o1.a.trustedNetwork == Trusted then StartClient(o1.a) else StopClient(cfg, o1.a);
    Both(o1, o2)
  }

  function HandleLoginResult(cfg: Settings, a: Agent, r: LoginState, now: int): Out {
    var o1 := SetLoginState(cfg, a, r);
    if r == LoggedIn then
      var o2 := SetLastKeepAlive(o1.a, now);
      Both(o1, o2)
    else o1
  }

  /** Saving an update, handing it to a running client and starting one if now possible. */
  function SaveCCache(a: Agent, u: CCacheUpdate): Out {
    var b := a.(ccacheUp := Some(u));
    var given := if b.client.Some? then [GiveCCache(b.client.value, u.ccache)] else [];
    var o := if b.trustedNetwork == Trusted then StartClient(b) else Quiet(b);
    Out(o.a, given + o.es)
  }

  function SaveConf(a: Agent, u: ConfUpdate): Out {
    var b := a.(krbcfgUp := Some(u));
    var given := if b.client.Some? then [GiveConf(b.client.value, u.config)] else [];
    var o := if b.trustedNetwork == Trusted then StartClient(b) else Quiet(b);
    Out(o.a, given + o.es)
  }

  function HandleCCacheUpdate(cfg: Settings, a: Agent, u: CCacheUpdate): Out
    requires u.ccache.Some?
  {
    var tgt := GetTGT(u, cfg.realm);
    if tgt.None? || tgt.value == a.kerberosTGT then Quiet(a)
    else
      var o1 := SetKerberosTGT(a, tgt.value.startTime, tgt.value.endTime);
      var o2 := SaveCCache(o1.a, u);
      Both(o1, o2)
  }

  function HandleReLogin(cfg: Settings, a: Agent, q: nat): Out {
    if a.trustedNetwork != Trusted then Out(a, [Reply(q, false)])
    else
      var o1 := StopClient(cfg, a);
      var o2 := StartClient(o1.a);
      Out(o2.a, o1.es + o2.es + [Reply(q, true)])
  }

  function HandleSleepEvent(cfg: Settings, a: Agent, sleep: bool): Out {
    if !sleep then Quiet(a)
    else
      var o1 := SetTrustedNetwork(cfg, a, false);
      var o2 := StopClient(cfg, o1.a);
      Both(o1, o2)
  }

  /** One iteration of the main loop; a closed source ends the loop without stopping the client. */
  function Handle(cfg: Settings, a: Agent, e: Event): Out
    requires ValidEvent(e)
  {
    match e
    case TND(r) => HandleTNDResult(cfg, a, r)
    case LoginResult(r, now) => HandleLoginResult(cfg, a, r, now)
    case CCacheUp(u) => HandleCCacheUpdate(cfg, a, u)
    case ConfUp(u) => SaveConf(a, u)
    case ReLogin(q) => HandleReLogin(cfg, a, q)
    case Sleep(s) => HandleSleepEvent(cfg, a, s)
    case Shutdown => StopClient(cfg, a)
    case SourceClosed(_) => Quiet(a)
  }

  /** The fields that stopping and starting a client leave alone. */
  predicate SameSaved(a: Agent, b: Agent) {
    && b.trustedNetwork == a.trustedNetwork
    && b.lastKeepAlive == a.lastKeepAlive
    && b.kerberosTGT == a.kerberosTGT
    && b.ccacheUp == a.ccacheUp
    && b.krbcfgUp == a.krbcfgUp
  }

  /** After stopClient there is no client, and the saved inputs are as before. */
  lemma StopFrame(cfg: Settings, a: Agent)
    ensures var b := StopClient(cfg, a).a; SameSaved(a, b) && b.client.None? && (a.login == a.client ==> b.login.None?)
  {
  }

  lemma StartFrame(a: Agent)
    ensures var b := StartClient(a).a; SameSaved(a, b) && (a.login == a.client ==> b.login == b.client)
    ensures StartClient(a).a.client.Some? <==> a.client.Some? || Usable(a)
  {
  }

  /** How each event changes the saved inputs and what becomes of the client. */
  lemma NetworkFrame(cfg: Settings, a: Agent, r: bool)
    ensures SameSaved(a.(trustedNetwork := NetworkOf(r)), HandleTNDResult(cfg, a, r).a)
    ensures a.login == a.client ==> HandleTNDResult(cfg, a, r).a.login == HandleTNDResult(cfg, a, r).a.client
    ensures HandleTNDResult(cfg, a, r).a.client.Some? <==> r && (a.client.Some? || Usable(a))
    ensures HandleSleepEvent(cfg, a, true).a == HandleTNDResult(cfg, a, false).a
  {
    var b := SetTrustedNetwork(cfg, a, r).a;
    StopFrame(cfg, b);
    StartFrame(b);
  }

  lemma ReLoginFrame(cfg: Settings, a: Agent, q: nat)
    ensures SameSaved(a, HandleReLogin(cfg, a, q).a)
    ensures a.login == a.client ==> HandleReLogin(cfg, a, q).a.login == HandleReLogin(cfg, a, q).a.client
    ensures a.trustedNetwork == Trusted ==> (HandleReLogin(cfg, a, q).a.client.Some? <==> Usable(a))
    ensures a.trustedNetwork != Trusted ==> HandleReLogin(cfg, a, q).a == a
  {
    StopFrame(cfg, a);
    StartFrame(StopClient(cfg, a).a);
  }

  lemma LoginFrame(cfg: Settings, a: Agent, l: LoginState, now: int)
    ensures var b := HandleLoginResult(cfg, a, l, now).a;
            SameSaved(a.(lastKeepAlive := b.lastKeepAlive), b) && b.client == a.client && b.login == a.login
  {
  }

  /** The end of Agent.Start, before the main loop. */
  function Boot(cfg: Settings): Out {
    var o1 := SetTrustedNetwork(cfg, NEW_AGENT, false);
    var o2 := SetLoginState(cfg, o1.a, LoggedOut);
    Out(o2.a, o1.es + o2.es + [Publish(ConfigUpdate(cfg))])
  }

  /** The events after which the main loop is left. */
  predicate EndEvent(e: Event) { e.Shutdown? || e.SourceClosed? }

  predicate AllValid(events: seq<Event>) {
    forall e | e in events :: ValidEvent(e)
  }

  /** No krb5 config update came without a config. */
  predicate NoNilConf(events: seq<Event>) {
    forall e | e in events && e.ConfUp? :: e.conf.config.Some?
  }

  /** The agent after Start and a history of events handled one after the other. */
  function HandleAll(cfg: Settings, events: seq<Event>): Out
    requires AllValid(events)
  {
    if events == [] then Boot(cfg)
    else
      var o1 := HandleAll(cfg, events[..|events| - 1]);
      var o2 := Handle(cfg, o1.a, events[|events| - 1]);
      Both(o1, o2)
  }

  lemma HandleAllStep(cfg: Settings, events: seq<Event>, e: Event)
    requires AllValid(events) && ValidEvent(e)
    ensures AllValid(events + [e])
    ensures var o1 := HandleAll(cfg, events);
            var o2 := Handle(cfg, o1.a, e);
            HandleAll(cfg, events + [e]) == Both(o1, o2)
  {
    assert (events + [e])[..|events|] == events;
  }
}
