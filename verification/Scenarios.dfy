/** Runs of the process that show what the theorems leave room for. */
module Scenarios {
  import opened Options
  import opened Status
  import opened Kerberos
  import opened Settings
  import opened Handlers
  import opened AgentMachine
  import opened System
  import opened SystemInvariant
  import opened WholeRuns
  import opened PropertyStore
  import opened World
  import opened ProcessTheorems
  import opened Progress
  import opened Handshake
  import opened Subscriber
  import opened Replication
  import opened EndToEnd
  import CM = ClientMachine

  // ---------------------------------------------------------------- a call aborted after its success

  lemma AcceptedIs(cfg: Settings, w: Process, q: nat)
    requires w.sys.pc.AtLoop? && q < |w.callers| && w.callers[q].Calling?
    ensures Move(cfg, w, Accept(q)).Some?
    ensures var x := Move(cfg, w, Accept(q)).value;
            && x.sys.events == w.sys.events + [ReLogin(q)] && x.callers == w.callers[q := Waiting]
            && x.sys.pc == Begin(cfg, w.sys.a, ReLogin(q)).pc
  {
  }

  lemma AbortedIs(cfg: Settings, w: Process, q: nat)
    requires q < |w.callers| && !w.callers[q].Returned? && w.svc.doneCloses > 0
    ensures Move(cfg, w, Abort(q)) == Some(w.(callers := w.callers[q := Returned(false)]))
  {
  }

  lemma CalledIs(cfg: Settings, w: Process)
    ensures Move(cfg, w, NewCall) == Some(w.(callers := w.callers + [Calling]))
  {
  }

  /** A caller's request is taken and handled to the end. */
  lemma Accepts(cfg: Settings, w: Process, q: nat) returns (x: Process)
    requires Happens(cfg, w) && w.sys.pc.AtLoop? && q < |w.callers| && w.callers[q].Calling?
    ensures Reaches(cfg, w, x, 32) && Happens(cfg, x) && x.sys.pc.AtLoop?
    ensures x.sys.events == w.sys.events + [ReLogin(q)] && x.callers == w.callers[q := Waiting]
  {
    NeverStraightOut(cfg, w.sys.a, ReLogin(q));
    AcceptedIs(cfg, w, q);
    var y := OneStep(cfg, w, Accept(q));
    x := Settles(cfg, y);
    CostBound(y.sys.pc);
    ReachesOn(cfg, w, y, x, 1, Cost(y.sys.pc));
    ReachesWithin(cfg, w, x, 1 + Cost(y.sys.pc), 32);
    SettledPlace(cfg, w);
    SettledPlace(cfg, x);
    EndedNext(w.sys.events, ReLogin(q));
  }

  lemma TakenStays(cfg: Settings, events: seq<Event>, e: Event, q: nat, k: nat, trusted: bool)
    requires TakenOn(cfg, events, q, k, trusted)
    ensures TakenOn(cfg, events + [e], q, k, trusted)
  {
    assert (events + [e])[..k] == events[..k];
  }

  /** A call waiting at the loop head can still be aborted, by a shutdown, though its request was handled. */
  lemma ShutdownAborts(cfg: Settings, w: Process, q: nat, k: nat, trusted: bool) returns (x: Process)
    requires Happens(cfg, w) && w.sys.pc.AtLoop? && q < |w.callers| && w.callers[q].Waiting?
    requires TakenOn(cfg, w.sys.events, q, k, trusted)
    ensures Reaches(cfg, w, x, 34) && Happens(cfg, x) && x.svc.doneCloses > 0
    ensures x.callers == w.callers[q := Returned(false)] && x.sys.events == w.sys.events + [Shutdown]
    ensures TakenOn(cfg, x.sys.events, q, k, trusted) && Reply(q, trusted) in x.sys.effects
  {
    var y := Handles(cfg, w, Shutdown);
    var z := Closes(cfg, y);
    AbortedIs(cfg, z, q);
    x := OneStep(cfg, z, Abort(q));
    ReachesOn(cfg, w, y, z, 32, 1);
    ReachesOn(cfg, w, z, x, 33, 1);
    TakenStays(cfg, w.sys.events, Shutdown, q, k, trusted);
    HappensInv(cfg, x);
    ReplyPastLoop(cfg, x.sys, q, k, trusted);
  }

  lemma ReplyPastLoop(cfg: Settings, s: State, q: nat, k: nat, trusted: bool)
    requires Reachable(cfg, s) && (s.pc.Exiting? || s.pc.InServiceStop? || s.pc.Exited?) && TakenOn(cfg, s.events, q, k, trusted)
    ensures Reply(q, trusted) in s.effects
  {
    PastLoop(cfg, s);
    ReplyInHistory(cfg, s.events, k);
  }

  function UsableCCache(cfg: Settings): CCacheUpdate {
    CCacheUpdate(Some(CCache(map["krbtgt/" + cfg.realm := KerberosTicket(1, 2)], "")))
  }

  const USABLE_CONF := ConfUpdate(Some(KrbConf("")))

  function FirstEvents(cfg: Settings): seq<Event> {
    [TND(true), CCacheUp(UsableCCache(cfg)), ConfUp(USABLE_CONF)]
  }

  /** The agent before the config comes, and after it; then the client has been started. */
  lemma FirstAgent(cfg: Settings)
    ensures AllValid(FirstEvents(cfg)) && AllValid(FirstEvents(cfg)[..2])
    ensures var a := HandleAll(cfg, FirstEvents(cfg)[..2]).a;
            && a.trustedNetwork == Trusted && a.client.None? && a.started == 0 && a.loginState == LoggedOut
            && a.lastKeepAlive == 0 && a.ccacheUp == Some(UsableCCache(cfg))
    ensures var a := HandleAll(cfg, FirstEvents(cfg)).a;
            a.trustedNetwork == Trusted && a.client == Some(0) && a.started == 1 && Usable(a)
  {
    var cc := UsableCCache(cfg);
    var e1, e2, e3 := TND(true), CCacheUp(cc), ConfUp(USABLE_CONF);
    assert GetTGT(cc, cfg.realm) == Some(KerberosTicket(1, 2));
    assert [] + [e1] == [e1] && [e1] + [e2] == FirstEvents(cfg)[..2] && FirstEvents(cfg)[..2] + [e3] == FirstEvents(cfg);
    HandleAllStep(cfg, [], e1);
    HandleAllStep(cfg, [e1], e2);
    HandleAllStep(cfg, FirstEvents(cfg)[..2], e3);
  }

  /** The process has started and taken the first of the events. */
  lemma Begins(cfg: Settings) returns (w: Process)
    ensures Happens(cfg, w) && w.sys.pc.AtLoop? && w.callers == []
    ensures w.sys.events == FirstEvents(cfg)[..2]
  {
    var none: seq<Step> := [];
    assert Play(cfg, none) == Some(Start(cfg));
    var w0 := Settles(cfg, Start(cfg));
    SettledPlace(cfg, w0);
    var w1 := Handles(cfg, w0, TND(true));
    w := Handles(cfg, w1, CCacheUp(UsableCCache(cfg)));
    assert w.sys.events == FirstEvents(cfg)[..2];
  }

  lemma Calls(cfg: Settings) returns (w: Process)
    ensures Happens(cfg, w) && w.sys.pc.AtLoop? && w.callers == [Waiting]
    ensures w.sys.events == FirstEvents(cfg) + [ReLogin(0)]
  {
    var w2 := Begins(cfg);
    var w3 := Handles(cfg, w2, ConfUp(USABLE_CONF));
    CalledIs(cfg, w3);
    var w4 := OneStep(cfg, w3, NewCall);
    w := Accepts(cfg, w4, 0);
  }

  /**
    A run in which the agent takes a request on a trusted network, ends the running client 0, starts client
    1 and reports success, and the call still returns an abort, because done is closed before it looks.
   */
  lemma AbortedAfterRestart(cfg: Settings) returns (w: Process)
    ensures Happens(cfg, w) && w.callers == [Returned(false)] && w.svc.doneCloses > 0
    ensures Reply(0, true) in w.sys.effects
    ensures AllValid(w.sys.events) && 3 < |w.sys.events| && Restarted(cfg, w.sys, 0, 3)
    ensures CloseDone(0) in w.sys.effects && TakenOn(cfg, w.sys.events, 0, 3, true)
  {
    var y := Calls(cfg);
    FirstAgent(cfg);
    assert y.sys.events[..3] == FirstEvents(cfg);
    w := ShutdownAborts(cfg, y, 0, 3, true);
    HappensInv(cfg, w);
    RestartInRun(cfg, w.sys, 0, 3);
    assert w.sys.events[..3] == FirstEvents(cfg);
  }

  lemma RestartInRun(cfg: Settings, s: State, q: nat, k: nat)
    requires Reachable(cfg, s) && (s.pc.Exiting? || s.pc.InServiceStop? || s.pc.Exited?) && TakenOn(cfg, s.events, q, k, true)
    ensures AllValid(s.events) && Restarted(cfg, s, q, k)
    ensures HandleAll(cfg, s.events[..k]).a.client.Some? ==> CloseDone(HandleAll(cfg, s.events[..k]).a.client.value) in s.effects
  {
    PastLoop(cfg, s);
    RestartInHistory(cfg, s.events, q, k);
    HandleAllGrows(cfg, s.events, k + 1);
  }

  lemma RestartInHistory(cfg: Settings, events: seq<Event>, q: nat, k: nat)
    requires AllValid(events) && TakenOn(cfg, events, q, k, true)
    ensures AllValid(events[..k]) && AllValid(events[..k + 1])
    ensures var before, after := HandleAll(cfg, events[..k]).a, HandleAll(cfg, events[..k + 1]);
            && (before.client.Some? ==> CloseDone(before.client.value) in after.es && Joined(before.client.value) in after.es)
            && (if Usable(before) then after.a.client == Some(before.started) else after.a.client.None?)
  {
    var p := events[..k];
    assert events[..k + 1] == p + [ReLogin(q)];
    HandleAllStep(cfg, p, ReLogin(q));
    RestartEffects(cfg, HandleAll(cfg, p).a, q);
  }

  // ---------------------------------------------------------------- a login missed by a subscriber

  lemma AnyStep(cfg: Settings, w: Process, m: Step) returns (x: Process)
    requires Happens(cfg, w) && Move(cfg, w, m).Some?
    ensures x == Move(cfg, w, m).value && Happens(cfg, x)
  {
    x := Move(cfg, w, m).value;
    var ms: seq<Step> :| Play(cfg, ms) == Some(w);
    assert (ms + [m])[..|ms|] == ms;
    assert Play(cfg, ms + [m]) == Move(cfg, w, m);
  }

  /** The only client ever started is c, and the agent listens to it. */
  ghost predicate Solo(cfg: Settings, w: Process, c: CM.Client) {
    && Happens(cfg, w) && w.sys.clients == [c]
    && w.sys.a.login == Some(0) && w.sys.a.lastKeepAlive == 0
  }

  lemma Acts(cfg: Settings, w: Process, c: CM.Client, m: CM.Move) returns (x: Process)
    requires Solo(cfg, w, c) && CM.ClientStep(cfg, c, m).Some?
    ensures Solo(cfg, x, CM.ClientStep(cfg, c, m).value)
    ensures x.sys.a == w.sys.a && x.sys.pc == w.sys.pc && x.svc == w.svc
  {
    x := AnyStep(cfg, w, Core(Act(0, m)));
  }

  lemma DeliveredIs(cfg: Settings, s: State, c: CM.Client)
    requires s.pc.AtLoop? && s.a.login == Some(0) && s.clients == [c] && c.pc.Sending? && c.pc.state != s.a.loginState
    ensures Do(cfg, s, Deliver(0)).Some?
    ensures var t := Do(cfg, s, Deliver(0)).value;
            && t.pc == InSetProperty(LoginUpdate(c.pc.state), AfterLogin(c.pc.state, 0))
            && t.clients == [CM.Sent(c, true)] && t.a.loginState == c.pc.state
            && t.a.login == s.a.login && t.a.lastKeepAlive == s.a.lastKeepAlive
  {
    assert s.clients[0 := CM.Sent(c, true)] == [CM.Sent(c, true)];
    ElsewhereKeeps(cfg, [CM.Sent(c, true)], Begin(cfg, s.a, LoginResult(c.pc.state, 0)).es);
  }

  lemma PublishedIs(cfg: Settings, s: State, c: CM.Client, l: LoginState)
    requires s.pc == InSetProperty(LoginUpdate(l), AfterLogin(l, 0)) && s.a.lastKeepAlive == 0
    ensures var t := Do(cfg, s, Published).value;
            Do(cfg, s, Published).Some? && t.pc.AtLoop? && t.a == s.a && t.clients == s.clients
  {
    ElsewhereKeeps(cfg, s.clients, [Publish(s.pc.update)]);
  }

  /** A result is handed over and its login state published and stored. */
  lemma Delivers(cfg: Settings, w: Process, c: CM.Client) returns (x: Process)
    requires Solo(cfg, w, c) && w.sys.pc.AtLoop? && c.pc.Sending? && c.pc.state != w.sys.a.loginState
    ensures Solo(cfg, x, CM.Sent(c, true)) && x.sys.pc.AtLoop? && x.svc.pc.Serving?
    ensures x.sys.a.loginState == c.pc.state && w.svc.signals <= x.svc.signals
  {
    DeliveredIs(cfg, w.sys, c);
    var y := AnyStep(cfg, w, Core(Deliver(0)));
    var z := Stores(cfg, y);
    PublishedIs(cfg, z.sys, CM.Sent(c, true), c.pc.state);
    var v := AnyStep(cfg, z, HandOver);
    x := Stores(cfg, v);
  }

  /** The login request of a client with credentials, answered with a keep-alive of one minute. */
  lemma Requests(cfg: Settings, w: Process, c: CM.Client) returns (x: Process, d: CM.Client)
    requires Solo(cfg, w, c) && c.pc == CM.Requesting(CM.Login, CM.Enter) && c.ccache.Some? && c.conf.Some?
    ensures Solo(cfg, x, d) && d.pc == CM.Sending(LoggedIn, CM.ToReset(false))
    ensures x.sys.a == w.sys.a && x.sys.pc == w.sys.pc && x.svc == w.svc
  {
    var c1 := CM.RequestStep(c);
    var c2 := CM.RequestStep(c1);
    var c3 := CM.RequestStep(c2);
    var c4 := CM.RequestStep(c3);
    var c5 := CM.RequestStep(c4);
    var w1 := Acts(cfg, w, c, CM.Go);
    var w2 := Acts(cfg, w1, c1, CM.Go);
    var w3 := Acts(cfg, w2, c2, CM.Go);
    var w4 := Acts(cfg, w3, c3, CM.Go);
    var w5 := Acts(cfg, w4, c4, CM.Go);
    x := Acts(cfg, w5, c5, CM.Respond(CM.Parsed(1)));
    d := CM.Conclude(c5, CM.Login, CM.Parsed(1));
  }

  /** The process with its first client just started. */
  lemma ClientStarts(cfg: Settings) returns (w: Process)
    ensures Solo(cfg, w, CM.NewClient(cfg, UsableCCache(cfg).ccache, USABLE_CONF.config))
    ensures w.sys.pc.AtLoop? && w.svc.pc.Serving? && w.sys.a.loginState == LoggedOut
  {
    var y := Begins(cfg);
    var z := Stores(cfg, y);
    HappensInv(cfg, z);
    ReachableInv(cfg, z.sys);
    LoopIsSequential(cfg, z.sys);
    FirstAgent(cfg);
    w := AnyStep(cfg, z, Core(Take(ConfUp(USABLE_CONF))));
    StartedIs(cfg, z.sys);
  }

  lemma StartedIs(cfg: Settings, s: State)
    requires s.pc.AtLoop? && s.clients == [] && s.a.started == 0 && s.a.client.None? && s.a.trustedNetwork == Trusted
    requires s.a.ccacheUp == Some(UsableCCache(cfg))
    ensures Do(cfg, s, Take(ConfUp(USABLE_CONF))).Some?
    ensures var t := Do(cfg, s, Take(ConfUp(USABLE_CONF))).value;
            && t.pc.AtLoop? && t.clients == [CM.NewClient(cfg, UsableCCache(cfg).ccache, USABLE_CONF.config)]
            && t.a == s.a.(krbcfgUp := Some(USABLE_CONF), client := Some(0), login := Some(0), started := 1)
  {
    var e := Spawn(0, UsableCCache(cfg).ccache, USABLE_CONF.config);
    assert Begin(cfg, s.a, ConfUp(USABLE_CONF)).es == [e];
    OneEffect(cfg, [], e);
    assert AllOnClients(cfg, s.clients, [e]) == [CM.NewClient(cfg, UsableCCache(cfg).ccache, USABLE_CONF.config)];
  }

  /** A login from the client's start to the published LoggedIn. */
  lemma LogsIn(cfg: Settings, w: Process, c: CM.Client) returns (x: Process)
    requires Solo(cfg, w, c) && c == CM.NewClient(cfg, UsableCCache(cfg).ccache, USABLE_CONF.config)
    requires w.sys.pc.AtLoop? && w.sys.a.loginState == LoggedOut
    ensures Happens(cfg, x) && x.sys.pc.AtLoop? && x.svc.pc.Serving?
    ensures x.sys.a.loginState == LoggedIn && w.svc.signals <= x.svc.signals
  {
    var c1 := c.(timer := CM.Fired);
    var c2 := c.(timer := CM.Received, pc := CM.Sending(LoggingIn, CM.ToLogin));
    var w1 := Acts(cfg, w, c, CM.Expire);
    var w2 := Acts(cfg, w1, c1, CM.TakeTimer);
    var w3 := Delivers(cfg, w2, c2);
    var w4, c4 := Requests(cfg, w3, CM.Sent(c2, true));
    x := Delivers(cfg, w4, c4);
  }

  /**
    A run in which a login takes place between a subscriber's query and its registration. The subscriber
    has got every signal since, the agent is logged in, and the subscriber still shows logged out.
   */
  lemma GapIsMissed(parse: Parser, cfg: Settings) returns (w: Process, q: nat)
    requires ReadConfig(parse, cfg.json).Some?
    ensures Happens(cfg, w) && w.sys.pc.AtLoop? && w.svc.pc.Serving? && w.sys.a.loginState == LoggedIn
    ensures q <= |w.svc.signals| && AllTyped(parse, w.svc.signals)
    ensures Replica(parse, w.svc.signals, q, |w.svc.signals|, |w.svc.signals|).loginState == LoginCode(LoggedOut)
  {
    var y := ClientStarts(cfg);
    w := LogsIn(cfg, y, CM.NewClient(cfg, UsableCCache(cfg).ccache, USABLE_CONF.config));
    q := |y.svc.signals|;
    LogTyped(parse, cfg, w);
    QueriedAt(parse, cfg, y);
    assert w.svc.signals[..q] == y.svc.signals;
    UntoldShows(parse, w.svc.signals, q);
  }

  /** What a query shows as login state at a loop head with no update under way. */
  lemma QueriedAt(parse: Parser, cfg: Settings, w: Process)
    requires Happens(cfg, w) && w.sys.pc.AtLoop? && w.svc.pc.Serving?
    ensures PropLoginState in SetAll(EXPORTED, w.svc.signals)
    ensures SetAll(EXPORTED, w.svc.signals)[PropLoginState] == Code(LoginCode(w.sys.a.loginState))
  {
    HappensInv(cfg, w);
    ServiceMirrorsAgent(cfg, w, PropLoginState);
  }

  /** A subscriber that got no signal shows what it queried. */
  lemma UntoldShows(parse: Parser, log: seq<Update>, q: nat)
    requires AllTyped(parse, log) && q <= |log|
    requires PropLoginState in StoreAt(log, q) && StoreAt(log, q)[PropLoginState].Code?
    ensures Replica(parse, log, q, |log|, |log|).loginState == StoreAt(log, q)[PropLoginState].code
  {
    Untold(parse, log, q);
    QueryShows(parse, StoreAt(log, q));
  }

  lemma QueryShows(parse: Parser, props: map<Property, Value>)
    requires Complete(parse, props) && props[PropLoginState].Code?
    ensures Queried(parse, props).loginState == props[PropLoginState].code
  {
    QuerySees(parse, props, PropLoginState);
  }

  lemma Untold(parse: Parser, log: seq<Update>, q: nat)
    requires AllTyped(parse, log) && q <= |log|
    ensures Complete(parse, StoreAt(log, q))
    ensures Replica(parse, log, q, |log|, |log|) == Queried(parse, StoreAt(log, q))
  {
    StoreComplete(parse, log, q);
    assert log[|log|..|log|] == [];
    assert SignalsOf([]) == [];
  }
}
