/** From the agent's fields through the service and its signals to a subscriber's status. */
module EndToEnd {
  import opened Options
  import opened Status
  import opened Settings
  import opened Handlers
  import opened PropertyStore
  import opened StatusObjects
  import opened Subscriber
  import opened Replication
  import Publication
  import System
  import World
  import ProcessTheorems

  /** A call publishes, if anything, a value of the property's type. */
  predicate TypedCall(parse: Parser, e: Effect) {
    e.Publish? ==> WellTyped(parse, e.update.name, e.update.value)
  }

  ghost predicate TypedCalls(parse: Parser, es: seq<Effect>) {
    forall e | e in es :: TypedCall(parse, e)
  }

  lemma SetLoginTyped(parse: Parser, cfg: Settings, a: Agent, l: LoginState)
    ensures TypedCalls(parse, Handlers.SetLoginState(cfg, a, l).es)
  {
  }

  lemma StopTyped(parse: Parser, cfg: Settings, a: Agent)
    ensures TypedCalls(parse, StopClient(cfg, a).es)
  {
    if a.client.Some? {
      var o1 := Handlers.SetLoginState(cfg, a, LoggingOut);
      SetLoginTyped(parse, cfg, a, LoggingOut);
      SetLoginTyped(parse, cfg, o1.a.(client := None, login := None), LoggedOut);
    }
  }

  lemma BothTyped(parse: Parser, o1: Out, o2: Out)
    requires TypedCalls(parse, o1.es) && TypedCalls(parse, o2.es)
    ensures TypedCalls(parse, Both(o1, o2).es)
  {
  }

  lemma NetworkTyped(parse: Parser, cfg: Settings, a: Agent, r: bool)
    ensures TypedCalls(parse, HandleTNDResult(cfg, a, r).es)
    ensures !r ==> TypedCalls(parse, HandleSleepEvent(cfg, a, true).es)
  {
    var o1 := Handlers.SetTrustedNetwork(cfg, a, r);
    StopTyped(parse, cfg, o1.a);
    BothTyped(parse, o1, if o1.a.trustedNetwork == Trusted then StartClient(o1.a) else StopClient(cfg, o1.a));
  }

  lemma ReLoginTyped(parse: Parser, cfg: Settings, a: Agent, q: nat)
    ensures TypedCalls(parse, HandleReLogin(cfg, a, q).es)
  {
    StopTyped(parse, cfg, a);
    BothTyped(parse, StopClient(cfg, a), StartClient(StopClient(cfg, a).a));
  }

  lemma LoginTyped(parse: Parser, cfg: Settings, a: Agent, l: LoginState, now: int)
    ensures TypedCalls(parse, HandleLoginResult(cfg, a, l, now).es)
  {
    var o1 := Handlers.SetLoginState(cfg, a, l);
    SetLoginTyped(parse, cfg, a, l);
    BothTyped(parse, o1, SetLastKeepAlive(o1.a, now));
  }

  lemma HandleTyped(parse: Parser, cfg: Settings, a: Agent, e: Event)
    requires ValidEvent(e)
    ensures TypedCalls(parse, Handle(cfg, a, e).es)
  {
    match e
    case TND(r) => NetworkTyped(parse, cfg, a, r);
    case Sleep(s) => NetworkTyped(parse, cfg, a, false);
    case ReLogin(q) => ReLoginTyped(parse, cfg, a, q);
    case Shutdown => StopTyped(parse, cfg, a);
    case LoginResult(l, now) => LoginTyped(parse, cfg, a, l, now);
    case _ =>
  }

  lemma {:induction false} AllCallsTyped(parse: Parser, cfg: Settings, events: seq<Event>)
    requires AllValid(events) && ReadConfig(parse, cfg.json).Some?
    ensures TypedCalls(parse, HandleAll(cfg, events).es)
  {
    if events != [] {
      var p, e := events[..|events| - 1], events[|events| - 1];
      assert e in events;
      AllCallsTyped(parse, cfg, p);
      HandleTyped(parse, cfg, HandleAll(cfg, p).a, e);
    }
  }

  lemma {:induction false} UpdatesTyped(parse: Parser, es: seq<Effect>)
    requires TypedCalls(parse, es)
    ensures AllTyped(parse, World.Updates(es))
  {
    if es != [] {
      UpdatesTyped(parse, es[..|es| - 1]);
      assert TypedCall(parse, es[|es| - 1]);
    }
  }

  lemma AgentUpdatesTyped(parse: Parser, cfg: Settings, s: System.State)
    requires System.Reachable(cfg, s) && ReadConfig(parse, cfg.json).Some?
    ensures AllTyped(parse, World.Updates(s.effects))
  {
    System.LoopIsSequential(cfg, s);
    AllCallsTyped(parse, cfg, s.events);
    PrefixTyped(parse, s.effects, HandleAll(cfg, s.events).es);
    UpdatesTyped(parse, s.effects);
  }

  lemma PrefixTyped(parse: Parser, es: seq<Effect>, all: seq<Effect>)
    requires es <= all && TypedCalls(parse, all)
    ensures TypedCalls(parse, es)
  {
    forall e | e in es
      ensures TypedCall(parse, e)
    {
      assert e in all;
    }
  }

  lemma ConstantsTyped(parse: Parser)
    ensures AllTyped(parse, STARTED) && AllTyped(parse, FLUSH)
  {
  }

  lemma LogPartsTyped(parse: Parser, signals: seq<Update>, held: seq<Update>, us: seq<Update>, flushed: seq<Update>)
    requires signals + held == STARTED + us + flushed
    requires AllTyped(parse, us) && flushed <= FLUSH
    ensures AllTyped(parse, signals)
  {
    ConstantsTyped(parse);
    forall u | u in signals
      ensures WellTyped(parse, u.name, u.value)
    {
      assert u in signals + held;
      assert u in STARTED || u in us || u in FLUSH;
    }
  }

  /** Every signal the service emits carries a value of its property's type. */
  lemma LogTyped(parse: Parser, cfg: Settings, w: World.Process)
    requires World.Happens(cfg, w) && ReadConfig(parse, cfg.json).Some?
    ensures AllTyped(parse, w.svc.signals)
  {
    World.HappensInv(cfg, w);
    AgentUpdatesTyped(parse, cfg, w.sys);
    LogPartsTyped(parse, w.svc.signals, World.Held(w.svc.pc), World.Updates(w.sys.effects), World.Flushed(w.svc.pc));
  }

  function ShownTime(es: seq<Effect>, p: Property, field: int): int {
    if Publication.LastPublished(es, p).Some? then field else -1
  }

  /** The status has the agent's network and login state and config, and each time or -1 if it was never published. */
  predicate ShowsAgent(parse: Parser, cfg: Settings, s: System.State, st: StatusValue)
    requires ReadConfig(parse, cfg.json).Some?
  {
    && st.trustedNetwork == NetworkCode(s.a.trustedNetwork)
    && st.loginState == LoginCode(s.a.loginState)
    && st.config == (if cfg.json == "" then None else parse(cfg.json))
    && st.lastKeepAlive == ShownTime(s.effects, PropLastKeepAliveAt, s.a.lastKeepAlive)
    && st.tgtStart == ShownTime(s.effects, PropTGTStart, s.a.kerberosTGT.startTime)
    && st.tgtEnd == ShownTime(s.effects, PropTGTEnd, s.a.kerberosTGT.endTime)
  }

  /** A subscriber that queried after q updates and was registered after m, with no change in between. */
  ghost predicate Subscribed(log: seq<Update>, q: nat, m: nat) {
    q <= m <= |log| && forall p: Property :: !Touched(log, q, m, p)
  }

  lemma Shown(parse: Parser, cfg: Settings, w: World.Process, st: StatusValue, p: Property)
    requires World.Happens(cfg, w) && w.sys.pc.AtLoop? && w.svc.pc.Serving?
    requires p in w.svc.props && WellTyped(parse, p, w.svc.props[p]) && Seen(st, p) == Meaning(parse, p, w.svc.props[p])
    ensures var shown := if Publication.LastPublished(w.sys.effects, p).Some? then Publication.Field(cfg, w.sys.a, p) else Stamp(-1);
            WellTyped(parse, p, shown) && Seen(st, p) == Meaning(parse, p, shown)
    ensures p == PropConfig || p == PropTrustedNetwork || p == PropLoginState ==>
              var field := Publication.Field(cfg, w.sys.a, p); WellTyped(parse, p, field) && Seen(st, p) == Meaning(parse, p, field)
  {
    ProcessTheorems.ServiceMirrorsAgent(cfg, w, p);
  }

  /** The status has the meaning of the service's value of every property. */
  ghost predicate SeesAll(parse: Parser, props: map<Property, Value>, st: StatusValue) {
    forall p: Property :: p in props && WellTyped(parse, p, props[p]) && Seen(st, p) == Meaning(parse, p, props[p])
  }

  lemma SeenBySubscriber(parse: Parser, cfg: Settings, w: World.Process, q: nat, m: nat) returns (st: StatusValue)
    requires World.Happens(cfg, w) && ReadConfig(parse, cfg.json).Some?
    requires Subscribed(w.svc.signals, q, m)
    ensures AllTyped(parse, w.svc.signals) && st == Replica(parse, w.svc.signals, q, m, |w.svc.signals|)
    ensures SeesAll(parse, w.svc.props, st)
  {
    var log := w.svc.signals;
    LogTyped(parse, cfg, w);
    ReplicaIsExact(parse, log, q, m, |log|);
    assert log[..|log|] == log;
    World.HappensInv(cfg, w);
    st := Replica(parse, log, q, m, |log|);
    forall p: Property
      ensures p in w.svc.props && WellTyped(parse, p, w.svc.props[p]) && Seen(st, p) == Meaning(parse, p, w.svc.props[p])
    {
      QuerySees(parse, StoreAt(log, |log|), p);
    }
  }

  lemma AllShown(parse: Parser, cfg: Settings, w: World.Process, st: StatusValue)
    requires World.Happens(cfg, w) && ReadConfig(parse, cfg.json).Some?
    requires w.sys.pc.AtLoop? && w.svc.pc.Serving? && SeesAll(parse, w.svc.props, st)
    ensures ShowsAgent(parse, cfg, w.sys, st)
  {
    Shown(parse, cfg, w, st, PropConfig);
    Shown(parse, cfg, w, st, PropTrustedNetwork);
    Shown(parse, cfg, w, st, PropLoginState);
    Shown(parse, cfg, w, st, PropLastKeepAliveAt);
    Shown(parse, cfg, w, st, PropTGTStart);
    Shown(parse, cfg, w, st, PropTGTEnd);
  }

  /**
    In every run, when the agent is at its loop with no update under way, a subscriber that has got all
    signals and for which nothing changed between its query and its registration shows the agent's own
    network and login state and config, and each time or -1 if it was never published.
   */
  lemma SubscriberShowsAgent(parse: Parser, cfg: Settings, w: World.Process, q: nat, m: nat)
    requires World.Happens(cfg, w) && ReadConfig(parse, cfg.json).Some?
    requires w.sys.pc.AtLoop? && w.svc.pc.Serving?
    requires Subscribed(w.svc.signals, q, m)
    ensures AllTyped(parse, w.svc.signals)
    ensures ShowsAgent(parse, cfg, w.sys, Replica(parse, w.svc.signals, q, m, |w.svc.signals|))
  {
    var st := SeenBySubscriber(parse, cfg, w, q, m);
    AllShown(parse, cfg, w, st);
  }

  /** The last update, for a consumer that takes more than there are and writes what it likes into each. */
  method TakeLast(parse: Parser, status: StatusObjects.Status, signals: seq<Signal>, limit: nat, junk: Junk)
    returns (shown: StatusValue)
    requires forall s | s in signals :: LongEnough(parse, s)
    requires 0 < |Stream(parse, status.Value(), signals)| < limit
    ensures var sent := Stream(parse, status.Value(), signals); shown == sent[|sent| - 1]
  {
    var taken, used := Subscription(parse, status, signals, limit, junk);
    StreamGrows(parse, status.Value(), signals, used);
    shown := taken[|taken| - 1];
  }

  lemma {:induction false} StreamGrows(parse: Parser, st: StatusValue, signals: seq<Signal>, n: nat)
    requires n <= |signals|
    ensures |Stream(parse, st, signals[..n])| <= |Stream(parse, st, signals)|
  {
    if n == |signals| {
      assert signals[..n] == signals;
    } else {
      assert signals[..|signals| - 1][..n] == signals[..n];
      StreamGrows(parse, st, signals[..|signals| - 1], n);
    }
  }

  /** What the consumer gets of a status and the signals after it. */
  ghost function Sent(parse: Parser, log: seq<Update>, q: nat, m: nat): seq<StatusValue>
    requires AllTyped(parse, log) && q <= m <= |log|
  {
    StoreComplete(parse, log, q);
    Stream(parse, Queried(parse, StoreAt(log, q)), SignalsOf(log[m..]))
  }

  lemma SentEndsWithReplica(parse: Parser, log: seq<Update>, q: nat, m: nat)
    requires AllTyped(parse, log) && q <= m <= |log|
    ensures var sent := Sent(parse, log, q, m); |sent| == |log| - m + 1 && sent[|sent| - 1] == Replica(parse, log, q, m, |log|)
  {
    StoreComplete(parse, log, q);
    assert log[m..] == log[m..|log|];
    StreamOfSignals(parse, Queried(parse, StoreAt(log, q)), log[m..]);
  }

  lemma SentIsLong(parse: Parser, log: seq<Update>, m: nat)
    requires AllTyped(parse, log) && m <= |log|
    ensures forall s | s in SignalsOf(log[m..]) :: LongEnough(parse, s)
  {
    StreamOfSignals(parse, NEW_STATUS, log[m..]);
  }

  predicate EndsWithAgent(parse: Parser, cfg: Settings, s: System.State, sent: seq<StatusValue>)
    requires ReadConfig(parse, cfg.json).Some?
  {
    sent != [] && ShowsAgent(parse, cfg, s, sent[|sent| - 1])
  }

  /** The last status that the consumer is sent shows the agent. */
  lemma SentShowsAgent(parse: Parser, cfg: Settings, w: World.Process, q: nat, m: nat)
    requires World.Happens(cfg, w) && ReadConfig(parse, cfg.json).Some?
    requires w.sys.pc.AtLoop? && w.svc.pc.Serving? && Subscribed(w.svc.signals, q, m)
    ensures AllTyped(parse, w.svc.signals)
    ensures EndsWithAgent(parse, cfg, w.sys, Sent(parse, w.svc.signals, q, m))
  {
    SubscriberShowsAgent(parse, cfg, w, q, m);
    SentEndsWithReplica(parse, w.svc.signals, q, m);
  }

  /** The query after q updates gave st, and signals are all since the registration after m, with no change between. */
  ghost predicate Subscribing(parse: Parser, cfg: Settings, w: World.Process, q: nat, m: nat, st: StatusValue, signals: seq<Signal>) {
    && World.Happens(cfg, w) && ReadConfig(parse, cfg.json).Some?
    && w.sys.pc.AtLoop? && w.svc.pc.Serving? && Subscribed(w.svc.signals, q, m)
    && Complete(parse, StoreAt(w.svc.signals, q)) && st == Queried(parse, StoreAt(w.svc.signals, q))
    && signals == SignalsOf(w.svc.signals[m..])
  }

  /**
    The stream that a subscription sends, from a query after q updates on all signals after m, ends with a
    status that shows the agent. TakeLast is what the consumer has of it.
   */
  lemma StreamShowsAgent(parse: Parser, cfg: Settings, w: World.Process, q: nat, m: nat, st: StatusValue, signals: seq<Signal>)
    requires Subscribing(parse, cfg, w, q, m, st, signals)
    ensures forall s | s in signals :: LongEnough(parse, s)
    ensures var sent := Stream(parse, st, signals);
            |sent| == |w.svc.signals| - m + 1 && EndsWithAgent(parse, cfg, w.sys, sent)
  {
    SentShowsAgent(parse, cfg, w, q, m);
    SentIsLong(parse, w.svc.signals, m);
    SentEndsWithReplica(parse, w.svc.signals, q, m);
  }
}
