/** What the events taken so far determine in every run: the agent, its clients, the service and a subscriber. */
module HistoryTheorems {
  import opened Options
  import opened Status
  import opened Settings
  import opened Handlers
  import opened AgentMachine
  import opened System
  import opened WholeRuns
  import opened SystemInvariant
  import opened PropertyStore
  import opened World
  import opened ProcessTheorems
  import opened Publication
  import opened AgentHistory
  import opened PublishedHistory
  import opened StatusObjects
  import opened Subscriber
  import opened Replication
  import opened EndToEnd

  // ---------------------------------------------------------------- the agent and its clients

  /**
    At every loop head the agent's fields are those its events determine, as many clients have been created
    as they start, and what has been published and noticed is what they determine.
   */
  lemma EventsDetermineAgent(cfg: Settings, s: State, p: Property)
    requires Reachable(cfg, s) && s.pc.AtLoop?
    ensures AllValid(s.events) && IsAfter(cfg, s.a, s.events)
    ensures |s.clients| == StartedIn(cfg, s.events)
    ensures PublishedValues(s.effects, p) == AllNext(cfg, s.events, p)
    ensures NetworkNotices(s.effects) == if cfg.notifications then NetworkChanges(s.events) else []
  {
    LoopIsSequential(cfg, s);
    AgentIsItsHistory(cfg, s.events);
    AllPublished(cfg, s.events, p);
    ReachableInv(cfg, s);
  }

  lemma FinishStarts(cfg: Settings, a: Agent, pc: PC)
    ensures a.started <= Finish(cfg, a, pc).a.started
  {
    match pc
    case InSetProperty(_, r) => RestStarts(cfg, a, r);
    case InStop(after) => JoinStarts(cfg, a, after);
    case _ =>
  }

  lemma JoinStarts(cfg: Settings, a: Agent, after: After)
    ensures a.started <= FinishJoin(cfg, a, after).a.started
  {
  }

  lemma RestStarts(cfg: Settings, a: Agent, r: Rest)
    ensures a.started <= FinishRest(cfg, a, r).a.started
  {
    match r
    case BeforeStop(after) => JoinStarts(cfg, a, after);
    case _ =>
  }

  /** In every state of every run, no client has been created before the first TND result that says trusted. */
  lemma NoClientBeforeTrust(cfg: Settings, s: State)
    requires Reachable(cfg, s) && TND(true) !in s.events
    ensures s.clients == [] && s.a.client.None?
  {
    RunRefines(cfg, s);
    AgentIsItsHistory(cfg, s.events);
    NothingBeforeTrust(cfg, s.events);
    FinishStarts(cfg, s.a, s.pc);
    ReachableInv(cfg, s);
  }

  // ---------------------------------------------------------------- the service

  lemma {:induction false} LastOfPublished(es: seq<Effect>, n: nat, p: Property)
    requires n <= |es|
    ensures var vs := PublishedTo(es, n, p);
            LastPublished(es[..n], p) == if vs == [] then None else Some(vs[|vs| - 1])
  {
    if n > 0 {
      LastOfPublished(es, n - 1, p);
      assert es[..n][..n - 1] == es[..n - 1];
    }
  }

  /** The last of the values, or the time that stands for none. */
  function LastOrNone(vs: seq<Value>): Value {
    if vs == [] then Stamp(-1) else vs[|vs| - 1]
  }

  lemma LastIsNext(cfg: Settings, s: State, p: Property)
    requires Reachable(cfg, s) && s.pc.AtLoop?
    ensures AllValid(s.events)
    ensures var vs := AllNext(cfg, s.events, p); LastPublished(s.effects, p) == if vs == [] then None else Some(vs[|vs| - 1])
  {
    EventsDetermineAgent(cfg, s, p);
    LastOfPublished(s.effects, |s.effects|, p);
    assert s.effects[..|s.effects|] == s.effects;
  }

  lemma ServiceHasLast(cfg: Settings, w: Process, p: Property)
    requires Happens(cfg, w) && w.sys.pc.AtLoop? && w.svc.pc.Serving?
    ensures p in w.svc.props && Reachable(cfg, w.sys)
    ensures var last := LastPublished(w.sys.effects, p); w.svc.props[p] == if last.Some? then last.value else Stamp(-1)
  {
    HappensInv(cfg, w);
    ServiceMirrorsAgent(cfg, w, p);
    PublishedIsCurrent(cfg, w.sys);
  }

  /** With no update under way at the loop head, the service's map holds for each property what the events determine. */
  lemma ServiceShowsHistory(cfg: Settings, w: Process, p: Property)
    requires Happens(cfg, w) && w.sys.pc.AtLoop? && w.svc.pc.Serving?
    ensures AllValid(w.sys.events) && p in w.svc.props
    ensures w.svc.props[p] == LastOrNone(AllNext(cfg, w.sys.events, p))
  {
    ServiceHasLast(cfg, w, p);
    LastIsNext(cfg, w.sys, p);
  }

  /** The number of a login state on the bus. */
  predicate LoginNumber(l: LoginState, n: nat) {
    match n
    case 0 => l == LoginUnknown
    case 1 => l == LoggedOut
    case 2 => l == LoggingIn
    case 3 => l == LoggedIn
    case 4 => l == LoggingOut
    case _ => false
  }

  /** The numbers on the bus for the network and the login state, at the service. */
  lemma ServiceNumbers(cfg: Settings, w: Process)
    requires Happens(cfg, w) && w.sys.pc.AtLoop? && w.svc.pc.Serving?
    ensures AllValid(w.sys.events) && PropTrustedNetwork in w.svc.props && PropLoginState in w.svc.props
    ensures w.svc.props[PropTrustedNetwork] == Code(if TrustedIn(w.sys.events) then 2 else 1)
    ensures w.svc.props[PropLoginState].Code? && LoginNumber(LoginIn(cfg, w.sys.events), w.svc.props[PropLoginState].code)
  {
    HappensInv(cfg, w);
    EventsDetermineAgent(cfg, w.sys, PropConfig);
    ServiceMirrorsAgent(cfg, w, PropTrustedNetwork);
    ServiceMirrorsAgent(cfg, w, PropLoginState);
  }

  /** When the service has ended its map holds the empty text, two zeros and three times of -1. */
  lemma FinalNumbers(cfg: Settings, w: Process)
    requires Happens(cfg, w) && w.svc.pc.Finished?
    ensures w.svc.props == map[PropConfig := Text(""), PropTrustedNetwork := Code(0), PropLoginState := Code(0),
                               PropLastKeepAliveAt := Stamp(-1), PropTGTStart := Stamp(-1), PropTGTEnd := Stamp(-1)]
  {
    FinalFlush(cfg, w);
  }

  // ---------------------------------------------------------------- a subscriber

  function TimeOf(v: Value): int { if v.Stamp? then v.stamp else -1 }

  /** The status has the numbers, the times and the config that the events determine. */
  ghost predicate ShowsHistory(parse: Parser, cfg: Settings, events: seq<Event>, st: StatusValue)
    requires AllValid(events)
  {
    && st.trustedNetwork == (if TrustedIn(events) then 2 else 1)
    && LoginNumber(LoginIn(cfg, events), st.loginState)
    && st.config == (if cfg.json == "" then None else parse(cfg.json))
    && st.lastKeepAlive == TimeOf(LastOrNone(AllNext(cfg, events, PropLastKeepAliveAt)))
    && st.tgtStart == TimeOf(LastOrNone(AllNext(cfg, events, PropTGTStart)))
    && st.tgtEnd == TimeOf(LastOrNone(AllNext(cfg, events, PropTGTEnd)))
  }

  lemma TimeShown(cfg: Settings, s: State, p: Property, field: int)
    requires Reachable(cfg, s) && s.pc.AtLoop? && Field(cfg, s.a, p) == Stamp(field)
    ensures AllValid(s.events)
    ensures ShownTime(s.effects, p, field) == TimeOf(LastOrNone(AllNext(cfg, s.events, p)))
  {
    LastIsNext(cfg, s, p);
    PublishedIsCurrent(cfg, s);
  }

  lemma TimesShown(cfg: Settings, s: State)
    requires Reachable(cfg, s) && s.pc.AtLoop?
    ensures AllValid(s.events)
    ensures ShownTime(s.effects, PropLastKeepAliveAt, s.a.lastKeepAlive) == TimeOf(LastOrNone(AllNext(cfg, s.events, PropLastKeepAliveAt)))
    ensures ShownTime(s.effects, PropTGTStart, s.a.kerberosTGT.startTime) == TimeOf(LastOrNone(AllNext(cfg, s.events, PropTGTStart)))
    ensures ShownTime(s.effects, PropTGTEnd, s.a.kerberosTGT.endTime) == TimeOf(LastOrNone(AllNext(cfg, s.events, PropTGTEnd)))
  {
    TimeShown(cfg, s, PropLastKeepAliveAt, s.a.lastKeepAlive);
    TimeShown(cfg, s, PropTGTStart, s.a.kerberosTGT.startTime);
    TimeShown(cfg, s, PropTGTEnd, s.a.kerberosTGT.endTime);
  }

  lemma NumbersShown(parse: Parser, cfg: Settings, s: State, st: StatusValue)
    requires AllValid(s.events) && IsAfter(cfg, s.a, s.events)
    requires ReadConfig(parse, cfg.json).Some? && ShowsAgent(parse, cfg, s, st)
    ensures st.trustedNetwork == if TrustedIn(s.events) then 2 else 1
    ensures LoginNumber(LoginIn(cfg, s.events), st.loginState)
  {
  }

  /** A status that shows the agent shows what the agent's events determine. */
  lemma AgentShowsHistory(parse: Parser, cfg: Settings, s: State, st: StatusValue)
    requires Reachable(cfg, s) && s.pc.AtLoop? && ReadConfig(parse, cfg.json).Some? && ShowsAgent(parse, cfg, s, st)
    ensures AllValid(s.events) && ShowsHistory(parse, cfg, s.events, st)
  {
    EventsDetermineAgent(cfg, s, PropConfig);
    TimesShown(cfg, s);
    NumbersShown(parse, cfg, s, st);
  }

  /**
    In every run, with no update under way at the loop head, a subscriber that has got all signals and for
    which nothing changed between query and registration shows what the agent's events determine.
   */
  lemma SubscriberShowsHistory(parse: Parser, cfg: Settings, w: Process, q: nat, m: nat)
    requires Happens(cfg, w) && ReadConfig(parse, cfg.json).Some?
    requires w.sys.pc.AtLoop? && w.svc.pc.Serving? && Subscribed(w.svc.signals, q, m)
    ensures AllTyped(parse, w.svc.signals) && AllValid(w.sys.events)
    ensures ShowsHistory(parse, cfg, w.sys.events, Replica(parse, w.svc.signals, q, m, |w.svc.signals|))
  {
    HappensInv(cfg, w);
    SubscriberShowsAgent(parse, cfg, w, q, m);
    AgentShowsHistory(parse, cfg, w.sys, Replica(parse, w.svc.signals, q, m, |w.svc.signals|));
  }
}
