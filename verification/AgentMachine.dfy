/**
  The same handlers cut at their blocking points: the rendezvous of SetProperty with the D-Bus
  service, and the wait for the client's closed channel in Client.Stop.
 */
module AgentMachine {
  import opened Options
  import opened Status
  import opened Kerberos
  import opened Settings
  import opened Handlers

  /** What stopClient was called for. */
  datatype After = ToSelect | ToRestart(request: nat) | ToExit

  /** What is left to do when a SetProperty returns. */
  datatype Rest =
    | BootLogin
    | BootConfig
    | Ready
    | AfterNetwork
    | AfterLogin(state: LoginState, now: int)
    | TGTEnd(ccache: CCacheUpdate)
    | AfterTGT(ccache: CCacheUpdate)
    | BeforeStop(after: After)
    | AfterStop(after: After)

  datatype PC =
    | AtLoop
    | InSetProperty(update: Update, rest: Rest)
    | InStop(after: After)
    | Exiting
    | InServiceStop
    | Exited

  /** The agent after a local computation, where it blocks next, and its calls on the way. */
  datatype Local = Local(a: Agent, pc: PC, es: seq<Effect>)

  function Height(r: Rest): nat {
    match r
    case BootLogin => 4
    case BootConfig => 0
    case Ready => 0
    case AfterNetwork => 3
    case AfterLogin(_, _) => 1
    case TGTEnd(_) => 0
    case AfterTGT(_) => 0
    case BeforeStop(_) => 1
    case AfterStop(_) => 0
  }

  function Prepend(es: seq<Effect>, l: Local): Local { l.(es := es + l.es) }

  /** setTrustedNetwork followed by r. */
  function EnterNetwork(cfg: Settings, a: Agent, trusted: bool, r: Rest): Local
    decreases Height(r), 1
  {
    var t := NetworkOf(trusted);
    if t == a.trustedNetwork then Resume(cfg, a, r)
    else Local(a.(trustedNetwork := t), InSetProperty(NetworkUpdate(t), r), NetworkNotice(cfg, t))
  }

  /** setLoginState followed by r. */
  function EnterLogin(cfg: Settings, a: Agent, l: LoginState, r: Rest): Local
    decreases Height(r), 1
  {
    if l == a.loginState then Resume(cfg, a, r)
    else
      var o := SwitchLogin(cfg, a, l);
      Local(o.a, InSetProperty(LoginUpdate(l), r), o.es)
  }

  /** stopClient up to its first blocking point, or past it when there is no client. */
  function EnterStop(cfg: Settings, a: Agent, after: After): Local
    decreases 2, 0
  {
    if a.client.None? then Resume(cfg, a, AfterStop(after))
    else EnterLogin(cfg, a, LoggingOut, BeforeStop(after))
  }

  /** From the return of a SetProperty to the next blocking point. */
  function Resume(cfg: Settings, a: Agent, r: Rest): Local
    decreases Height(r), 0
  {
    match r
    case BootLogin => EnterLogin(cfg, a, LoggedOut, BootConfig)
    case BootConfig => Local(a, InSetProperty(ConfigUpdate(cfg), Ready), [])
    case Ready => Local(a, AtLoop, [])
    case AfterNetwork =>
      if a.trustedNetwork == Trusted then
        var o := StartClient(a);
        Local(o.a, AtLoop, o.es)
      else EnterStop(cfg, a, ToSelect)
    case AfterLogin(l, now) =>
      if l == LoggedIn && now != a.lastKeepAlive then
        Local(a.(lastKeepAlive := now), InSetProperty(KeepAliveUpdate(now), Ready), [])
      else Local(a, AtLoop, [])
    case TGTEnd(u) => Local(a, InSetProperty(TGTEndUpdate(a.kerberosTGT.endTime), AfterTGT(u)), [])
    case AfterTGT(u) =>
      var o := SaveCCache(a, u);
      Local(o.a, AtLoop, o.es)
    case BeforeStop(after) =>
      Local(a, InStop(after), if a.client.Some? then [CloseDone(a.client.value)] else [])
    case AfterStop(after) =>
      match after
      case ToSelect => Local(a, AtLoop, [])
      case ToRestart(q) =>
        var o := StartClient(a);
        Local(o.a, AtLoop, o.es + [Reply(q, true)])
      case ToExit => Local(a, Exiting, [])
  }

  /** The return of Client.Stop. */
  function AfterJoin(cfg: Settings, a: Agent, after: After): Local {
    var l := EnterLogin(cfg, a.(client := None, login := None), LoggedOut, AfterStop(after));
    if a.client.Some? then Prepend([Joined(a.client.value)], l) else l
  }

  /** An arm of the main select up to the first blocking point of its handler. */
  function Begin(cfg: Settings, a: Agent, e: Event): Local
    requires ValidEvent(e)
  {
    match e
    case TND(r) => EnterNetwork(cfg, a, r, AfterNetwork)
    case LoginResult(l, now) => EnterLogin(cfg, a, l, AfterLogin(l, now))
    case CCacheUp(u) =>
      var tgt := GetTGT(u, cfg.realm);
      if tgt.None? || tgt.value == a.kerberosTGT then Local(a, AtLoop, [])
      else Local(a.(kerberosTGT := tgt.value), InSetProperty(TGTStartUpdate(tgt.value.startTime), TGTEnd(u)), [])
    case ConfUp(u) =>
      var o := SaveConf(a, u);
      Local(o.a, AtLoop, o.es)
    case ReLogin(q) =>
      if a.trustedNetwork != Trusted then Local(a, AtLoop, [Reply(q, false)])
      else EnterStop(cfg, a, ToRestart(q))
    case Sleep(s) => if s then EnterNetwork(cfg, a, false, AfterNetwork) else Local(a, AtLoop, [])
    case Shutdown => EnterStop(cfg, a, ToExit)
    case SourceClosed(_) => Local(a, Exiting, [])
  }

  /** The end of Agent.Start up to its first blocking point. */
  function BeginBoot(cfg: Settings): Local {
    EnterNetwork(cfg, NEW_AGENT, false, BootLogin)
  }

  // ---------------------------------------------------------------- running to completion

  /** What follows stopClient in the handler that called it. */
  function FinishStop(cfg: Settings, a: Agent, after: After): Out {
    match after
    case ToSelect => Quiet(a)
    case ToRestart(q) =>
      var o := StartClient(a);
      Out(o.a, o.es + [Reply(q, true)])
    case ToExit => Quiet(a)
  }

  /** The part of StopClient from the call of Client.Stop on, with what follows it. */
  function FinishJoin(cfg: Settings, a: Agent, after: After): Out {
    var o1 := SetLoginState(cfg, a.(client := None, login := None), LoggedOut);
    var o2 := FinishStop(cfg, o1.a, after);
    Out(o2.a, (if a.client.Some? then [Joined(a.client.value)] else []) + (o1.es + o2.es))
  }

  function FinishRest(cfg: Settings, a: Agent, r: Rest): Out {
    match r
    case BootLogin =>
      var o := SetLoginState(cfg, a, LoggedOut);
      Out(o.a, o.es + [Publish(ConfigUpdate(cfg))])
    case BootConfig => Out(a, [Publish(ConfigUpdate(cfg))])
    case Ready => Quiet(a)
    case AfterNetwork => if a.trustedNetwork == Trusted then StartClient(a) else StopClient(cfg, a)
    case AfterLogin(l, now) => if l == LoggedIn then SetLastKeepAlive(a, now) else Quiet(a)
    case TGTEnd(u) =>
      var o := SaveCCache(a, u);
      Out(o.a, [Publish(TGTEndUpdate(a.kerberosTGT.endTime))] + o.es)
    case AfterTGT(u) => SaveCCache(a, u)
    case BeforeStop(after) =>
      var o := FinishJoin(cfg, a, after);
      Out(o.a, (if a.client.Some? then [CloseDone(a.client.value)] else []) + o.es)
    case AfterStop(after) => FinishStop(cfg, a, after)
  }

  /** What the agent still does before it is back at the loop, if nothing else happens. */
  function Finish(cfg: Settings, a: Agent, pc: PC): Out {
    match pc
    case InSetProperty(u, r) =>
      var o := FinishRest(cfg, a, r);
      Out(o.a, [Publish(u)] + o.es)
    case InStop(after) => FinishJoin(cfg, a, after)
    case _ => Quiet(a)
  }

  /** A local computation followed by the completion of what it left. */
  function Total(cfg: Settings, l: Local): Out {
    var o := Finish(cfg, l.a, l.pc);
    Out(o.a, l.es + o.es)
  }

  /** Sequencing the calls of three computations in either grouping. */
  lemma Assoc(xs: seq<Effect>, ys: seq<Effect>, zs: seq<Effect>)
    ensures (xs + ys) + zs == xs + (ys + zs)
  {
  }

  lemma ResumeSimple(cfg: Settings, a: Agent, r: Rest)
    requires !r.AfterNetwork? && !r.BootLogin?
    ensures Total(cfg, Resume(cfg, a, r)) == FinishRest(cfg, a, r)
  {
  }

  lemma EnterLoginTotal(cfg: Settings, a: Agent, l: LoginState, r: Rest)
    requires !r.AfterNetwork? && !r.BootLogin?
    ensures var o1 := SetLoginState(cfg, a, l);
            var o2 := FinishRest(cfg, o1.a, r);
            Total(cfg, EnterLogin(cfg, a, l, r)) == Out(o2.a, o1.es + o2.es)
  {
    if l == a.loginState {
      ResumeSimple(cfg, a, r);
      assert EnterLogin(cfg, a, l, r) == Resume(cfg, a, r);
    } else {
      var o := SwitchLogin(cfg, a, l);
      Assoc(o.es, [Publish(LoginUpdate(l))], FinishRest(cfg, o.a, r).es);
    }
  }

  /** StopClient and its continuation, in terms of the parts around Client.Stop. */
  lemma StopSplits(cfg: Settings, a: Agent, after: After)
    requires a.client.Some?
    ensures var o1 := SetLoginState(cfg, a, LoggingOut);
            var o2 := FinishRest(cfg, o1.a, BeforeStop(after));
            var p1 := StopClient(cfg, a);
            var p2 := FinishStop(cfg, p1.a, after);
            Out(o2.a, o1.es + o2.es) == Out(p2.a, p1.es + p2.es)
  {
    var o1 := SetLoginState(cfg, a, LoggingOut);
    var l := SetLoginState(cfg, o1.a.(client := None, login := None), LoggedOut);
    var p2 := FinishStop(cfg, l.a, after);
    var xs, ys := [CloseDone(a.client.value)], [Joined(a.client.value)];
    assert o1.a.client == a.client && xs + ys == [CloseDone(a.client.value), Joined(a.client.value)];
    assert xs + (ys + (l.es + p2.es)) == xs + ys + l.es + p2.es;
    assert o1.es + (xs + ys + l.es + p2.es) == o1.es + (xs + ys) + l.es + p2.es;
  }

  lemma EnterStopTotal(cfg: Settings, a: Agent, after: After)
    ensures var p1 := StopClient(cfg, a);
            var p2 := FinishStop(cfg, p1.a, after);
            Total(cfg, EnterStop(cfg, a, after)) == Out(p2.a, p1.es + p2.es)
  {
    if a.client.Some? {
      EnterLoginTotal(cfg, a, LoggingOut, BeforeStop(after));
      StopSplits(cfg, a, after);
    }
  }

  lemma ResumeTotal(cfg: Settings, a: Agent, r: Rest)
    ensures Total(cfg, Resume(cfg, a, r)) == FinishRest(cfg, a, r)
  {
    if r.AfterNetwork? {
      EnterStopTotal(cfg, a, ToSelect);
    } else if r.BootLogin? {
      EnterLoginTotal(cfg, a, LoggedOut, BootConfig);
    } else {
      ResumeSimple(cfg, a, r);
    }
  }

  lemma EnterNetworkTotal(cfg: Settings, a: Agent, trusted: bool, r: Rest)
    ensures var o1 := SetTrustedNetwork(cfg, a, trusted);
            var o2 := FinishRest(cfg, o1.a, r);
            Total(cfg, EnterNetwork(cfg, a, trusted, r)) == Out(o2.a, o1.es + o2.es)
  {
    var t := NetworkOf(trusted);
    if t == a.trustedNetwork {
      ResumeTotal(cfg, a, r);
      assert EnterNetwork(cfg, a, trusted, r) == Resume(cfg, a, r);
    } else {
      var b := a.(trustedNetwork := t);
      Assoc(NetworkNotice(cfg, t), [Publish(NetworkUpdate(t))], FinishRest(cfg, b, r).es);
    }
  }

  /** Every handler, cut at its blocking points and run through, is the sequential handler. */
  lemma BeginTotal(cfg: Settings, a: Agent, e: Event)
    requires ValidEvent(e)
    ensures Total(cfg, Begin(cfg, a, e)) == Handle(cfg, a, e)
  {
    match e
    case TND(r) => EnterNetworkTotal(cfg, a, r, AfterNetwork);
    case LoginResult(l, now) => EnterLoginTotal(cfg, a, l, AfterLogin(l, now));
    case ReLogin(q) => EnterStopTotal(cfg, a, ToRestart(q));
    case Sleep(s) => EnterNetworkTotal(cfg, a, false, AfterNetwork);
    case Shutdown => EnterStopTotal(cfg, a, ToExit);
    case _ =>
  }

  lemma BeginBootTotal(cfg: Settings)
    ensures Total(cfg, BeginBoot(cfg)) == Boot(cfg)
  {
    EnterNetworkTotal(cfg, NEW_AGENT, false, BootLogin);
  }

  lemma AfterJoinTotal(cfg: Settings, a: Agent, after: After)
    ensures Total(cfg, AfterJoin(cfg, a, after)) == FinishJoin(cfg, a, after)
  {
    EnterLoginTotal(cfg, a.(client := None, login := None), LoggedOut, AfterStop(after));
  }
}
