/** What every reachable state of the agent and its clients satisfies. */
module SystemInvariant {
  import opened Options
  import opened Status
  import opened Kerberos
  import opened Settings
  import opened ClientMachine
  import opened Handlers
  import opened AgentMachine
  import opened System

  /** A goroutine that has ended, its done channel closed exactly once. */
  ghost predicate Gone(c: Client) {
    c.pc.Dead? && c.doneCloses == 1
  }

  /** The agent's references and the clients: all but the referenced one, the latest, are gone. */
  ghost predicate Linked(cfg: Settings, cs: seq<Client>, a: Agent, closing: bool) {
    && a.started == |cs|
    && a.login == a.client
    && (a.client.Some? ==> a.client.value == |cs| - 1 && cs[|cs| - 1].doneCloses == if closing then 1 else 0)
    && (forall i | 0 <= i < |cs| && a.client != Some(i) :: Gone(cs[i]))
    && (forall i | 0 <= i < |cs| :: ClientInv(cfg, cs[i]))
  }

  /** The login state that goes with the place of a client that is not being stopped. */
  ghost predicate Agrees(pc: ClientPC, l: LoginState) {
    if pc.AtSelect? || pc.Resetting? || (pc.Sending? && pc.next.ToLogin?) then l == LoggedOut || l == LoggedIn
    else l == LoggingIn
  }

  datatype Phase = Booting | Steady | Stopping

  function PhaseOf(r: Rest): Phase {
    match r
    case BootLogin => Booting
    case BeforeStop(_) => Stopping
    case _ => Steady
  }

  /** The agent's login state, its client reference and the client's place belong together. */
  ghost predicate LoginFits(cs: seq<Client>, a: Agent, p: Phase)
    requires a.client.Some? ==> a.client.value < |cs|
  {
    match p
    case Booting => a.loginState == LoginUnknown && a.client.None?
    case Stopping => a.loginState == LoggingOut && a.client.Some?
    case Steady => if a.client.Some? then Agrees(cs[a.client.value].pc, a.loginState) else a.loginState == LoggedOut
  }

  ghost predicate RestFits(cfg: Settings, cs: seq<Client>, a: Agent, r: Rest) {
    && Linked(cfg, cs, a, false)
    && LoginFits(cs, a, PhaseOf(r))
    && (r.AfterStop? || r.BootConfig? ==> a.client.None?)
  }

  ghost predicate Fits(cfg: Settings, cs: seq<Client>, a: Agent, pc: PC) {
    match pc
    case InSetProperty(_, r) => RestFits(cfg, cs, a, r)
    case InStop(_) => Linked(cfg, cs, a, true) && LoginFits(cs, a, Stopping)
    case _ => Linked(cfg, cs, a, false) && LoginFits(cs, a, Steady)
  }

  ghost predicate Inv(cfg: Settings, s: State) {
    Fits(cfg, s.clients, s.a, s.pc)
  }

  ghost predicate LocalFits(cfg: Settings, cs: seq<Client>, l: Local) {
    Fits(cfg, AllOnClients(cfg, cs, l.es), l.a, l.pc)
  }

  /** Calls that do not concern clients. */
  predicate Elsewhere(e: Effect) {
    e.NotifyNetwork? || e.NotifyLogin? || e.Publish? || e.Joined? || e.Reply?
  }

  lemma {:induction false} AllOnClientsConcat(cfg: Settings, cs: seq<Client>, xs: seq<Effect>, ys: seq<Effect>)
    ensures AllOnClients(cfg, cs, xs + ys) == AllOnClients(cfg, AllOnClients(cfg, cs, xs), ys)
    decreases |xs|
  {
    if xs == [] {
      assert xs + ys == ys;
    } else {
      assert (xs + ys)[1..] == xs[1..] + ys;
      AllOnClientsConcat(cfg, OnClients(cfg, cs, xs[0]), xs[1..], ys);
    }
  }

  lemma {:induction false} ElsewhereKeeps(cfg: Settings, cs: seq<Client>, es: seq<Effect>)
    requires forall e | e in es :: Elsewhere(e)
    ensures AllOnClients(cfg, cs, es) == cs
    decreases |es|
  {
    if es != [] {
      assert es[0] in es;
      ElsewhereKeeps(cfg, cs, es[1..]);
    }
  }

  lemma PrependFits(cfg: Settings, cs: seq<Client>, es: seq<Effect>, l: Local)
    requires LocalFits(cfg, cs, l) && forall e | e in es :: Elsewhere(e)
    ensures LocalFits(cfg, cs, Prepend(es, l))
  {
    ElsewhereKeeps(cfg, cs, es);
    AllOnClientsConcat(cfg, cs, es, l.es);
  }

  lemma OneEffect(cfg: Settings, cs: seq<Client>, e: Effect)
    ensures AllOnClients(cfg, cs, [e]) == OnClients(cfg, cs, e)
  {
  }

  /** Starting a client in a steady state, with or without further calls elsewhere. */
  lemma StartClientFits(cfg: Settings, cs: seq<Client>, a: Agent, rest: seq<Effect>)
    requires Linked(cfg, cs, a, false) && LoginFits(cs, a, Steady)
    requires forall e | e in rest :: Elsewhere(e)
    ensures var o := StartClient(a);
            LocalFits(cfg, cs, Local(o.a, AtLoop, o.es + rest))
  {
    var o := StartClient(a);
    AllOnClientsConcat(cfg, cs, o.es, rest);
    var ds := AllOnClients(cfg, cs, o.es);
    ElsewhereKeeps(cfg, ds, rest);
    if o.es != [] {
      OneEffect(cfg, cs, o.es[0]);
      NewClientInv(cfg, a.ccacheUp.value.ccache, a.krbcfgUp.value.config);
    }
  }

  lemma EnterLoginFits(cfg: Settings, cs: seq<Client>, a: Agent, l: LoginState, r: Rest)
    requires l != a.loginState
    requires RestFits(cfg, cs, a.(loginState := l), r)
    ensures LocalFits(cfg, cs, EnterLogin(cfg, a, l, r))
  {
    var o := SwitchLogin(cfg, a, l);
    ElsewhereKeeps(cfg, cs, o.es);
  }

  lemma EnterStopFits(cfg: Settings, cs: seq<Client>, a: Agent, after: After)
    requires Linked(cfg, cs, a, false) && LoginFits(cs, a, Steady)
    ensures LocalFits(cfg, cs, EnterStop(cfg, a, after))
  {
    if a.client.Some? {
      EnterLoginFits(cfg, cs, a, LoggingOut, BeforeStop(after));
    } else {
      StoppedFits(cfg, cs, a, after);
    }
  }

  lemma StoppedFits(cfg: Settings, cs: seq<Client>, a: Agent, after: After)
    requires Linked(cfg, cs, a, false) && LoginFits(cs, a, Steady) && a.client.None?
    ensures LocalFits(cfg, cs, Resume(cfg, a, AfterStop(after)))
  {
    if after.ToRestart? {
      StartClientFits(cfg, cs, a, [Reply(after.request, true)]);
    }
  }

  /** Handing credentials to the running client keeps everything but those credentials. */
  lemma GivenFits(cfg: Settings, cs: seq<Client>, a: Agent, e: Effect)
    requires Linked(cfg, cs, a, false) && LoginFits(cs, a, Steady)
    requires e.GiveCCache? || e.GiveConf?
    ensures Linked(cfg, OnClients(cfg, cs, e), a, false) && LoginFits(OnClients(cfg, cs, e), a, Steady)
  {
    if e.id < |cs| {
      var c := cs[e.id];
      var d := if e.GiveCCache? then c.(ccache := e.ccache) else c.(conf := e.conf);
      assert ClientInv(cfg, c);
      GivenInv(cfg, c, d);
      SamePlaceFits(cfg, cs, a, e.id, d);
    }
  }

  lemma GivenInv(cfg: Settings, c: Client, d: Client)
    requires ClientInv(cfg, c) && d == c.(ccache := d.ccache, conf := d.conf)
    ensures ClientInv(cfg, d)
  {
  }

  /** A client replaced by one at the same place, with the same channels. */
  lemma SamePlaceFits(cfg: Settings, cs: seq<Client>, a: Agent, i: nat, d: Client)
    requires Linked(cfg, cs, a, false) && LoginFits(cs, a, Steady) && i < |cs|
    requires ClientInv(cfg, d) && d.pc == cs[i].pc && d.doneCloses == cs[i].doneCloses
    ensures Linked(cfg, cs[i := d], a, false) && LoginFits(cs[i := d], a, Steady)
  {
    var ds := cs[i := d];
    forall k | 0 <= k < |ds| && a.client != Some(k)
      ensures Gone(ds[k])
    {
      assert Gone(cs[k]);
    }
    forall k | 0 <= k < |ds|
      ensures ClientInv(cfg, ds[k])
    {
      assert ClientInv(cfg, cs[k]);
    }
  }

  lemma SaveFits(cfg: Settings, cs: seq<Client>, a: Agent, given: seq<Effect>)
    requires Linked(cfg, cs, a, false) && LoginFits(cs, a, Steady)
    requires given == [] || (|given| == 1 && (given[0].GiveCCache? || given[0].GiveConf?))
    ensures var o := if a.trustedNetwork == Trusted then StartClient(a) else Quiet(a);
            LocalFits(cfg, cs, Local(o.a, AtLoop, given + o.es))
  {
    var o := if a.trustedNetwork == Trusted then StartClient(a) else Quiet(a);
    AllOnClientsConcat(cfg, cs, given, o.es);
    var ds := AllOnClients(cfg, cs, given);
    if given != [] {
      assert given == [given[0]];
      OneEffect(cfg, cs, given[0]);
      GivenFits(cfg, cs, a, given[0]);
    }
    StartClientFits(cfg, ds, a, []);
    assert StartClient(a).es + [] == StartClient(a).es;
  }

  lemma NetworkDoneFits(cfg: Settings, cs: seq<Client>, a: Agent)
    requires RestFits(cfg, cs, a, AfterNetwork)
    ensures LocalFits(cfg, cs, Resume(cfg, a, AfterNetwork))
  {
    if a.trustedNetwork == Trusted {
      StartClientFits(cfg, cs, a, []);
      assert StartClient(a).es + [] == StartClient(a).es;
    } else {
      EnterStopFits(cfg, cs, a, ToSelect);
    }
  }

  lemma TGTDoneFits(cfg: Settings, cs: seq<Client>, a: Agent, u: CCacheUpdate)
    requires RestFits(cfg, cs, a, AfterTGT(u))
    ensures LocalFits(cfg, cs, Resume(cfg, a, AfterTGT(u)))
  {
    var b := a.(ccacheUp := Some(u));
    SaveFits(cfg, cs, b, if b.client.Some? then [GiveCCache(b.client.value, u.ccache)] else []);
  }

  lemma StoppingFits(cfg: Settings, cs: seq<Client>, a: Agent, after: After)
    requires RestFits(cfg, cs, a, BeforeStop(after))
    ensures LocalFits(cfg, cs, Resume(cfg, a, BeforeStop(after)))
  {
    OneEffect(cfg, cs, CloseDone(a.client.value));
  }

  lemma ResumeFits(cfg: Settings, cs: seq<Client>, a: Agent, r: Rest)
    requires RestFits(cfg, cs, a, r)
    ensures LocalFits(cfg, cs, Resume(cfg, a, r))
  {
    match r
    case BootLogin => EnterLoginFits(cfg, cs, a, LoggedOut, BootConfig);
    case AfterNetwork => NetworkDoneFits(cfg, cs, a);
    case AfterTGT(u) => TGTDoneFits(cfg, cs, a, u);
    case BeforeStop(after) => StoppingFits(cfg, cs, a, after);
    case AfterStop(after) => StoppedFits(cfg, cs, a, after);
    case _ =>
  }

  lemma AfterJoinFits(cfg: Settings, cs: seq<Client>, a: Agent, after: After)
    requires Fits(cfg, cs, a, InStop(after)) && cs[a.client.value].closed
    ensures LocalFits(cfg, cs, AfterJoin(cfg, a, after))
  {
    var b := a.(client := None, login := None);
    EnterLoginFits(cfg, cs, b, LoggedOut, AfterStop(after));
    PrependFits(cfg, cs, [Joined(a.client.value)], EnterLogin(cfg, b, LoggedOut, AfterStop(after)));
  }

  lemma EnterNetworkFits(cfg: Settings, cs: seq<Client>, a: Agent, trusted: bool, r: Rest)
    requires RestFits(cfg, cs, a, r)
    ensures LocalFits(cfg, cs, EnterNetwork(cfg, a, trusted, r))
  {
    ResumeFits(cfg, cs, a, r);
    ElsewhereKeeps(cfg, cs, NetworkNotice(cfg, NetworkOf(trusted)));
  }

  /** Every arm but the login result, whose state comes with a move of the client. */
  lemma BeginFits(cfg: Settings, cs: seq<Client>, a: Agent, e: Event)
    requires ValidEvent(e) && !e.LoginResult?
    requires Linked(cfg, cs, a, false) && LoginFits(cs, a, Steady)
    ensures LocalFits(cfg, cs, Begin(cfg, a, e))
  {
    match e
    case TND(r) => EnterNetworkFits(cfg, cs, a, r, AfterNetwork);
    case ConfUp(u) =>
      var b := a.(krbcfgUp := Some(u));
      SaveFits(cfg, cs, b, if b.client.Some? then [GiveConf(b.client.value, u.config)] else []);
    case ReLogin(q) =>
      if a.trustedNetwork == Trusted {
        EnterStopFits(cfg, cs, a, ToRestart(q));
      }
    case Sleep(s) => EnterNetworkFits(cfg, cs, a, false, AfterNetwork);
    case Shutdown => EnterStopFits(cfg, cs, a, ToExit);
    case _ =>
  }

  lemma InitInv(cfg: Settings)
    ensures Inv(cfg, Init(cfg))
  {
    ElsewhereKeeps(cfg, [], NetworkNotice(cfg, NotTrusted));
  }

  /** The latest client takes the place of c in all that concerns the agent. */
  lemma ReplaceFits(cfg: Settings, cs: seq<Client>, a: Agent, i: nat, d: Client, closing: bool)
    requires Linked(cfg, cs, a, closing) && a.client == Some(i)
    requires ClientInv(cfg, d) && d.doneCloses == cs[i].doneCloses
    ensures Linked(cfg, cs[i := d], a, closing)
  {
  }

  /** A result handed over in a rendezvous; the agent's login state is always a different one. */
  lemma DeliverKeeps(cfg: Settings, s: State, now: int)
    requires Inv(cfg, s) && CanDeliver(s)
    ensures Inv(cfg, Do(cfg, s, Deliver(now)).value)
  {
    var i := s.a.login.value;
    var c := s.clients[i];
    assert ClientInv(cfg, c);
    DeliverInv(cfg, c);
    ReplaceFits(cfg, s.clients, s.a, i, Sent(c, true), false);
    var t := SetClient(s, i, Sent(c, true));
    DeliveredFits(cfg, t.clients, s.a, i, c, now);
  }

  lemma DeliveredFits(cfg: Settings, cs: seq<Client>, a: Agent, i: nat, c: Client, now: int)
    requires Linked(cfg, cs, a, false) && a.client == Some(i)
    requires c.pc.Sending? && SendsWell(c.pc) && !Leaving(c.pc) && cs[i] == Sent(c, true) && Agrees(c.pc, a.loginState)
    ensures LocalFits(cfg, cs, Begin(cfg, a, LoginResult(c.pc.state, now)))
  {
    EnterLoginFits(cfg, cs, a, c.pc.state, AfterLogin(c.pc.state, now));
  }

  /** A goroutine that has ended makes no more moves, and its timer is stopped. */
  lemma GoneStays(cfg: Settings, c: Client, m: Move)
    requires ClientInv(cfg, c) && Gone(c)
    ensures ClientStep(cfg, c, m).None?
  {
  }

  /** Moves of a client that is not being stopped stay within what its agent's login state allows. */
  lemma AgreesStays(cfg: Settings, c: Client, m: Move, l: LoginState)
    requires ClientStep(cfg, c, m).Some? && c.doneCloses == 0 && Agrees(c.pc, l) && !Leaving(c.pc)
    ensures Agrees(ClientStep(cfg, c, m).value.pc, l)
  {
  }

  lemma StepKeepsDone(cfg: Settings, c: Client, m: Move)
    requires ClientStep(cfg, c, m).Some?
    ensures ClientStep(cfg, c, m).value.doneCloses == c.doneCloses
  {
  }

  lemma ActKeeps(cfg: Settings, s: State, i: nat, m: Move)
    requires Inv(cfg, s) && Do(cfg, s, Act(i, m)).Some?
    ensures Inv(cfg, Do(cfg, s, Act(i, m)).value)
    ensures s.a.client == Some(i)
  {
    var c := s.clients[i];
    assert ClientInv(cfg, c);
    if s.a.client != Some(i) {
      GoneStays(cfg, c, m);
      assert false;
    }
    var d := ClientStep(cfg, c, m).value;
    ClientStepInv(cfg, c, m);
    StepKeepsDone(cfg, c, m);
    ReplaceFits(cfg, s.clients, s.a, i, d, s.pc.InStop?);
    if c.doneCloses == 0 && Agrees(c.pc, s.a.loginState) {
      AgreesStays(cfg, c, m, s.a.loginState);
    }
  }

  /** The results channel is closed only after done, and by then the agent no longer selects on it. */
  lemma NeverCanSeeClosed(cfg: Settings, s: State)
    requires Inv(cfg, s)
    ensures !CanSeeClosed(s)
  {
    if s.a.client.Some? {
      assert ClientInv(cfg, s.clients[s.a.client.value]);
    }
  }

  lemma InvStep(cfg: Settings, s: State, l: Label)
    requires Inv(cfg, s) && Do(cfg, s, l).Some?
    ensures Inv(cfg, Do(cfg, s, l).value)
  {
    match l
    case Take(e) => BeginFits(cfg, s.clients, s.a, e);
    case Deliver(now) => DeliverKeeps(cfg, s, now);
    case SeeClosed => NeverCanSeeClosed(cfg, s);
    case Published =>
      ResumeFits(cfg, s.clients, s.a, s.pc.rest);
      PrependFits(cfg, s.clients, [Publish(s.pc.update)], Resume(cfg, s.a, s.pc.rest));
    case StopReturns => AfterJoinFits(cfg, s.clients, s.a, s.pc.after);
    case Act(i, m) => ActKeeps(cfg, s, i, m);
    case LeaveLoop =>
  }

  lemma {:induction false} InvExec(cfg: Settings, ls: seq<Label>)
    requires Exec(cfg, Init(cfg), ls).Some?
    ensures Inv(cfg, Exec(cfg, Init(cfg), ls).value)
  {
    if ls == [] {
      InitInv(cfg);
    } else {
      InvExec(cfg, ls[..|ls| - 1]);
      InvStep(cfg, Exec(cfg, Init(cfg), ls[..|ls| - 1]).value, ls[|ls| - 1]);
    }
  }

  lemma ReachableInv(cfg: Settings, s: State)
    requires Reachable(cfg, s)
    ensures Inv(cfg, s)
  {
    var ls: seq<Label> :| Exec(cfg, Init(cfg), ls) == Some(s);
    InvExec(cfg, ls);
  }

  // ---------------------------------------------------------------- consequences at every reachable state

  /** At most one client goroutine is live, and it is the one the agent refers to. */
  lemma OneLiveClient(cfg: Settings, s: State, i: nat, j: nat)
    requires Reachable(cfg, s) && i < |s.clients| && j < |s.clients|
    requires !s.clients[i].pc.Dead? && !s.clients[j].pc.Dead?
    ensures i == j && s.a.client == Some(i) && i == |s.clients| - 1
  {
    ReachableInv(cfg, s);
  }

  /** Every done channel is closed at most once, and only while its client is being stopped. */
  lemma DoneClosedOnce(cfg: Settings, s: State, i: nat)
    requires Reachable(cfg, s) && i < |s.clients|
    ensures s.clients[i].doneCloses <= 1
    ensures s.a.client == Some(i) ==> (s.clients[i].doneCloses == 1 <==> s.pc.InStop?)
    ensures s.a.client != Some(i) ==> s.clients[i].doneCloses == 1
  {
    ReachableInv(cfg, s);
    ClosesFit(cfg, s, i);
  }

  lemma ClosesFit(cfg: Settings, s: State, i: nat)
    requires Inv(cfg, s) && i < |s.clients|
    ensures if s.a.client == Some(i) then s.clients[i].doneCloses == (if s.pc.InStop? then 1 else 0) else Gone(s.clients[i])
  {
  }

  /** The agent's login arm never sees a closed channel, and never a result of a stopped client. */
  lemma LoginArmIsLive(cfg: Settings, s: State)
    requires Reachable(cfg, s)
    ensures Do(cfg, s, SeeClosed).None?
    ensures CanDeliver(s) ==> s.a.client == s.a.login && s.clients[s.a.login.value].doneCloses == 0
    ensures SourceClosed(LoginSource) !in s.events
  {
    ReachableInv(cfg, s);
    NeverCanSeeClosed(cfg, s);
    var ls: seq<Label> :| Exec(cfg, Init(cfg), ls) == Some(s);
    NeverClosedIn(cfg, ls);
  }

  lemma {:induction false} NeverClosedIn(cfg: Settings, ls: seq<Label>)
    requires Exec(cfg, Init(cfg), ls).Some?
    ensures SourceClosed(LoginSource) !in Exec(cfg, Init(cfg), ls).value.events
  {
    if ls != [] {
      NeverClosedIn(cfg, ls[..|ls| - 1]);
      InvExec(cfg, ls[..|ls| - 1]);
      NeverCanSeeClosed(cfg, Exec(cfg, Init(cfg), ls[..|ls| - 1]).value);
    }
  }

  /** The timer of a client at its select is running or has a firing to be received, so no drain ever blocks. */
  lemma TimerDiscipline(cfg: Settings, s: State, i: nat)
    requires Reachable(cfg, s) && i < |s.clients|
    ensures s.clients[i].pc.AtSelect? || s.clients[i].pc.StoppingTimer? ==> s.clients[i].timer.Armed? || s.clients[i].timer.Fired?
    ensures !s.clients[i].pc.Draining?
    ensures AllRearmedWell(cfg, s.clients[i].trace)
    ensures s.clients[i].keepAlive == KeepAliveIn(cfg, s.clients[i].trace)
    ensures DelayMatches(s.clients[i])
  {
    ReachableInv(cfg, s);
    assert ClientInv(cfg, s.clients[i]);
  }

  /**
    In every run, after a login whose body was not parsed a client's timer is re-armed with the configured
    seconds, and after a parsed one with the minutes of the latest positive keep-alive of its logins, or the
    configured minutes if there was none.
   */
  lemma DelaysInRun(cfg: Settings, s: State, i: nat, j: nat)
    requires Reachable(cfg, s) && i < |s.clients| && j < |s.clients[i].trace| && s.clients[i].trace[j].Rearmed?
    ensures j >= 2 && s.clients[i].trace[j - 2].Ended?
    ensures var t, delay := s.clients[i].trace, s.clients[i].trace[j].delay;
            if !t[j - 2].outcome.Parsed? then
              -9223372036 <= cfg.retryTimer <= 9223372036 ==> delay == cfg.retryTimer * 1_000_000_000
            else
              && (-153722867 <= cfg.keepAlive <= 153722867 && (forall k, n: int | 0 <= k < j && n > 0 :: t[k] != Ended(Login, Parsed(n)))
                  ==> delay == cfg.keepAlive * 60_000_000_000)
              && (forall k: nat, n: int | k < j && 0 < n <= 153722867 && t[k] == Ended(Login, Parsed(n))
                    && (forall l, m: int | k < l < j && m > 0 :: t[l] != Ended(Login, Parsed(m))) ::
                    delay == n * 60_000_000_000)
  {
    ReachableInv(cfg, s);
    var c := s.clients[i];
    assert ClientInv(cfg, c);
    DelayFollowsLogin(cfg, c, j);
    if !c.trace[j - 2].outcome.Parsed? {
      if -9223372036 <= cfg.retryTimer <= 9223372036 {
        RetryInSeconds(cfg, c, j);
      }
    } else {
      if -153722867 <= cfg.keepAlive <= 153722867 && forall k, n: int | 0 <= k < j && n > 0 :: c.trace[k] != Ended(Login, Parsed(n)) {
        KeepAliveInMinutes(cfg, c, j);
      }
      forall k: nat, n: int | k < j && 0 < n <= 153722867 && c.trace[k] == Ended(Login, Parsed(n))
                              && (forall l, m: int | k < l < j && m > 0 :: c.trace[l] != Ended(Login, Parsed(m)))
        ensures c.trace[j].delay == n * 60_000_000_000
      {
        AcceptedInMinutes(cfg, c, j, k, n);
      }
    }
  }

  /** In every run, a client that has not tried a login has its timer at zero or fired. */
  lemma FirstDelayInRun(cfg: Settings, s: State, i: nat)
    requires Reachable(cfg, s) && i < |s.clients| && s.clients[i].pc.AtSelect? && s.clients[i].trace == []
    ensures s.clients[i].timer == Armed(0) || s.clients[i].timer.Fired?
  {
    ReachableInv(cfg, s);
    assert ClientInv(cfg, s.clients[i]);
  }
}
