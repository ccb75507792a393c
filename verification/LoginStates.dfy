/** The sequence of login states that the agent publishes. */
module LoginStates {
  import opened Options
  import opened Status
  import opened Settings
  import opened ClientMachine
  import opened Handlers
  import opened AgentMachine
  import opened System
  import opened SystemInvariant

  function LoginOf(code: nat): LoginState {
    match code
    case 1 => LoggedOut
    case 2 => LoggingIn
    case 3 => LoggedIn
    case 4 => LoggingOut
    case _ => LoginUnknown
  }

  function LoginIn(u: Update): seq<LoginState> {
    if u.name == PropLoginState && u.value.Code? then [LoginOf(u.value.code)] else []
  }

  /** The login states among the published updates, in order. */
  function PublishedLogins(es: seq<Effect>): seq<LoginState> {
    if es == [] then []
    else PublishedLogins(es[..|es| - 1]) + if es[|es| - 1].Publish? then LoginIn(es[|es| - 1].update) else []
  }

  /** The login state the agent is blocked on publishing, if any. */
  function PendingLogin(pc: PC): seq<LoginState> {
    if pc.InSetProperty? then LoginIn(pc.update) else []
  }

  /** The changes of the login state that can be observed. */
  predicate Allowed(from: LoginState, to: LoginState) {
    match to
    case LoginUnknown => false
    case LoggedOut => from == LoginUnknown || from == LoggingIn || from == LoggingOut
    case LoggingIn => from == LoggedOut || from == LoggedIn
    case LoggedIn => from == LoggingIn
    case LoggingOut => from == LoggedOut || from == LoggingIn || from == LoggedIn
  }

  function Before(p: seq<LoginState>, i: nat): LoginState
    requires i < |p|
  {
    if i == 0 then LoginUnknown else p[i - 1]
  }

  /** Each state is allowed after the one before it, and the first after Unknown. */
  ghost predicate Chain(p: seq<LoginState>) {
    forall i: nat | i < |p| :: Allowed(Before(p, i), p[i])
  }

  function Latest(p: seq<LoginState>): LoginState {
    if p == [] then LoginUnknown else p[|p| - 1]
  }

  ghost predicate History(s: State) {
    var p := PublishedLogins(s.effects) + PendingLogin(s.pc);
    Chain(p) && Latest(p) == s.a.loginState
  }

  lemma {:induction false} PublishedConcat(xs: seq<Effect>, ys: seq<Effect>)
    ensures PublishedLogins(xs + ys) == PublishedLogins(xs) + PublishedLogins(ys)
  {
    if ys == [] {
      assert xs + ys == xs;
    } else {
      assert (xs + ys)[..|xs + ys| - 1] == xs + ys[..|ys| - 1];
      PublishedConcat(xs, ys[..|ys| - 1]);
    }
  }

  /** A local computation publishes nothing itself, and blocks on the new login state if it has changed it. */
  ghost predicate LoginMove(a: Agent, l: Local) {
    && (forall e | e in l.es :: !e.Publish?)
    && if l.a.loginState == a.loginState then PendingLogin(l.pc) == []
       else PendingLogin(l.pc) == [l.a.loginState] && Allowed(a.loginState, l.a.loginState)
  }

  lemma {:induction false} NothingPublished(es: seq<Effect>)
    requires forall e | e in es :: !e.Publish?
    ensures PublishedLogins(es) == []
  {
    if es != [] {
      NothingPublished(es[..|es| - 1]);
    }
  }

  lemma EnterLoginMove(cfg: Settings, a: Agent, l: LoginState, r: Rest)
    requires Allowed(a.loginState, l)
    ensures LoginMove(a, EnterLogin(cfg, a, l, r))
  {
    assert EnterLogin(cfg, a, l, r) == Local(SwitchLogin(cfg, a, l).a, InSetProperty(LoginUpdate(l), r), SwitchLogin(cfg, a, l).es);
  }

  lemma EnterStopMove(cfg: Settings, cs: seq<Client>, a: Agent, after: After)
    requires Linked(cfg, cs, a, false) && LoginFits(cs, a, Steady)
    ensures LoginMove(a, EnterStop(cfg, a, after))
  {
    if a.client.Some? {
      EnterLoginMove(cfg, a, LoggingOut, BeforeStop(after));
    }
  }

  lemma ResumeMove(cfg: Settings, cs: seq<Client>, a: Agent, r: Rest)
    requires RestFits(cfg, cs, a, r)
    ensures LoginMove(a, Resume(cfg, a, r))
  {
    match r
    case BootLogin => EnterLoginMove(cfg, a, LoggedOut, BootConfig);
    case AfterNetwork =>
      if a.trustedNetwork != Trusted {
        EnterStopMove(cfg, cs, a, ToSelect);
      }
    case _ =>
  }

  lemma EnterNetworkMove(cfg: Settings, cs: seq<Client>, a: Agent, trusted: bool)
    requires Linked(cfg, cs, a, false) && LoginFits(cs, a, Steady)
    ensures LoginMove(a, EnterNetwork(cfg, a, trusted, AfterNetwork))
  {
    ResumeMove(cfg, cs, a, AfterNetwork);
  }

  lemma BeginMove(cfg: Settings, cs: seq<Client>, a: Agent, e: Event)
    requires ValidEvent(e) && !e.LoginResult?
    requires Linked(cfg, cs, a, false) && LoginFits(cs, a, Steady)
    ensures LoginMove(a, Begin(cfg, a, e))
  {
    match e
    case TND(r) => EnterNetworkMove(cfg, cs, a, r);
    case Sleep(s) => EnterNetworkMove(cfg, cs, a, false);
    case ReLogin(q) =>
      if a.trustedNetwork == Trusted {
        EnterStopMove(cfg, cs, a, ToRestart(q));
      }
    case Shutdown => EnterStopMove(cfg, cs, a, ToExit);
    case _ =>
  }

  /** The published states after a local computation that follows the given calls. */
  lemma PublishedBy(s: seq<Effect>, published: seq<Effect>, es: seq<Effect>)
    requires forall e | e in es :: !e.Publish?
    ensures PublishedLogins(s + (published + es)) == PublishedLogins(s) + PublishedLogins(published)
  {
    Assoc(s, published, es);
    PublishedConcat(s, published);
    PublishedConcat(s + published, es);
    NothingPublished(es);
  }

  lemma ChainExtends(p: seq<LoginState>, q: seq<LoginState>)
    requires Chain(p) && (q == [] || (|q| == 1 && Allowed(Latest(p), q[0])))
    ensures Chain(p + q)
  {
    forall i: nat | i < |p + q|
      ensures Allowed(Before(p + q, i), (p + q)[i])
    {
      if i < |p| {
        assert Before(p + q, i) == Before(p, i) && Allowed(Before(p, i), p[i]);
      }
    }
  }

  lemma ChainPrefix(q: seq<LoginState>, r: seq<LoginState>)
    requires Chain(q + r)
    ensures Chain(q)
    ensures q != [] ==> q[0] == LoggedOut
  {
    forall i: nat | i < |q|
      ensures Allowed(Before(q, i), q[i])
    {
      assert Before(q + r, i) == Before(q, i) && Allowed(Before(q + r, i), (q + r)[i]);
    }
  }

  /** The agent has computed l after completing the pending publication. */
  lemma ApplyHistory(cfg: Settings, s: State, l: Local, published: seq<Effect>)
    requires History(s)
    requires LoginMove(s.a, l)
    requires PublishedLogins(published) == PendingLogin(s.pc)
    ensures History(Apply(cfg, s, Prepend(published, l)))
  {
    PublishedBy(s.effects, published, l.es);
    ChainExtends(PublishedLogins(s.effects) + PendingLogin(s.pc), PendingLogin(l.pc));
  }

  lemma TakeHistory(cfg: Settings, s: State, e: Event)
    requires History(s) && s.pc.AtLoop? && ValidEvent(e) && LoginMove(s.a, Begin(cfg, s.a, e))
    ensures History(TakeEvent(cfg, s, e))
  {
    var l := Begin(cfg, s.a, e);
    ApplyHistory(cfg, s.(events := s.events + [e]), l, []);
    assert Prepend([], l) == l;
  }

  lemma DeliverHistory(cfg: Settings, s: State, now: int)
    requires Inv(cfg, s) && History(s) && CanDeliver(s)
    ensures History(Do(cfg, s, Deliver(now)).value)
  {
    var i := s.a.login.value;
    var c := s.clients[i];
    assert ClientInv(cfg, c);
    EnterLoginMove(cfg, s.a, c.pc.state, AfterLogin(c.pc.state, now));
    TakeHistory(cfg, SetClient(s, i, Sent(c, true)), LoginResult(c.pc.state, now));
  }

  lemma JoinMove(cfg: Settings, a: Agent, after: After)
    requires Allowed(a.loginState, LoggedOut)
    ensures LoginMove(a, AfterJoin(cfg, a, after))
  {
    EnterLoginMove(cfg, a.(client := None, login := None), LoggedOut, AfterStop(after));
  }

  lemma StopReturnsHistory(cfg: Settings, s: State)
    requires History(s) && s.pc.InStop? && s.a.loginState == LoggingOut
    ensures History(Apply(cfg, s, AfterJoin(cfg, s.a, s.pc.after)))
  {
    var l := AfterJoin(cfg, s.a, s.pc.after);
    JoinMove(cfg, s.a, s.pc.after);
    ApplyHistory(cfg, s, l, []);
    assert Prepend([], l) == l;
  }

  lemma HistoryStep(cfg: Settings, s: State, l: Label)
    requires Inv(cfg, s) && History(s) && Do(cfg, s, l).Some?
    ensures History(Do(cfg, s, l).value)
  {
    match l
    case Take(e) =>
      BeginMove(cfg, s.clients, s.a, e);
      TakeHistory(cfg, s, e);
    case Deliver(now) => DeliverHistory(cfg, s, now);
    case SeeClosed => NeverCanSeeClosed(cfg, s);
    case Published =>
      ResumeMove(cfg, s.clients, s.a, s.pc.rest);
      assert PublishedLogins([Publish(s.pc.update)]) == LoginIn(s.pc.update);
      ApplyHistory(cfg, s, Resume(cfg, s.a, s.pc.rest), [Publish(s.pc.update)]);
    case StopReturns => StopReturnsHistory(cfg, s);
    case LeaveLoop =>
    case Act(_, _) =>
  }

  lemma {:induction false} HistoryExec(cfg: Settings, ls: seq<Label>)
    requires Exec(cfg, Init(cfg), ls).Some?
    ensures History(Exec(cfg, Init(cfg), ls).value)
  {
    if ls == [] {
      NothingPublished(Init(cfg).effects);
    } else {
      HistoryExec(cfg, ls[..|ls| - 1]);
      InvExec(cfg, ls[..|ls| - 1]);
      HistoryStep(cfg, Exec(cfg, Init(cfg), ls[..|ls| - 1]).value, ls[|ls| - 1]);
    }
  }

  lemma ReachableHistory(cfg: Settings, s: State)
    requires Reachable(cfg, s)
    ensures History(s)
  {
    var ls: seq<Label> :| Exec(cfg, Init(cfg), ls) == Some(s);
    HistoryExec(cfg, ls);
  }

  /** In every run and interleaving, each change of the published login state is an allowed one. */
  lemma LoginTransitions(cfg: Settings, s: State)
    requires Reachable(cfg, s)
    ensures Chain(PublishedLogins(s.effects))
    ensures PublishedLogins(s.effects) != [] ==> PublishedLogins(s.effects)[0] == LoggedOut
    ensures s.pc.AtLoop? ==> Latest(PublishedLogins(s.effects)) == s.a.loginState
  {
    ReachableHistory(cfg, s);
    var q, r := PublishedLogins(s.effects), PendingLogin(s.pc);
    ChainPrefix(q, r);
    if s.pc.AtLoop? {
      assert q + r == q;
    }
  }
}
