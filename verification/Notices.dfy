/** Login and logout notices to the user, and what they say about the history of login states. */
module Notices {
  import opened Options
  import opened Status
  import opened Settings
  import opened Handlers
  import opened AgentMachine
  import opened LoginStates

  /** The login notices among the calls, true for a login. */
  function LoginNotices(es: seq<Effect>): seq<bool> {
    if es == [] then []
    else LoginNotices(es[..|es| - 1]) + if es[|es| - 1].NotifyLogin? then [es[|es| - 1].loggedIn] else []
  }

  /** Login first, then logout and login in turns. */
  ghost predicate Alternating(ns: seq<bool>) {
    forall i | 0 <= i < |ns| :: ns[i] <==> i % 2 == 0
  }

  /** Whether the latest LoggedIn or LoggedOut in the history is LoggedIn. */
  function LastSession(p: seq<LoginState>): bool {
    if p == [] then false
    else if p[|p| - 1] == LoggedIn then true
    else if p[|p| - 1] == LoggedOut then false
    else LastSession(p[..|p| - 1])
  }

  /** Notices ns and published login states p fit the agent's fields. */
  ghost predicate Booked(cfg: Settings, ns: seq<bool>, p: seq<LoginState>, a: Agent) {
    && (if cfg.notifications then Alternating(ns) && (a.loggedIn <==> |ns| % 2 == 1) else ns == [])
    && a.loggedIn == LastSession(p)
    && (a.loginState == LoggedIn ==> a.loggedIn)
    && (a.loginState == LoggedOut || a.loginState == LoginUnknown ==> !a.loggedIn)
  }

  ghost predicate Noticed(cfg: Settings, es: seq<Effect>, a: Agent) {
    Booked(cfg, LoginNotices(es), PublishedLogins(es), a)
  }

  lemma {:induction false} NoticesConcat(xs: seq<Effect>, ys: seq<Effect>)
    ensures LoginNotices(xs + ys) == LoginNotices(xs) + LoginNotices(ys)
  {
    if ys == [] {
      assert xs + ys == xs;
    } else {
      assert (xs + ys)[..|xs + ys| - 1] == xs + ys[..|ys| - 1];
      NoticesConcat(xs, ys[..|ys| - 1]);
    }
  }

  /** Calls that concern neither login notices nor the published login state. */
  predicate Unrelated(e: Effect) {
    !e.NotifyLogin? && (e.Publish? ==> e.update.name != PropLoginState)
  }

  lemma {:induction false} UnrelatedSilent(es: seq<Effect>)
    requires forall e | e in es :: Unrelated(e)
    ensures LoginNotices(es) == [] && PublishedLogins(es) == []
  {
    if es != [] {
      assert Unrelated(es[|es| - 1]);
      UnrelatedSilent(es[..|es| - 1]);
    }
  }

  lemma UnrelatedKeeps(cfg: Settings, es: seq<Effect>, a: Agent, o: Out)
    requires Noticed(cfg, es, a)
    requires o.a.loggedIn == a.loggedIn && o.a.loginState == a.loginState
    requires forall e | e in o.es :: Unrelated(e)
    ensures Noticed(cfg, es + o.es, o.a)
  {
    NoticesConcat(es, o.es);
    PublishedConcat(es, o.es);
    UnrelatedSilent(o.es);
    assert LoginNotices(es) + [] == LoginNotices(es) && PublishedLogins(es) + [] == PublishedLogins(es);
  }

  /** Changing the login state gives a notice exactly when the session flag flips. */
  lemma SwitchBooked(cfg: Settings, ns: seq<bool>, p: seq<LoginState>, a: Agent, l: LoginState)
    requires Booked(cfg, ns, p, a) && l != LoginUnknown
    ensures var o := SwitchLogin(cfg, a, l); Booked(cfg, ns + LoginNotices(o.es), p + [l], o.a)
  {
    assert (p + [l])[..|p|] == p;
    assert ns + [] == ns;
  }

  lemma SetLoginNoticed(cfg: Settings, es: seq<Effect>, a: Agent, l: LoginState)
    requires Noticed(cfg, es, a) && l != LoginUnknown
    ensures var o := SetLoginState(cfg, a, l); Noticed(cfg, es + o.es, o.a)
  {
    var o := SetLoginState(cfg, a, l);
    if l == a.loginState {
      assert es + o.es == es;
    } else {
      SwitchBooked(cfg, LoginNotices(es), PublishedLogins(es), a, l);
      SetLoginWrites(cfg, a, l);
      NoticesConcat(es, o.es);
      PublishedConcat(es, o.es);
    }
  }

  lemma PublishWrites(l: LoginState)
    ensures LoginNotices([Publish(LoginUpdate(l))]) == [] && PublishedLogins([Publish(LoginUpdate(l))]) == [l]
  {
    var es := [Publish(LoginUpdate(l))];
    assert es[..|es| - 1] == [];
  }

  lemma SetLoginWrites(cfg: Settings, a: Agent, l: LoginState)
    requires l != a.loginState
    ensures var es := SetLoginState(cfg, a, l).es;
            LoginNotices(es) == LoginNotices(SwitchLogin(cfg, a, l).es) && PublishedLogins(es) == [l]
  {
    var n := SwitchLogin(cfg, a, l).es;
    NoticesConcat(n, [Publish(LoginUpdate(l))]);
    PublishedConcat(n, [Publish(LoginUpdate(l))]);
    NothingPublished(n);
    PublishWrites(l);
    assert LoginNotices(n) + [] == LoginNotices(n);
  }

  lemma BothNoticed(cfg: Settings, es: seq<Effect>, o1: Out, o2: Out)
    requires Noticed(cfg, es + o1.es + o2.es, o2.a)
    ensures var o := Both(o1, o2); Noticed(cfg, es + o.es, o.a)
  {
    Assoc(es, o1.es, o2.es);
  }

  lemma StopNoticed(cfg: Settings, es: seq<Effect>, a: Agent)
    requires Noticed(cfg, es, a)
    ensures var o := StopClient(cfg, a); Noticed(cfg, es + o.es, o.a)
  {
    if a.client.None? {
      UnrelatedKeeps(cfg, es, a, Quiet(a));
    } else {
      var o1 := SetLoginState(cfg, a, LoggingOut);
      var b := o1.a.(client := None, login := None);
      var mid := Out(b, [CloseDone(a.client.value), Joined(a.client.value)]);
      var o2 := SetLoginState(cfg, b, LoggedOut);
      SetLoginNoticed(cfg, es, a, LoggingOut);
      UnrelatedKeeps(cfg, es + o1.es, o1.a, mid);
      BothNoticed(cfg, es, o1, mid);
      SetLoginNoticed(cfg, es + (o1.es + mid.es), b, LoggedOut);
      BothNoticed(cfg, es, Both(o1, mid), o2);
    }
  }

  lemma NetworkNoticed(cfg: Settings, es: seq<Effect>, a: Agent, r: bool)
    requires Noticed(cfg, es, a)
    ensures var o := HandleTNDResult(cfg, a, r); Noticed(cfg, es + o.es, o.a)
    ensures var o := HandleSleepEvent(cfg, a, true); !r ==> Noticed(cfg, es + o.es, o.a)
  {
    var o1 := SetTrustedNetwork(cfg, a, r);
    UnrelatedKeeps(cfg, es, a, o1);
    if o1.a.trustedNetwork == Trusted {
      UnrelatedKeeps(cfg, es + o1.es, o1.a, StartClient(o1.a));
      BothNoticed(cfg, es, o1, StartClient(o1.a));
    } else {
      StopNoticed(cfg, es + o1.es, o1.a);
      BothNoticed(cfg, es, o1, StopClient(cfg, o1.a));
    }
  }

  lemma LoginResultNoticed(cfg: Settings, es: seq<Effect>, a: Agent, l: LoginState, now: int)
    requires Noticed(cfg, es, a) && l != LoginUnknown
    ensures var o := HandleLoginResult(cfg, a, l, now); Noticed(cfg, es + o.es, o.a)
  {
    var o1 := SetLoginState(cfg, a, l);
    SetLoginNoticed(cfg, es, a, l);
    if l == LoggedIn {
      UnrelatedKeeps(cfg, es + o1.es, o1.a, SetLastKeepAlive(o1.a, now));
      BothNoticed(cfg, es, o1, SetLastKeepAlive(o1.a, now));
    }
  }

  lemma ReLoginNoticed(cfg: Settings, es: seq<Effect>, a: Agent, q: nat)
    requires Noticed(cfg, es, a)
    ensures var o := HandleReLogin(cfg, a, q); Noticed(cfg, es + o.es, o.a)
  {
    if a.trustedNetwork != Trusted {
      UnrelatedKeeps(cfg, es, a, HandleReLogin(cfg, a, q));
    } else {
      var o1 := StopClient(cfg, a);
      var o2 := Both(StartClient(o1.a), Out(StartClient(o1.a).a, [Reply(q, true)]));
      StopNoticed(cfg, es, a);
      UnrelatedKeeps(cfg, es + o1.es, o1.a, o2);
      BothNoticed(cfg, es, o1, o2);
      Assoc(o1.es, StartClient(o1.a).es, [Reply(q, true)]);
    }
  }

  lemma CredentialNoticed(cfg: Settings, es: seq<Effect>, a: Agent, e: Event)
    requires Noticed(cfg, es, a) && ValidEvent(e) && (e.CCacheUp? || e.ConfUp?)
    ensures var o := Handle(cfg, a, e); Noticed(cfg, es + o.es, o.a)
  {
    UnrelatedKeeps(cfg, es, a, Handle(cfg, a, e));
  }

  lemma HandleNoticed(cfg: Settings, es: seq<Effect>, a: Agent, e: Event)
    requires Noticed(cfg, es, a) && ValidEvent(e) && (e.LoginResult? ==> e.state != LoginUnknown)
    ensures var o := Handle(cfg, a, e); Noticed(cfg, es + o.es, o.a)
  {
    match e
    case TND(r) => NetworkNoticed(cfg, es, a, r);
    case LoginResult(l, now) => LoginResultNoticed(cfg, es, a, l, now);
    case CCacheUp(_) => CredentialNoticed(cfg, es, a, e);
    case ConfUp(_) => CredentialNoticed(cfg, es, a, e);
    case ReLogin(q) => ReLoginNoticed(cfg, es, a, q);
    case Sleep(s) =>
      if s {
        NetworkNoticed(cfg, es, a, false);
      } else {
        UnrelatedKeeps(cfg, es, a, Quiet(a));
      }
    case Shutdown => StopNoticed(cfg, es, a);
    case SourceClosed(_) => UnrelatedKeeps(cfg, es, a, Quiet(a));
  }

  lemma BootNoticed(cfg: Settings)
    ensures Noticed(cfg, Boot(cfg).es, Boot(cfg).a)
  {
    var o1 := SetTrustedNetwork(cfg, NEW_AGENT, false);
    var o2 := SetLoginState(cfg, o1.a, LoggedOut);
    FirstNoticed(cfg);
    SetLoginNoticed(cfg, o1.es, o1.a, LoggedOut);
    UnrelatedKeeps(cfg, o1.es + o2.es, o2.a, Out(o2.a, [Publish(ConfigUpdate(cfg))]));
  }

  lemma FirstNoticed(cfg: Settings)
    ensures var o := SetTrustedNetwork(cfg, NEW_AGENT, false); Noticed(cfg, o.es, o.a)
  {
    var o := SetTrustedNetwork(cfg, NEW_AGENT, false);
    UnrelatedKeeps(cfg, [], NEW_AGENT, o);
    assert [] + o.es == o.es;
  }

  lemma {:induction false} AllNoticed(cfg: Settings, events: seq<Event>)
    requires AllValid(events) && forall e | e in events && e.LoginResult? :: e.state != LoginUnknown
    ensures var o := HandleAll(cfg, events); Noticed(cfg, o.es, o.a)
  {
    if events == [] {
      BootNoticed(cfg);
    } else {
      var p := events[..|events| - 1];
      AllNoticed(cfg, p);
      assert events[|events| - 1] in events;
      HandleNoticed(cfg, HandleAll(cfg, p).es, HandleAll(cfg, p).a, events[|events| - 1]);
    }
  }

  /** Counting notices of one kind. */
  function Count(ns: seq<bool>, b: bool): nat {
    if ns == [] then 0 else Count(ns[..|ns| - 1], b) + if ns[|ns| - 1] == b then 1 else 0
  }

  lemma {:induction false} AlternatingCounts(ns: seq<bool>)
    requires Alternating(ns)
    ensures Count(ns, true) == Count(ns, false) + |ns| % 2
  {
    if ns != [] {
      AlternatingCounts(ns[..|ns| - 1]);
    }
  }

  lemma AlternatingPrefix(ms: seq<bool>, ns: seq<bool>)
    requires ms <= ns && Alternating(ns)
    ensures Alternating(ms)
  {
    forall i | 0 <= i < |ms|
      ensures ms[i] <==> i % 2 == 0
    {
      assert ms[i] == ns[i];
    }
  }
}
