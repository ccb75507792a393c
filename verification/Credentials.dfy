/** The credentials of a running client and of the requests it makes. */
module Credentials {
  import opened Options
  import opened Status
  import opened Kerberos
  import opened Settings
  import opened ClientMachine
  import opened Handlers
  import opened AgentMachine
  import opened System
  import opened SystemInvariant

  /** The client has not failed a nil guard, and holds credentials where it is about to use them. */
  ghost predicate Guarded(c: Client, noNil: bool) {
    && (forall act | act in c.trace && act.Ended? :: !act.outcome.NoCCache? && (noNil ==> !act.outcome.NoConf?))
    && (c.pc.Requesting? && c.pc.stage.ReadConf? ==> c.pc.stage.ccache.Some?)
    && (c.pc.Requesting? && c.pc.stage.InFlight? ==> c.pc.stage.ccache.Some? && (noNil ==> c.pc.stage.conf.Some?))
  }

  /** The running client's credentials are the saved ones. */
  ghost predicate Held(cs: seq<Client>, a: Agent)
    requires a.client.Some? ==> a.client.value < |cs|
  {
    a.client.Some? ==>
      && a.ccacheUp.Some? && cs[a.client.value].ccache == a.ccacheUp.value.ccache
      && a.krbcfgUp.Some? && cs[a.client.value].conf == a.krbcfgUp.value.config
  }

  ghost predicate Saved(a: Agent, noNil: bool) {
    && (a.ccacheUp.Some? ==> a.ccacheUp.value.ccache.Some?)
    && (noNil && a.krbcfgUp.Some? ==> a.krbcfgUp.value.config.Some?)
  }

  ghost predicate RestSaves(r: Rest) {
    && (r.TGTEnd? ==> r.ccache.ccache.Some?)
    && (r.AfterTGT? ==> r.ccache.ccache.Some?)
  }

  ghost predicate Creds(cs: seq<Client>, a: Agent, noNil: bool) {
    && |cs| == a.started
    && (a.client.Some? ==> a.client.value < |cs|)
    && Saved(a, noNil)
    && Held(cs, a)
    && (forall i | 0 <= i < |cs| :: Guarded(cs[i], noNil))
  }

  ghost predicate LocalCreds(cfg: Settings, cs: seq<Client>, l: Local, noNil: bool) {
    && Creds(AllOnClients(cfg, cs, l.es), l.a, noNil)
    && (l.pc.InSetProperty? ==> RestSaves(l.pc.rest))
  }

  ghost predicate CredInv(s: State) {
    && Creds(s.clients, s.a, NoNilConf(s.events))
    && (s.pc.InSetProperty? ==> RestSaves(s.pc.rest))
  }

  lemma StartCreds(cfg: Settings, cs: seq<Client>, a: Agent, rest: seq<Effect>, noNil: bool)
    requires Creds(cs, a, noNil)
    requires forall e | e in rest :: Elsewhere(e)
    ensures var o := StartClient(a);
            Creds(AllOnClients(cfg, cs, o.es + rest), o.a, noNil)
  {
    var o := StartClient(a);
    AllOnClientsConcat(cfg, cs, o.es, rest);
    ElsewhereKeeps(cfg, AllOnClients(cfg, cs, o.es), rest);
    if o.es != [] {
      OneEffect(cfg, cs, o.es[0]);
    }
  }

  lemma EnterLoginCreds(cfg: Settings, cs: seq<Client>, a: Agent, l: LoginState, r: Rest, noNil: bool)
    requires Creds(cs, a, noNil) && l != a.loginState && RestSaves(r)
    ensures LocalCreds(cfg, cs, EnterLogin(cfg, a, l, r), noNil)
  {
    ElsewhereKeeps(cfg, cs, SwitchLogin(cfg, a, l).es);
  }

  lemma StoppedCreds(cfg: Settings, cs: seq<Client>, a: Agent, after: After, noNil: bool)
    requires Creds(cs, a, noNil)
    ensures LocalCreds(cfg, cs, Resume(cfg, a, AfterStop(after)), noNil)
  {
    if after.ToRestart? {
      StartCreds(cfg, cs, a, [Reply(after.request, true)], noNil);
    }
  }

  lemma EnterStopCreds(cfg: Settings, cs: seq<Client>, a: Agent, after: After, noNil: bool)
    requires Creds(cs, a, noNil) && (a.client.Some? ==> a.loginState != LoggingOut)
    ensures LocalCreds(cfg, cs, EnterStop(cfg, a, after), noNil)
  {
    if a.client.Some? {
      EnterLoginCreds(cfg, cs, a, LoggingOut, BeforeStop(after), noNil);
    } else {
      StoppedCreds(cfg, cs, a, after, noNil);
    }
  }

  /** Saving new credentials and handing them over keeps the two copies equal. */
  lemma SaveCCacheCreds(cfg: Settings, cs: seq<Client>, a: Agent, u: CCacheUpdate, noNil: bool)
    requires Creds(cs, a, noNil) && u.ccache.Some?
    ensures var o := SaveCCache(a, u);
            Creds(AllOnClients(cfg, cs, o.es), o.a, noNil)
  {
    var b := a.(ccacheUp := Some(u));
    GiveCreds(cfg, cs, b, if b.client.Some? then [GiveCCache(b.client.value, u.ccache)] else [], noNil);
  }

  lemma SaveConfCreds(cfg: Settings, cs: seq<Client>, a: Agent, u: ConfUpdate, noNil: bool)
    requires Creds(cs, a, noNil) && (noNil ==> u.config.Some?)
    ensures var o := SaveConf(a, u);
            Creds(AllOnClients(cfg, cs, o.es), o.a, noNil)
  {
    var b := a.(krbcfgUp := Some(u));
    GiveCreds(cfg, cs, b, if b.client.Some? then [GiveConf(b.client.value, u.config)] else [], noNil);
  }

  lemma GiveCreds(cfg: Settings, cs: seq<Client>, b: Agent, given: seq<Effect>, noNil: bool)
    requires |given| <= 1
    requires Creds(if given == [] then cs else OnClients(cfg, cs, given[0]), b, noNil)
    ensures var o := if b.trustedNetwork == Trusted then StartClient(b) else Quiet(b);
            Creds(AllOnClients(cfg, cs, given + o.es), o.a, noNil)
  {
    var o := if b.trustedNetwork == Trusted then StartClient(b) else Quiet(b);
    AllOnClientsConcat(cfg, cs, given, o.es);
    if given != [] {
      assert given == [given[0]];
      OneEffect(cfg, cs, given[0]);
    }
    var ds := AllOnClients(cfg, cs, given);
    StartCreds(cfg, ds, b, [], noNil);
    assert StartClient(b).es + [] == StartClient(b).es;
  }

  lemma ResumeCreds(cfg: Settings, cs: seq<Client>, a: Agent, r: Rest, noNil: bool)
    requires Creds(cs, a, noNil) && RestSaves(r) && RestFits(cfg, cs, a, r)
    ensures LocalCreds(cfg, cs, Resume(cfg, a, r), noNil)
  {
    match r
    case BootLogin => EnterLoginCreds(cfg, cs, a, LoggedOut, BootConfig, noNil);
    case AfterNetwork =>
      if a.trustedNetwork == Trusted {
        StartCreds(cfg, cs, a, [], noNil);
        assert StartClient(a).es + [] == StartClient(a).es;
      } else {
        EnterStopCreds(cfg, cs, a, ToSelect, noNil);
      }
    case AfterTGT(u) => SaveCCacheCreds(cfg, cs, a, u, noNil);
    case BeforeStop(after) => OneEffect(cfg, cs, CloseDone(a.client.value));
    case AfterStop(after) => StoppedCreds(cfg, cs, a, after, noNil);
    case _ =>
  }

  lemma EnterNetworkCreds(cfg: Settings, cs: seq<Client>, a: Agent, trusted: bool, r: Rest, noNil: bool)
    requires Creds(cs, a, noNil) && RestSaves(r) && RestFits(cfg, cs, a, r)
    ensures LocalCreds(cfg, cs, EnterNetwork(cfg, a, trusted, r), noNil)
  {
    ResumeCreds(cfg, cs, a, r, noNil);
    ElsewhereKeeps(cfg, cs, NetworkNotice(cfg, NetworkOf(trusted)));
  }

  lemma BeginCreds(cfg: Settings, cs: seq<Client>, a: Agent, e: Event, noNil: bool)
    requires ValidEvent(e) && !e.LoginResult?
    requires Creds(cs, a, noNil) && Linked(cfg, cs, a, false) && LoginFits(cs, a, Steady)
    requires noNil && e.ConfUp? ==> e.conf.config.Some?
    ensures LocalCreds(cfg, cs, Begin(cfg, a, e), noNil)
  {
    match e
    case TND(r) => EnterNetworkCreds(cfg, cs, a, r, AfterNetwork, noNil);
    case Sleep(s) => EnterNetworkCreds(cfg, cs, a, false, AfterNetwork, noNil);
    case ConfUp(u) => SaveConfCreds(cfg, cs, a, u, noNil);
    case ReLogin(q) =>
      if a.trustedNetwork == Trusted {
        EnterStopCreds(cfg, cs, a, ToRestart(q), noNil);
      }
    case Shutdown => EnterStopCreds(cfg, cs, a, ToExit, noNil);
    case _ =>
  }

  /** Excluding nil configs from more events asks more; what was shown for fewer may be weakened. */
  lemma Weaken(cs: seq<Client>, a: Agent, noNil: bool)
    requires Creds(cs, a, noNil)
    ensures Creds(cs, a, false)
  {
  }

  lemma TakeCreds(cfg: Settings, s: State, e: Event)
    requires CredInv(s) && ValidEvent(e)
    requires LocalCreds(cfg, s.clients, Begin(cfg, s.a, e), NoNilConf(s.events + [e]))
    ensures CredInv(TakeEvent(cfg, s, e))
  {
  }

  lemma MoreEvents(s: State, e: Event)
    requires CredInv(s)
    ensures Creds(s.clients, s.a, NoNilConf(s.events + [e]))
    ensures NoNilConf(s.events + [e]) && e.ConfUp? ==> e.conf.config.Some?
  {
    var all := s.events + [e];
    assert e == all[|s.events|];
    if NoNilConf(all) {
      forall x | x in s.events && x.ConfUp?
        ensures x.conf.config.Some?
      {
        assert x in all;
      }
    } else {
      Weaken(s.clients, s.a, NoNilConf(s.events));
    }
  }

  lemma MoveCreds(cfg: Settings, s: State, i: nat, m: Move)
    requires CredInv(s) && s.a.client == Some(i) && ClientStep(cfg, s.clients[i], m).Some?
    ensures CredInv(SetClient(s, i, ClientStep(cfg, s.clients[i], m).value))
  {
    GuardedMove(cfg, s.clients[i], m, NoNilConf(s.events));
  }

  /** A client that holds its credentials passes the guards, and a move leaves the credentials alone. */
  lemma GuardedMove(cfg: Settings, c: Client, m: Move, noNil: bool)
    requires ClientStep(cfg, c, m).Some? && Guarded(c, noNil) && c.ccache.Some? && (noNil ==> c.conf.Some?)
    ensures var d := ClientStep(cfg, c, m).value; Guarded(d, noNil) && d.ccache == c.ccache && d.conf == c.conf
  {
  }

  lemma CredStep(cfg: Settings, s: State, l: Label)
    requires Inv(cfg, s) && CredInv(s) && Do(cfg, s, l).Some?
    ensures CredInv(Do(cfg, s, l).value)
  {
    match l
    case Take(e) =>
      MoreEvents(s, e);
      BeginCreds(cfg, s.clients, s.a, e, NoNilConf(s.events + [e]));
      TakeCreds(cfg, s, e);
    case Deliver(now) => DeliverCreds(cfg, s, now);
    case SeeClosed => NeverCanSeeClosed(cfg, s);
    case Published =>
      var r := Resume(cfg, s.a, s.pc.rest);
      ResumeCreds(cfg, s.clients, s.a, s.pc.rest, NoNilConf(s.events));
      ElsewhereKeeps(cfg, s.clients, [Publish(s.pc.update)]);
      AllOnClientsConcat(cfg, s.clients, [Publish(s.pc.update)], r.es);
    case StopReturns =>
      var b := s.a.(client := None, login := None);
      var r := EnterLogin(cfg, b, LoggedOut, AfterStop(s.pc.after));
      EnterLoginCreds(cfg, s.clients, b, LoggedOut, AfterStop(s.pc.after), NoNilConf(s.events));
      ElsewhereKeeps(cfg, s.clients, [Joined(s.a.client.value)]);
      AllOnClientsConcat(cfg, s.clients, [Joined(s.a.client.value)], r.es);
    case LeaveLoop =>
    case Act(i, m) =>
      ActKeeps(cfg, s, i, m);
      MoveCreds(cfg, s, i, m);
  }

  lemma DeliverCreds(cfg: Settings, s: State, now: int)
    requires Inv(cfg, s) && CredInv(s) && CanDeliver(s)
    ensures CredInv(Do(cfg, s, Deliver(now)).value)
  {
    var i := s.a.login.value;
    var c := s.clients[i];
    var e := LoginResult(c.pc.state, now);
    assert ClientInv(cfg, c);
    var t := SetClient(s, i, Sent(c, true));
    assert CredInv(t);
    MoreEvents(t, e);
    EnterLoginCreds(cfg, t.clients, t.a, c.pc.state, AfterLogin(c.pc.state, now), NoNilConf(t.events + [e]));
    TakeCreds(cfg, t, e);
  }

  lemma {:induction false} CredExec(cfg: Settings, ls: seq<Label>)
    requires Exec(cfg, Init(cfg), ls).Some?
    ensures CredInv(Exec(cfg, Init(cfg), ls).value)
  {
    if ls == [] {
      ElsewhereKeeps(cfg, [], NetworkNotice(cfg, NotTrusted));
    } else {
      CredExec(cfg, ls[..|ls| - 1]);
      InvExec(cfg, ls[..|ls| - 1]);
      CredStep(cfg, Exec(cfg, Init(cfg), ls[..|ls| - 1]).value, ls[|ls| - 1]);
    }
  }

  /** At every point of every run, a running client's credentials are the ones saved in the agent. */
  lemma CredentialsAgree(cfg: Settings, s: State)
    requires Reachable(cfg, s) && s.a.client.Some?
    ensures s.a.client.value < |s.clients| && s.a.ccacheUp.Some? && s.a.krbcfgUp.Some?
    ensures s.clients[s.a.client.value].ccache == s.a.ccacheUp.value.ccache
    ensures s.clients[s.a.client.value].conf == s.a.krbcfgUp.value.config
  {
    var ls: seq<Label> :| Exec(cfg, Init(cfg), ls) == Some(s);
    CredExec(cfg, ls);
  }

  /**
    No client ever fails the ccache guard of doServiceRequest, nor the config guard if no update came
    without a config, and every request in flight carries both credentials.
   */
  lemma GuardsNeverTaken(cfg: Settings, s: State, i: nat)
    requires Reachable(cfg, s) && i < |s.clients|
    ensures forall act | act in s.clients[i].trace && act.Ended? :: !act.outcome.NoCCache?
    ensures NoNilConf(s.events) ==> forall act | act in s.clients[i].trace && act.Ended? :: !act.outcome.NoConf?
    ensures s.clients[i].pc.Requesting? && s.clients[i].pc.stage.InFlight? ==>
              s.clients[i].pc.stage.ccache.Some? && (NoNilConf(s.events) ==> s.clients[i].pc.stage.conf.Some?)
  {
    var ls: seq<Label> :| Exec(cfg, Init(cfg), ls) == Some(s);
    CredExec(cfg, ls);
    assert Guarded(s.clients[i], NoNilConf(s.events));
  }
}
