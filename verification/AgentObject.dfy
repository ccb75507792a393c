/**
  The agent as the source has it: an object whose handlers change its fields and call the client, the
  D-Bus service and the notifier. Every handler does what its function in Handlers says.
 */
module AgentObject {
  import opened Options
  import opened Status
  import opened Kerberos
  import opened Settings
  import opened Handlers
  import opened ClientObject
  import AgentMachine

  /** Only the last of the first n events may end the loop; running says that none of them does. */
  ghost predicate RunsTo(events: seq<Event>, n: nat, running: bool) {
    && n <= |events|
    && (forall i | 0 <= i < n - 1 :: !EndEvent(events[i]))
    && (if running then n > 0 ==> !EndEvent(events[n - 1]) else n > 0 && EndEvent(events[n - 1]))
  }

  lemma RunsNext(events: seq<Event>, n: nat)
    requires n < |events| && RunsTo(events, n, true)
    ensures RunsTo(events, n + 1, !EndEvent(events[n]))
  {
  }

  class IdentityAgent {
    const cfg: Settings
    var client: LoginClient?
    var login: LoginClient?
    var ccacheUp: Option<CCacheUpdate>
    var krbcfgUp: Option<ConfUpdate>
    var kerberosTGT: KerberosTicket
    var trustedNetwork: TrustedNetwork
    var loginState: LoginState
    var loggedIn: bool
    var lastKeepAlive: int

    /** The number of clients created, and the calls made on other components, in order. */
    var started: nat
    var calls: seq<Effect>

    function View(): Agent
      reads this
    {
      Agent(trustedNetwork, loginState, loggedIn, lastKeepAlive, kerberosTGT, ccacheUp, krbcfgUp,
            if client == null then None else Some(client.id), if login == null then None else Some(login.id), started)
    }

    /** A running client is the latest one, is not being stopped, and has the saved credentials. */
    ghost predicate Valid()
      reads this, client
    {
      && login == client
      && (client != null ==>
            && client.id + 1 == started && client.cfg == cfg
            && !client.doneClosed && !client.closed && (client.timer.Armed? || client.timer.Fired?)
            && ccacheUp.Some? && client.ccache == ccacheUp.value.ccache
            && krbcfgUp.Some? && client.krb5conf == krbcfgUp.value.config)
    }

    /** This call has gone from the given state to o, in fields and in calls. */
    twostate predicate Did(o: Out)
      reads this
    {
      View() == o.a && calls == old(calls) + o.es
    }

    constructor (cfg: Settings)
      ensures Valid() && this.cfg == cfg
      ensures View() == NEW_AGENT && calls == []
    {
      this.cfg := cfg;
      client, login := null, null;
      ccacheUp, krbcfgUp := None, None;
      kerberosTGT := KerberosTicket(0, 0);
      trustedNetwork, loginState, loggedIn := NetworkUnknown, LoginUnknown, false;
      lastKeepAlive, started, calls := 0, 0, [];
    }

    method SetProperty(u: Update)
      modifies this`calls
      ensures calls == old(calls) + [Publish(u)]
    {
      calls := calls + [Publish(u)];
    }

    method Notify(e: Effect)
      modifies this`calls
      ensures calls == old(calls) + if cfg.notifications then [e] else []
    {
      if cfg.notifications {
        calls := calls + [e];
      }
    }

    method SetTrustedNetwork(trusted: bool)
      requires Valid()
      modifies this`trustedNetwork, this`calls
      ensures Valid() && Did(Handlers.SetTrustedNetwork(cfg, old(View()), trusted))
    {
      var t := NotTrusted;
      if trusted {
        t := Trusted;
      }
      if t == trustedNetwork {
        return;
      }
      trustedNetwork := t;
      Notify(NotifyNetwork(trustedNetwork == Trusted));
      SetProperty(NetworkUpdate(trustedNetwork));
    }

    method SetLoginState(l: LoginState)
      requires Valid()
      modifies this`loginState, this`loggedIn, this`calls
      ensures Valid() && Did(Handlers.SetLoginState(cfg, old(View()), l))
    {
      if l == loginState {
        return;
      }
      loginState := l;
      match loginState {
        case LoggedOut =>
          if loggedIn {
            loggedIn := false;
            Notify(NotifyLogin(loggedIn));
          }
        case LoggedIn =>
          if !loggedIn {
            loggedIn := true;
            Notify(NotifyLogin(loggedIn));
          }
        case _ =>
      }
      SetProperty(LoginUpdate(loginState));
    }

    method SetLastKeepAlive(now: int)
      requires Valid()
      modifies this`lastKeepAlive, this`calls
      ensures Valid() && Did(Handlers.SetLastKeepAlive(old(View()), now))
    {
      if now == lastKeepAlive {
        return;
      }
      lastKeepAlive := now;
      SetProperty(KeepAliveUpdate(lastKeepAlive));
    }

    method SetKerberosTGT(start: int, end: int)
      requires Valid()
      modifies this`kerberosTGT, this`calls
      ensures Valid() && Did(Handlers.SetKerberosTGT(old(View()), start, end))
    {
      if start == kerberosTGT.startTime && end == kerberosTGT.endTime {
        return;
      }
      kerberosTGT := KerberosTicket(start, end);
      SetProperty(TGTStartUpdate(kerberosTGT.startTime));
      SetProperty(TGTEndUpdate(kerberosTGT.endTime));
    }

    method StartClient()
      requires Valid()
      modifies this`client, this`login, this`started, this`calls
      ensures Valid() && Did(Handlers.StartClient(old(View())))
      ensures client != old(client) ==> fresh(client)
    {
      if client != null {
        return;
      }
      if ccacheUp.None? || ccacheUp.value.ccache.None? {
        return;
      }
      if krbcfgUp.None? || krbcfgUp.value.config.None? {
        return;
      }
      client := new LoginClient(cfg, started, ccacheUp.value.ccache, krbcfgUp.value.config);
      assert client.At(ClientMachine.AtSelect).doneCloses == 0;
      started := started + 1;
      calls := calls + [Spawn(client.id, client.ccache, client.krb5conf)];
      login := client;
    }

    /** The middle of stopClient: end the running client and forget it. */
    method EndClient()
      requires Valid() && client != null
      modifies this`client, this`login, this`calls, client
      ensures Valid() && client == null
      ensures View() == old(View()).(client := None, login := None)
      ensures calls == old(calls) + [CloseDone(old(client.id)), Joined(old(client.id))]
    {
      calls := calls + [CloseDone(client.id)];
      var turns: seq<Turn> := *;
      if !EndingTurns(turns) {
        turns := [DoneTurn(ClientMachine.Failed, false, false)];
        assert turns[0].DoneTurn?;
      }
      client.Stop(turns);
      calls := calls + [Joined(client.id)];
      client := null;
      login := null;
    }

    method StopClient()
      requires Valid()
      modifies this`client, this`login, this`loginState, this`loggedIn, this`calls, client
      ensures Valid() && Did(Handlers.StopClient(cfg, old(View())))
      ensures client == null
    {
      if client == null {
        return;
      }
      SetLoginState(LoggingOut);
      EndClient();
      SetLoginState(LoggedOut);
    }

    method HandleTNDResult(r: bool)
      requires Valid()
      modifies this, client
      ensures Valid() && Did(Handlers.HandleTNDResult(cfg, old(View()), r))
      ensures client != old(client) && client != null ==> fresh(client)
    {
      SetTrustedNetwork(r);
      ghost var mid := View();
      if trustedNetwork == Trusted {
        StartClient();
      } else {
        StopClient();
      }
      AgentMachine.Assoc(old(calls), Handlers.SetTrustedNetwork(cfg, old(View()), r).es,
                         (if mid.trustedNetwork == Trusted then Handlers.StartClient(mid) else Handlers.StopClient(cfg, mid)).es);
    }

    method HandleLoginResult(r: LoginState, now: int)
      requires Valid()
      modifies this
      ensures Valid() && Did(Handlers.HandleLoginResult(cfg, old(View()), r, now))
      ensures client == old(client)
    {
      SetLoginState(r);
      if r == LoggedIn {
        SetLastKeepAlive(now);
      }
    }

    method HandleCCacheUpdate(u: CCacheUpdate)
      requires Valid() && u.ccache.Some?
      modifies this, client
      ensures Valid() && Did(Handlers.HandleCCacheUpdate(cfg, old(View()), u))
      ensures client != old(client) && client != null ==> fresh(client)
    {
      var tgt := GetTGT(u, cfg.realm);
      if tgt.None? {
        return;
      }
      var start, end := tgt.value.startTime, tgt.value.endTime;
      if kerberosTGT.startTime == start && kerberosTGT.endTime == end {
        return;
      }
      SetKerberosTGT(start, end);
      SaveCCache(u);
    }

    /** The second half of handleCCacheUpdate. */
    method SaveCCache(u: CCacheUpdate)
      requires Valid()
      modifies this, client
      ensures Valid() && Did(Handlers.SaveCCache(old(View()), u))
      ensures client != old(client) && client != null ==> fresh(client)
    {
      ccacheUp := Some(u);
      if client != null {
        calls := calls + [GiveCCache(client.id, u.ccache)];
        client.SetCCache(u.ccache);
      }
      if trustedNetwork == Trusted {
        StartClient();
      }
    }

    method HandleKrbConfUpdate(u: ConfUpdate)
      requires Valid()
      modifies this, client
      ensures Valid() && Did(SaveConf(old(View()), u))
      ensures client != old(client) && client != null ==> fresh(client)
    {
      krbcfgUp := Some(u);
      if client != null {
        calls := calls + [GiveConf(client.id, u.config)];
        client.SetKrb5Conf(u.config);
      }
      if trustedNetwork == Trusted {
        StartClient();
      }
    }

    method HandleDBusRequest(q: nat)
      requires Valid()
      modifies this, client
      ensures Valid() && Did(HandleReLogin(cfg, old(View()), q))
      ensures client != old(client) && client != null ==> fresh(client)
    {
      if trustedNetwork != Trusted {
        calls := calls + [Reply(q, false)];
        return;
      }
      StopClient();
      StartClient();
      calls := calls + [Reply(q, true)];
    }

    method HandleSleepEvent(sleep: bool)
      requires Valid()
      modifies this, client
      ensures Valid() && Did(Handlers.HandleSleepEvent(cfg, old(View()), sleep))
      ensures client != old(client) && client != null ==> fresh(client)
    {
      if !sleep {
        return;
      }
      SetTrustedNetwork(false);
      ghost var mid := View();
      StopClient();
      AgentMachine.Assoc(old(calls), Handlers.SetTrustedNetwork(cfg, old(View()), false).es, Handlers.StopClient(cfg, mid).es);
    }

    /** The end of Agent.Start. */
    method Boot()
      requires Valid() && View() == NEW_AGENT && calls == []
      modifies this
      ensures Valid() && View() == Handlers.Boot(cfg).a && calls == Handlers.Boot(cfg).es
      ensures client == old(client)
    {
      SetTrustedNetwork(false);
      SetLoginState(LoggedOut);
      SetProperty(ConfigUpdate(cfg));
    }

    /** One iteration of the main loop. */
    method HandleEvent(e: Event)
      requires Valid() && ValidEvent(e)
      modifies this, client
      ensures Valid() && Did(Handle(cfg, old(View()), e))
      ensures client != old(client) && client != null ==> fresh(client)
    {
      match e {
        case TND(r) => HandleTNDResult(r);
        case LoginResult(r, now) => HandleLoginResult(r, now);
        case CCacheUp(u) => HandleCCacheUpdate(u);
        case ConfUp(u) => HandleKrbConfUpdate(u);
        case ReLogin(q) => HandleDBusRequest(q);
        case Sleep(s) => HandleSleepEvent(s);
        case Shutdown => StopClient();
        case SourceClosed(_) =>
      }
    }

    /** The object is where the handlers, run one after the other, bring the agent on the first n events. */
    ghost predicate Handled(events: seq<Event>, n: nat)
      reads this
    {
      n <= |events| && AllValid(events[..n]) && HandleAll(cfg, events[..n]) == Out(View(), calls)
    }

    /** The iteration that handles events[n]. */
    method HandleNext(events: seq<Event>, n: nat)
      requires n < |events| && ValidEvent(events[n]) && Valid() && Handled(events, n)
      modifies this, client
      ensures Valid() && Handled(events, n + 1)
      ensures client != old(client) && client != null ==> fresh(client)
    {
      assert events[..n + 1] == events[..n] + [events[n]];
      HandleAllStep(cfg, events[..n], events[n]);
      HandleEvent(events[n]);
    }

    /**
      The main loop on a sequence of events: it handles them in order up to the first that ends it,
      and the fields and calls are those of the handlers run in a row.
     */
    method Start(events: seq<Event>) returns (handled: nat)
      requires Valid() && View() == NEW_AGENT && calls == [] && client == null
      requires AllValid(events)
      modifies this
      ensures Valid() && Handled(events, handled)
      ensures RunsTo(events, handled, false) || (handled == |events| && RunsTo(events, handled, true))
    {
      Boot();
      handled := 0;
      var running := true;
      while handled < |events| && running
        invariant Valid() && Handled(events, handled)
        invariant client != null ==> fresh(client)
        invariant RunsTo(events, handled, running)
        decreases |events| - handled, running
      {
        assert events[handled] in events;
        RunsNext(events, handled);
        HandleNext(events, handled);
        running := !EndEvent(events[handled]);
        handled := handled + 1;
      }
    }
  }
}
