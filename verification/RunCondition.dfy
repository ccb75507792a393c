/** When a client is running. */
module RunCondition {
  import opened Options
  import opened Status
  import opened Kerberos
  import opened Settings
  import opened Handlers

  /** A running client needs a trusted network, and with usable credentials that is enough. */
  ghost predicate Runs(a: Agent) {
    && a.login == a.client
    && (a.client.Some? ==> a.trustedNetwork == Trusted && a.ccacheUp.Some? && a.krbcfgUp.Some?)
    && (a.trustedNetwork == Trusted && Usable(a) ==> a.client.Some?)
  }

  ghost predicate ConfKept(events: seq<Event>, a: Agent) {
    && (a.ccacheUp.Some? ==> a.ccacheUp.value.ccache.Some?)
    && (a.krbcfgUp.Some? ==> ConfUp(a.krbcfgUp.value) in events)
  }

  lemma HandleRuns(cfg: Settings, a: Agent, e: Event)
    requires ValidEvent(e) && Runs(a) && !e.Shutdown?
    ensures Runs(Handle(cfg, a, e).a)
  {
    match e
    case TND(r) => NetworkFrame(cfg, a, r);
    case LoginResult(l, now) => LoginFrame(cfg, a, l, now);
    case ReLogin(q) => ReLoginFrame(cfg, a, q);
    case Sleep(s) => NetworkFrame(cfg, a, false);
    case _ =>
  }

  lemma HandleKeeps(cfg: Settings, events: seq<Event>, a: Agent, e: Event)
    requires ValidEvent(e) && ConfKept(events, a)
    ensures ConfKept(events + [e], Handle(cfg, a, e).a)
  {
    assert (events + [e])[|events|] == e;
    assert forall x | x in events :: x in events + [e];
    match e
    case TND(r) => NetworkFrame(cfg, a, r);
    case LoginResult(l, now) => LoginFrame(cfg, a, l, now);
    case ReLogin(q) => ReLoginFrame(cfg, a, q);
    case Sleep(s) => NetworkFrame(cfg, a, false);
    case Shutdown => StopFrame(cfg, a);
    case _ =>
  }

  lemma {:induction false} AllRun(cfg: Settings, events: seq<Event>)
    requires AllValid(events) && Shutdown !in events
    ensures Runs(HandleAll(cfg, events).a)
    ensures ConfKept(events, HandleAll(cfg, events).a)
  {
    if events != [] {
      var p, e := events[..|events| - 1], events[|events| - 1];
      assert events == p + [e] && e in events;
      AllRun(cfg, p);
      HandleRuns(cfg, HandleAll(cfg, p).a, e);
      HandleKeeps(cfg, p, HandleAll(cfg, p).a, e);
    }
  }

  // ---------------------------------------------------------------- when the condition is exact

  /** A client runs exactly on a trusted network with usable credentials. */
  predicate Exact(a: Agent) {
    a.login == a.client && (a.client.Some? <==> a.trustedNetwork == Trusted && Usable(a))
  }

  /** Without nil configs a client runs exactly on a trusted network with anything saved. */
  lemma NoNilRuns(cfg: Settings, events: seq<Event>)
    requires AllValid(events) && Shutdown !in events && NoNilConf(events)
    ensures var a := HandleAll(cfg, events).a;
            Exact(a) && (a.client.Some? <==> a.trustedNetwork == Trusted && a.ccacheUp.Some? && a.krbcfgUp.Some?)
  {
    AllRun(cfg, events);
  }

  /** An event breaks this exactly if it is a config update without a config while a client runs. */
  lemma HandleExact(cfg: Settings, a: Agent, e: Event)
    requires ValidEvent(e) && Exact(a) && !e.Shutdown?
    ensures Exact(Handle(cfg, a, e).a) <==> !(e == ConfUp(ConfUpdate(None)) && a.client.Some?)
  {
    match e
    case TND(r) => NetworkFrame(cfg, a, r);
    case LoginResult(l, now) => LoginFrame(cfg, a, l, now);
    case ReLogin(q) => ReLoginFrame(cfg, a, q);
    case Sleep(s) => NetworkFrame(cfg, a, false);
    case _ =>
  }

  /** Event k takes the config away from a running client. */
  ghost predicate TakesConf(cfg: Settings, events: seq<Event>, k: nat)
    requires AllValid(events) && k < |events|
  {
    assert AllValid(events[..k]);
    events[k] == ConfUp(ConfUpdate(None)) && HandleAll(cfg, events[..k]).a.client.Some?
  }

  ghost predicate ExactAfter(cfg: Settings, events: seq<Event>, k: nat)
    requires AllValid(events) && k <= |events|
  {
    assert AllValid(events[..k]);
    Exact(HandleAll(cfg, events[..k]).a)
  }

  lemma PrefixExact(cfg: Settings, events: seq<Event>, e: Event, k: nat)
    requires AllValid(events) && AllValid(events + [e]) && k <= |events|
    ensures ExactAfter(cfg, events + [e], k) <==> ExactAfter(cfg, events, k)
    ensures k < |events| ==> (TakesConf(cfg, events + [e], k) <==> TakesConf(cfg, events, k))
  {
    assert (events + [e])[..k] == events[..k];
  }

  lemma LastExact(cfg: Settings, events: seq<Event>, e: Event)
    requires AllValid(events) && AllValid(events + [e]) && e != Shutdown && ExactAfter(cfg, events, |events|)
    ensures ExactAfter(cfg, events + [e], |events| + 1) <==> !TakesConf(cfg, events + [e], |events|)
  {
    var all := events + [e];
    assert e in all && all[..|events|] == events && all[..|events| + 1] == all && events[..|events|] == events;
    HandleAllStep(cfg, events, e);
    HandleExact(cfg, HandleAll(cfg, events).a, e);
  }

  /**
    Over any history before shutdown, a client runs exactly when it should at every loop head if and only
    if no config update without a config comes while a client runs.
   */
  lemma {:induction false} RunsExactly(cfg: Settings, events: seq<Event>)
    requires AllValid(events) && Shutdown !in events
    ensures (forall k: nat | k <= |events| :: ExactAfter(cfg, events, k)) <==> (forall k: nat | k < |events| :: !TakesConf(cfg, events, k))
  {
    if events == [] {
      assert events[..0] == [];
      assert ExactAfter(cfg, events, 0);
    } else {
      var p, e := events[..|events| - 1], events[|events| - 1];
      assert events == p + [e] && e in events;
      RunsExactly(cfg, p);
      forall k: nat | k <= |p|
        ensures ExactAfter(cfg, events, k) <==> ExactAfter(cfg, p, k)
        ensures k < |p| ==> (TakesConf(cfg, events, k) <==> TakesConf(cfg, p, k))
      {
        PrefixExact(cfg, p, e, k);
      }
      if ExactAfter(cfg, p, |p|) {
        LastExact(cfg, p, e);
      }
    }
  }

  /** Such an update does occur to break it: a config update without a config leaves a client running that could not be started. */
  lemma NilConfKeepsRunning(cfg: Settings)
    ensures var cc := CCacheUpdate(Some(CCache(map["krbtgt/" + cfg.realm := KerberosTicket(1, 2)], "")));
            var events := [TND(true), CCacheUp(cc), ConfUp(ConfUpdate(Some(KrbConf("")))), ConfUp(ConfUpdate(None))];
            AllValid(events) && HandleAll(cfg, events).a.client.Some? && !Usable(HandleAll(cfg, events).a)
  {
    var cc := CCacheUpdate(Some(CCache(map["krbtgt/" + cfg.realm := KerberosTicket(1, 2)], "")));
    var e1, e2, e3, e4 := TND(true), CCacheUp(cc), ConfUp(ConfUpdate(Some(KrbConf("")))), ConfUp(ConfUpdate(None));
    assert GetTGT(cc, cfg.realm) == Some(KerberosTicket(1, 2));
    assert [] + [e1] == [e1] && [e1] + [e2] == [e1, e2] && [e1, e2] + [e3] == [e1, e2, e3] && [e1, e2, e3] + [e4] == [e1, e2, e3, e4];
    HandleAllStep(cfg, [], e1);
    HandleAllStep(cfg, [e1], e2);
    HandleAllStep(cfg, [e1, e2], e3);
    HandleAllStep(cfg, [e1, e2, e3], e4);
  }
}
