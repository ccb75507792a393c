/** The published properties follow the agent's fields. */
module Publication {
  import opened Options
  import opened Status
  import opened Kerberos
  import opened Settings
  import opened Handlers

  /** The value last published for a property, if any. */
  function LastPublished(es: seq<Effect>, p: Property): Option<Value> {
    if es == [] then None
    else
      var e := es[|es| - 1];
      if e.Publish? && e.update.name == p then Some(e.update.value) else LastPublished(es[..|es| - 1], p)
  }

  /** The agent's own value of a property. */
  function Field(cfg: Settings, a: Agent, p: Property): Value {
    match p
    case PropConfig => Text(cfg.json)
    case PropTrustedNetwork => Code(NetworkCode(a.trustedNetwork))
    case PropLoginState => Code(LoginCode(a.loginState))
    case PropLastKeepAliveAt => Stamp(a.lastKeepAlive)
    case PropTGTStart => Stamp(a.kerberosTGT.startTime)
    case PropTGTEnd => Stamp(a.kerberosTGT.endTime)
  }

  /** Whatever a computation last published for a property is its field, and unpublished fields are unchanged. */
  ghost predicate Faithful(cfg: Settings, a: Agent, o: Out) {
    forall p: Property ::
      if LastPublished(o.es, p).None? then Field(cfg, o.a, p) == Field(cfg, a, p)
      else LastPublished(o.es, p).value == Field(cfg, o.a, p)
  }

  lemma {:induction false} LastConcat(xs: seq<Effect>, ys: seq<Effect>, p: Property)
    ensures LastPublished(xs + ys, p) == if LastPublished(ys, p).Some? then LastPublished(ys, p) else LastPublished(xs, p)
  {
    if ys == [] {
      assert xs + ys == xs;
    } else {
      assert (xs + ys)[..|xs + ys| - 1] == xs + ys[..|ys| - 1];
      LastConcat(xs, ys[..|ys| - 1], p);
    }
  }

  lemma BothFaithful(cfg: Settings, a: Agent, o1: Out, o2: Out)
    requires Faithful(cfg, a, o1) && Faithful(cfg, o1.a, o2)
    ensures Faithful(cfg, a, Both(o1, o2))
  {
    forall p: Property {
      LastConcat(o1.es, o2.es, p);
    }
  }

  lemma {:induction false} NothingLast(es: seq<Effect>, p: Property)
    requires forall e | e in es :: !e.Publish?
    ensures LastPublished(es, p).None?
  {
    if es != [] {
      NothingLast(es[..|es| - 1], p);
    }
  }

  /** Computations that publish nothing and keep the published fields. */
  lemma SilentFaithful(cfg: Settings, a: Agent, o: Out)
    requires forall e | e in o.es :: !e.Publish?
    requires forall p: Property :: Field(cfg, o.a, p) == Field(cfg, a, p)
    ensures Faithful(cfg, a, o)
  {
    forall p: Property {
      NothingLast(o.es, p);
    }
  }

  /** One publication after silent calls. */
  lemma PublishLast(es: seq<Effect>, u: Update, p: Property)
    requires forall e | e in es :: !e.Publish?
    ensures LastPublished(es + [Publish(u)], p) == if u.name == p then Some(u.value) else None
  {
    assert (es + [Publish(u)])[..|es|] == es;
    NothingLast(es, p);
  }

  lemma SetTrustedFaithful(cfg: Settings, a: Agent, trusted: bool)
    ensures Faithful(cfg, a, SetTrustedNetwork(cfg, a, trusted))
  {
    var t := NetworkOf(trusted);
    if t == a.trustedNetwork {
      SilentFaithful(cfg, a, Quiet(a));
    } else {
      forall p: Property {
        PublishLast(NetworkNotice(cfg, t), NetworkUpdate(t), p);
      }
    }
  }

  lemma SetLoginFaithful(cfg: Settings, a: Agent, l: LoginState)
    ensures Faithful(cfg, a, SetLoginState(cfg, a, l))
  {
    if l == a.loginState {
      SilentFaithful(cfg, a, Quiet(a));
    } else {
      var o := SwitchLogin(cfg, a, l);
      forall p: Property
        ensures LastPublished(o.es + [Publish(LoginUpdate(l))], p) == if p == PropLoginState then Some(Code(LoginCode(l))) else None
      {
        PublishLast(o.es, LoginUpdate(l), p);
      }
    }
  }

  lemma SetKeepAliveFaithful(cfg: Settings, a: Agent, now: int)
    ensures Faithful(cfg, a, SetLastKeepAlive(a, now))
  {
    forall p: Property {
      PublishLast([], KeepAliveUpdate(now), p);
    }
  }

  lemma SetTGTFaithful(cfg: Settings, a: Agent, start: int, end: int)
    ensures Faithful(cfg, a, SetKerberosTGT(a, start, end))
  {
    var xs, ys := [Publish(TGTStartUpdate(start))], [Publish(TGTEndUpdate(end))];
    assert [] + xs == xs && [] + ys == ys && xs + ys == [Publish(TGTStartUpdate(start)), Publish(TGTEndUpdate(end))];
    forall p: Property
      ensures LastPublished(xs + ys, p) ==
              if p == PropTGTEnd then Some(Stamp(end)) else if p == PropTGTStart then Some(Stamp(start)) else None
    {
      PublishLast([], TGTStartUpdate(start), p);
      PublishLast([], TGTEndUpdate(end), p);
      LastConcat(xs, ys, p);
    }
  }

  lemma StopFaithful(cfg: Settings, a: Agent)
    ensures Faithful(cfg, a, StopClient(cfg, a))
  {
    if a.client.None? {
      SilentFaithful(cfg, a, Quiet(a));
    } else {
      var o1 := SetLoginState(cfg, a, LoggingOut);
      var b := o1.a.(client := None, login := None);
      var mid := Out(b, [CloseDone(a.client.value), Joined(a.client.value)]);
      SetLoginFaithful(cfg, a, LoggingOut);
      SilentFaithful(cfg, o1.a, mid);
      BothFaithful(cfg, a, o1, mid);
      SetLoginFaithful(cfg, b, LoggedOut);
      BothFaithful(cfg, a, Both(o1, mid), SetLoginState(cfg, b, LoggedOut));
    }
  }

  lemma StartFaithful(cfg: Settings, a: Agent)
    ensures Faithful(cfg, a, StartClient(a))
  {
    SilentFaithful(cfg, a, StartClient(a));
  }

  lemma HandleFaithful(cfg: Settings, a: Agent, e: Event)
    requires ValidEvent(e)
    ensures Faithful(cfg, a, Handle(cfg, a, e))
  {
    SilentFaithful(cfg, a, Quiet(a));
    StopFaithful(cfg, a);
    match e
    case TND(r) =>
      var o1 := SetTrustedNetwork(cfg, a, r);
      SetTrustedFaithful(cfg, a, r);
      StartFaithful(cfg, o1.a);
      StopFaithful(cfg, o1.a);
      BothFaithful(cfg, a, o1, if o1.a.trustedNetwork == Trusted then StartClient(o1.a) else StopClient(cfg, o1.a));
    case Sleep(s) =>
      var o1 := SetTrustedNetwork(cfg, a, false);
      SetTrustedFaithful(cfg, a, false);
      StopFaithful(cfg, o1.a);
      BothFaithful(cfg, a, o1, StopClient(cfg, o1.a));
    case LoginResult(l, now) =>
      var o1 := SetLoginState(cfg, a, l);
      SetLoginFaithful(cfg, a, l);
      SetKeepAliveFaithful(cfg, o1.a, now);
      BothFaithful(cfg, a, o1, SetLastKeepAlive(o1.a, now));
    case CCacheUp(u) =>
      var tgt := GetTGT(u, cfg.realm);
      if tgt.Some? && tgt.value != a.kerberosTGT {
        var o1 := SetKerberosTGT(a, tgt.value.startTime, tgt.value.endTime);
        SetTGTFaithful(cfg, a, tgt.value.startTime, tgt.value.endTime);
        SilentFaithful(cfg, o1.a, SaveCCache(o1.a, u));
        BothFaithful(cfg, a, o1, SaveCCache(o1.a, u));
      }
    case ConfUp(u) => SilentFaithful(cfg, a, SaveConf(a, u));
    case ReLogin(q) => ReLoginFaithful(cfg, a, q);
    case _ =>
  }

  lemma ReLoginFaithful(cfg: Settings, a: Agent, q: nat)
    ensures Faithful(cfg, a, HandleReLogin(cfg, a, q))
  {
    if a.trustedNetwork != Trusted {
      SilentFaithful(cfg, a, HandleReLogin(cfg, a, q));
    } else {
      var o1 := StopClient(cfg, a);
      var o2 := StartClient(o1.a);
      var o3 := Out(o2.a, [Reply(q, true)]);
      StopFaithful(cfg, a);
      StartFaithful(cfg, o1.a);
      BothFaithful(cfg, a, o1, o2);
      SilentFaithful(cfg, o2.a, o3);
      BothFaithful(cfg, a, Both(o1, o2), o3);
    }
  }

  lemma BootFaithful(cfg: Settings)
    ensures Faithful(cfg, NEW_AGENT, Boot(cfg))
    ensures forall p: Property ::
              LastPublished(Boot(cfg).es, p).Some? <==> p == PropConfig || p == PropTrustedNetwork || p == PropLoginState
  {
    var o1 := SetTrustedNetwork(cfg, NEW_AGENT, false);
    var o2 := SetLoginState(cfg, o1.a, LoggedOut);
    var o3 := Out(o2.a, [Publish(ConfigUpdate(cfg))]);
    assert [] + o3.es == o3.es;
    SetTrustedFaithful(cfg, NEW_AGENT, false);
    SetLoginFaithful(cfg, o1.a, LoggedOut);
    BothFaithful(cfg, NEW_AGENT, o1, o2);
    forall p: Property
      ensures LastPublished(Boot(cfg).es, p).Some? <==> p == PropConfig || p == PropTrustedNetwork || p == PropLoginState
      ensures if LastPublished(o3.es, p).None? then Field(cfg, o3.a, p) == Field(cfg, o2.a, p)
              else LastPublished(o3.es, p).value == Field(cfg, o3.a, p)
    {
      PublishLast(NetworkNotice(cfg, NotTrusted), NetworkUpdate(NotTrusted), p);
      PublishLast(SwitchLogin(cfg, o1.a, LoggedOut).es, LoginUpdate(LoggedOut), p);
      PublishLast([], ConfigUpdate(cfg), p);
      LastConcat(o1.es, o2.es, p);
      LastConcat(o1.es + o2.es, o3.es, p);
    }
    BothFaithful(cfg, NEW_AGENT, Both(o1, o2), o3);
  }

  /**
    What has been published is what the agent has: the config, the network and the login state always,
    a time once it has been published, and before that the field still has its initial zero.
   */
  ghost predicate Mirrors(cfg: Settings, es: seq<Effect>, a: Agent) {
    forall p: Property ::
      && (LastPublished(es, p).Some? ==> LastPublished(es, p).value == Field(cfg, a, p))
      && (LastPublished(es, p).None? ==> Field(cfg, a, p) == Stamp(0))
  }

  lemma {:induction false} AllMirrored(cfg: Settings, events: seq<Event>)
    requires AllValid(events)
    ensures Mirrors(cfg, HandleAll(cfg, events).es, HandleAll(cfg, events).a)
  {
    if events == [] {
      BootFaithful(cfg);
    } else {
      var o1 := HandleAll(cfg, events[..|events| - 1]);
      var e := events[|events| - 1];
      assert e in events;
      AllMirrored(cfg, events[..|events| - 1]);
      HandleFaithful(cfg, o1.a, e);
      forall p: Property {
        LastConcat(o1.es, Handle(cfg, o1.a, e).es, p);
      }
    }
  }
}
