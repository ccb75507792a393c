/** What a reply to a ReLogin request says about the agent. */
module Handshake {
  import opened Options
  import opened Status
  import opened Settings
  import opened Handlers

  /** The requests replied to, and the requests among the events, in order. */
  function Replies(es: seq<Effect>): seq<nat> {
    if es == [] then [] else Replies(es[..|es| - 1]) + if es[|es| - 1].Reply? then [es[|es| - 1].request] else []
  }

  function Requests(events: seq<Event>): seq<nat> {
    if events == [] then []
    else Requests(events[..|events| - 1]) + if events[|events| - 1].ReLogin? then [events[|events| - 1].request] else []
  }

  lemma {:induction false} RepliesConcat(xs: seq<Effect>, ys: seq<Effect>)
    ensures Replies(xs + ys) == Replies(xs) + Replies(ys)
  {
    if ys == [] {
      assert xs + ys == xs;
    } else {
      assert (xs + ys)[..|xs + ys| - 1] == xs + ys[..|ys| - 1];
      RepliesConcat(xs, ys[..|ys| - 1]);
    }
  }

  lemma {:induction false} NoReplies(es: seq<Effect>)
    requires forall e | e in es :: !e.Reply?
    ensures Replies(es) == []
  {
    if es != [] {
      NoReplies(es[..|es| - 1]);
    }
  }

  /** A handler replies exactly to the request it handles, as the last thing it does. */
  lemma ReplyIsLast(cfg: Settings, a: Agent, e: Event)
    requires ValidEvent(e)
    ensures var es := Handle(cfg, a, e).es;
            if e.ReLogin? then
              es != [] && es[|es| - 1] == Reply(e.request, a.trustedNetwork == Trusted)
              && (forall x | x in es[..|es| - 1] :: !x.Reply?)
            else forall x | x in es :: !x.Reply?
  {
    if e.ReLogin? {
      ReLoginRepliesLast(cfg, a, e.request);
    } else if e.TND? || e.Sleep? {
      StopSilent(cfg, SetTrustedNetwork(cfg, a, e.TND? && e.trusted).a);
    } else if e.Shutdown? {
      StopSilent(cfg, a);
    }
  }

  lemma ReLoginRepliesLast(cfg: Settings, a: Agent, q: nat)
    ensures var es := HandleReLogin(cfg, a, q).es;
            && es != [] && es[|es| - 1] == Reply(q, a.trustedNetwork == Trusted)
            && (forall x | x in es[..|es| - 1] :: !x.Reply?)
  {
    if a.trustedNetwork == Trusted {
      var o1 := StopClient(cfg, a);
      var o2 := StartClient(o1.a);
      StopSilent(cfg, a);
      var es := o1.es + o2.es + [Reply(q, true)];
      assert es[..|es| - 1] == o1.es + o2.es;
    }
  }

  lemma StopSilent(cfg: Settings, a: Agent)
    ensures forall x | x in StopClient(cfg, a).es :: !x.Reply?
  {
  }

  lemma HandleReplies(cfg: Settings, a: Agent, e: Event)
    requires ValidEvent(e)
    ensures Replies(Handle(cfg, a, e).es) == if e.ReLogin? then [e.request] else []
  {
    var es := Handle(cfg, a, e).es;
    ReplyIsLast(cfg, a, e);
    if e.ReLogin? {
      NoReplies(es[..|es| - 1]);
    } else {
      NoReplies(es);
    }
  }

  /** Each request is replied to once, in the order in which they were taken. */
  lemma {:induction false} RepliesMatch(cfg: Settings, events: seq<Event>)
    requires AllValid(events)
    ensures Replies(HandleAll(cfg, events).es) == Requests(events)
  {
    if events == [] {
      NoReplies(Boot(cfg).es);
    } else {
      var o1 := HandleAll(cfg, events[..|events| - 1]);
      var e := events[|events| - 1];
      assert e in events;
      RepliesMatch(cfg, events[..|events| - 1]);
      RepliesConcat(o1.es, Handle(cfg, o1.a, e).es);
      HandleReplies(cfg, o1.a, e);
    }
  }

  /** The reply at position n of the calls answers event k, after all that its handler did. */
  ghost predicate Answers(cfg: Settings, events: seq<Event>, es: seq<Effect>, n: nat, k: nat)
    requires AllValid(events) && n < |es| && k < |events|
  {
    assert AllValid(events[..k]) && AllValid(events[..k + 1]);
    && es[n].Reply? && events[k] == ReLogin(es[n].request)
    && es[..n + 1] == HandleAll(cfg, events[..k + 1]).es
    && (es[n].ok <==> HandleAll(cfg, events[..k]).a.trustedNetwork == Trusted)
  }

  lemma {:induction false} EveryReplyAnswers(cfg: Settings, events: seq<Event>, n: nat)
    requires AllValid(events) && n < |HandleAll(cfg, events).es| && HandleAll(cfg, events).es[n].Reply?
    ensures exists k: nat :: k < |events| && Answers(cfg, events, HandleAll(cfg, events).es, n, k)
  {
    if events == [] {
      assert false;
    } else {
      var p, e := events[..|events| - 1], events[|events| - 1];
      assert e in events;
      var o1 := HandleAll(cfg, p);
      var es := HandleAll(cfg, events).es;
      if n < |o1.es| {
        EveryReplyAnswers(cfg, p, n);
        var k: nat :| k < |p| && Answers(cfg, p, o1.es, n, k);
        AnswersMore(cfg, events, es, o1.es, n, k);
      } else {
        ReplyIsLast(cfg, o1.a, e);
        OnlyLastReplies(Handle(cfg, o1.a, e).es, n - |o1.es|, e.ReLogin?);
        assert es[..n + 1] == es && events[..|events|] == events;
        assert Answers(cfg, events, es, n, |p|);
      }
    }
  }

  lemma AnswersMore(cfg: Settings, events: seq<Event>, es: seq<Effect>, before: seq<Effect>, n: nat, k: nat)
    requires AllValid(events) && events != [] && AllValid(events[..|events| - 1])
    requires n < |before| && before <= es && k < |events| - 1
    requires Answers(cfg, events[..|events| - 1], before, n, k)
    ensures Answers(cfg, events, es, n, k)
  {
    var p := events[..|events| - 1];
    assert events[..k] == p[..k] && events[..k + 1] == p[..k + 1] && es[..n + 1] == before[..n + 1];
  }

  lemma OnlyLastReplies(hs: seq<Effect>, n: nat, last: bool)
    requires n < |hs| && hs[n].Reply?
    requires if last then forall x | x in hs[..|hs| - 1] :: !x.Reply? else forall x | x in hs :: !x.Reply?
    ensures last && n + 1 == |hs|
  {
  }

  /** A request handled on a trusted network ends the running client and starts a new one if it can. */
  lemma RestartEffects(cfg: Settings, a: Agent, q: nat)
    requires a.trustedNetwork == Trusted
    ensures var o := Handle(cfg, a, ReLogin(q));
            && (a.client.Some? ==> CloseDone(a.client.value) in o.es && Joined(a.client.value) in o.es)
            && (Usable(a) ==> o.a.client == Some(a.started) && Spawn(a.started, a.ccacheUp.value.ccache, a.krbcfgUp.value.config) in o.es)
            && (!Usable(a) ==> o.a.client.None?)
  {
    var o1 := StopClient(cfg, a);
    var o2 := StartClient(o1.a);
    StopFrame(cfg, a);
    if a.client.Some? {
      var l1 := SetLoginState(cfg, a, LoggingOut);
      assert o1.es[|l1.es|] == CloseDone(a.client.value) && o1.es[|l1.es| + 1] == Joined(a.client.value);
    }
  }
}
