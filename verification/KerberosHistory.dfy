/** What the agent remembers of the ccache updates it got. */
module KerberosHistory {
  import opened Options
  import opened Status
  import opened Kerberos
  import opened Settings
  import opened Handlers

  /** The update of an event, if it carries a TGT for the realm. */
  function TGTOf(cfg: Settings, e: Event): Option<KerberosTicket>
    requires ValidEvent(e)
  {
    if e.CCacheUp? then GetTGT(e.ccache, cfg.realm) else None
  }

  /** The times of the latest TGT among the events, zero if there was none. */
  function LatestTGT(cfg: Settings, events: seq<Event>): KerberosTicket
    requires AllValid(events)
  {
    if events == [] then KerberosTicket(0, 0)
    else
      var e := events[|events| - 1];
      assert e in events;
      if TGTOf(cfg, e).Some? then TGTOf(cfg, e).value else LatestTGT(cfg, events[..|events| - 1])
  }

  /** The update that is saved: the latest one whose TGT had other times than the TGT before it. */
  function SavedUpdate(cfg: Settings, events: seq<Event>): Option<CCacheUpdate>
    requires AllValid(events)
  {
    if events == [] then None
    else
      var p, e := events[..|events| - 1], events[|events| - 1];
      assert e in events;
      var tgt := TGTOf(cfg, e);
      if tgt.Some? && tgt.value != LatestTGT(cfg, p) then Some(e.ccache) else SavedUpdate(cfg, p)
  }

  /** The latest update that had a TGT for the realm. */
  function LatestUpdate(cfg: Settings, events: seq<Event>): Option<CCacheUpdate>
    requires AllValid(events)
  {
    if events == [] then None
    else
      var e := events[|events| - 1];
      assert e in events;
      if TGTOf(cfg, e).Some? then Some(e.ccache) else LatestUpdate(cfg, events[..|events| - 1])
  }

  /** Some event carried a TGT whose times are not both zero. */
  ghost predicate HadTimes(cfg: Settings, events: seq<Event>)
    requires AllValid(events)
  {
    exists e :: e in events && TGTOf(cfg, e).Some? && TGTOf(cfg, e).value != KerberosTicket(0, 0)
  }

  ghost predicate Remembers(cfg: Settings, a: Agent, events: seq<Event>)
    requires AllValid(events)
  {
    && a.kerberosTGT == LatestTGT(cfg, events)
    && a.ccacheUp == SavedUpdate(cfg, events)
    && (a.ccacheUp.Some? <==> HadTimes(cfg, events))
    && (a.ccacheUp.Some? ==>
          && CCacheUp(a.ccacheUp.value) in events
          && a.ccacheUp.value.ccache.Some?
          && GetTGT(a.ccacheUp.value, cfg.realm) == Some(a.kerberosTGT))
  }

  lemma HadTimesMore(cfg: Settings, events: seq<Event>, more: seq<Event>)
    requires AllValid(events) && AllValid(more) && forall e | e in events :: e in more
    ensures HadTimes(cfg, events) ==> HadTimes(cfg, more)
  {
    if HadTimes(cfg, events) {
      var x :| x in events && TGTOf(cfg, x).Some? && TGTOf(cfg, x).value != KerberosTicket(0, 0);
      assert x in more;
    }
  }

  lemma {:induction false} TimesWereHad(cfg: Settings, events: seq<Event>)
    requires AllValid(events)
    ensures LatestTGT(cfg, events) != KerberosTicket(0, 0) ==> HadTimes(cfg, events)
  {
    if events != [] {
      var p := events[..|events| - 1];
      assert events[|events| - 1] in events;
      TimesWereHad(cfg, p);
      HadTimesMore(cfg, p, events);
    }
  }

  /** An event that brings no new times changes nothing that is remembered. */
  lemma RemembersMore(cfg: Settings, a: Agent, events: seq<Event>, e: Event)
    requires AllValid(events) && ValidEvent(e) && Remembers(cfg, a, events)
    requires TGTOf(cfg, e).None? || TGTOf(cfg, e).value == a.kerberosTGT
    ensures AllValid(events + [e]) && Remembers(cfg, a, events + [e])
  {
    var all := events + [e];
    assert all[..|events|] == events;
    HadTimesMore(cfg, events, all);
    TimesWereHad(cfg, events);
  }

  /** No event but a ccache update touches the TGT times and the saved update. */
  lemma OthersForget(cfg: Settings, a: Agent, e: Event)
    requires ValidEvent(e) && (!e.CCacheUp? || TGTOf(cfg, e).None? || TGTOf(cfg, e).value == a.kerberosTGT)
    ensures var o := Handle(cfg, a, e); o.a.kerberosTGT == a.kerberosTGT && o.a.ccacheUp == a.ccacheUp
  {
    match e
    case TND(r) => NetworkFrame(cfg, a, r);
    case LoginResult(l, now) => LoginFrame(cfg, a, l, now);
    case ReLogin(q) => ReLoginFrame(cfg, a, q);
    case Sleep(s) => NetworkFrame(cfg, a, false);
    case Shutdown => StopFrame(cfg, a);
    case _ =>
  }

  /**
    After any sequence of events, the TGT times are those of the latest update that had a TGT for the
    realm. The saved update is the latest one that changed them; one is saved exactly if an update had
    times other than zero, and it carries a TGT with exactly the remembered times.
   */
  lemma {:induction false} KerberosRemembered(cfg: Settings, events: seq<Event>)
    requires AllValid(events)
    ensures Remembers(cfg, HandleAll(cfg, events).a, events)
  {
    if events != [] {
      var p, e := events[..|events| - 1], events[|events| - 1];
      assert events == p + [e] && e in events;
      KerberosRemembered(cfg, p);
      var a := HandleAll(cfg, p).a;
      var b := Handle(cfg, a, e).a;
      if TGTOf(cfg, e).None? || TGTOf(cfg, e).value == a.kerberosTGT {
        OthersForget(cfg, a, e);
        RemembersMore(cfg, a, p, e);
      } else {
        assert b.kerberosTGT == TGTOf(cfg, e).value && b.ccacheUp == Some(e.ccache);
        TimesWereHad(cfg, p);
        HadTimesMore(cfg, p, events);
      }
    }
  }

  // ---------------------------------------------------------------- when the saved update is the latest

  /** Event k has the remembered times in a ccache other than the saved one, so that it is passed over. */
  ghost predicate PassedOver(cfg: Settings, events: seq<Event>, k: nat)
    requires AllValid(events) && k < |events|
  {
    assert AllValid(events[..k]) && events[k] in events;
    && TGTOf(cfg, events[k]) == Some(LatestTGT(cfg, events[..k]))
    && SavedUpdate(cfg, events[..k]) != Some(events[k].ccache)
  }

  /** Event k is the latest update that had a TGT for the realm. */
  ghost predicate IsLatest(cfg: Settings, events: seq<Event>, k: nat)
    requires AllValid(events)
  {
    && k < |events| && events[k] in events && TGTOf(cfg, events[k]).Some?
    && (forall j | k < j < |events| :: events[j] in events ==> TGTOf(cfg, events[j]).None?)
  }

  lemma {:induction false} LatestIs(cfg: Settings, events: seq<Event>, k: nat)
    requires AllValid(events) && IsLatest(cfg, events, k)
    ensures LatestUpdate(cfg, events) == Some(events[k].ccache)
    ensures SavedUpdate(cfg, events) == Some(events[k].ccache) <==> !PassedOver(cfg, events, k)
  {
    var p := events[..|events| - 1];
    if k == |events| - 1 {
      assert events[..k] == p;
    } else {
      assert events[|events| - 1] in events;
      assert events[..k] == p[..k] && p[k] == events[k];
      forall j | k < j < |p|
        ensures p[j] in p ==> TGTOf(cfg, p[j]).None?
      {
        assert p[j] == events[j];
      }
      LatestIs(cfg, p, k);
    }
  }

  ghost predicate SavedIsLatest(cfg: Settings, events: seq<Event>, k: nat)
    requires AllValid(events) && k <= |events|
  {
    assert AllValid(events[..k]);
    SavedUpdate(cfg, events[..k]) == LatestUpdate(cfg, events[..k])
  }

  lemma PrefixSaved(cfg: Settings, events: seq<Event>, e: Event, k: nat)
    requires AllValid(events) && AllValid(events + [e]) && k <= |events|
    ensures SavedIsLatest(cfg, events + [e], k) <==> SavedIsLatest(cfg, events, k)
    ensures k < |events| ==> (PassedOver(cfg, events + [e], k) <==> PassedOver(cfg, events, k))
  {
    assert (events + [e])[..k] == events[..k];
  }

  /** One event separates the saved update from the latest exactly if it is passed over. */
  lemma OneMoreSaved(cfg: Settings, events: seq<Event>, e: Event)
    requires AllValid(events) && AllValid(events + [e]) && SavedIsLatest(cfg, events, |events|)
    ensures SavedIsLatest(cfg, events + [e], |events| + 1) <==> !PassedOver(cfg, events + [e], |events|)
  {
    var all := events + [e];
    assert all[..|events|] == events && all[..|events| + 1] == all && events[..|events|] == events;
  }

  /**
    The saved update is the latest with a TGT after every event of a history if and only if no event of it
    has the remembered times in a ccache other than the saved one.
   */
  lemma {:induction false} SavedIsLatestThroughout(cfg: Settings, events: seq<Event>)
    requires AllValid(events)
    ensures (forall k: nat | k <= |events| :: SavedIsLatest(cfg, events, k))
            <==> (forall k: nat | k < |events| :: !PassedOver(cfg, events, k))
  {
    if events == [] {
      assert events[..0] == [];
      assert SavedIsLatest(cfg, events, 0);
    } else {
      var p, e := events[..|events| - 1], events[|events| - 1];
      assert events == p + [e];
      SavedIsLatestThroughout(cfg, p);
      forall k: nat | k <= |p|
        ensures SavedIsLatest(cfg, events, k) <==> SavedIsLatest(cfg, p, k)
        ensures k < |p| ==> (PassedOver(cfg, events, k) <==> PassedOver(cfg, p, k))
      {
        PrefixSaved(cfg, p, e, k);
      }
      if SavedIsLatest(cfg, p, |p|) {
        OneMoreSaved(cfg, p, e);
      }
    }
  }

  /** A renewed ccache with the same times: the agent keeps the first one. */
  lemma RenewedIsPassedOver(cfg: Settings, t: KerberosTicket, rest1: string, rest2: string)
    requires t != KerberosTicket(0, 0) && rest1 != rest2
    ensures var tickets := map["krbtgt/" + cfg.realm := t];
            var c1, c2 := CCacheUpdate(Some(CCache(tickets, rest1))), CCacheUpdate(Some(CCache(tickets, rest2)));
            var events := [CCacheUp(c1), CCacheUp(c2)];
            && AllValid(events) && HandleAll(cfg, events).a.ccacheUp == Some(c1)
            && LatestUpdate(cfg, events) == Some(c2) && PassedOver(cfg, events, 1)
  {
    var tickets := map["krbtgt/" + cfg.realm := t];
    var c1, c2 := CCacheUpdate(Some(CCache(tickets, rest1))), CCacheUpdate(Some(CCache(tickets, rest2)));
    var events := [CCacheUp(c1), CCacheUp(c2)];
    assert GetTGT(c1, cfg.realm) == Some(t) && GetTGT(c2, cfg.realm) == Some(t);
    var p := [CCacheUp(c1)];
    assert events[..|events| - 1] == p && p[..|p| - 1] == [];
    assert SavedUpdate(cfg, p) == Some(c1) && LatestTGT(cfg, p) == t;
    assert SavedUpdate(cfg, events) == Some(c1) && LatestUpdate(cfg, events) == Some(c2);
    KerberosRemembered(cfg, events);
  }
}
