/** The subscriber's copy of the agent's status (pkg/client/client.go). */
module Subscriber {
  import opened Options
  import opened StatusObjects

  const PATH := "/com/telekom_mms/fw_id_agent/Agent"
  const INTERFACE := "com.telekom_mms.fw_id_agent.Agent"
  const PROPERTIES_CHANGED := "org.freedesktop.DBus.Properties.PropertiesChanged"

  const CONFIG := "Config"
  const TRUSTED_NETWORK := "TrustedNetwork"
  const LOGIN_STATE := "LoginState"
  const LAST_KEEP_ALIVE := "LastKeepAliveAt"
  const TGT_START := "KerberosTGTStartTime"
  const TGT_END := "KerberosTGTEndTime"

  lemma NamesDistinct()
    ensures |CONFIG| == 6 && |TRUSTED_NETWORK| == 14 && |LOGIN_STATE| == 10
    ensures |LAST_KEEP_ALIVE| == 15 && |TGT_START| == 20 && |TGT_END| == 18
  {
  }

  /** A D-Bus variant, by what storing it in a string, an unsigned and a signed number gives. */
  datatype Variant = Variant(text: Option<string>, u32: Option<nat>, i64: Option<int>)

  /** How config.NewFromJSON reads a text. */
  type Parser = string -> Option<ConfigValue>

  /** The configuration a text stands for; the outer None is a parse error. */
  function ReadConfig(parse: Parser, t: string): Option<Option<ConfigValue>> {
    if t == "" then Some(None)
    else
      match parse(t)
      case None => None
      case Some(c) => Some(Some(c))
  }

  /** The value can be stored in the field that the key names; unknown keys are ignored. */
  predicate Decodes(parse: Parser, k: string, v: Variant) {
    if k == CONFIG then v.text.Some? && ReadConfig(parse, v.text.value).Some?
    else if k == TRUSTED_NETWORK || k == LOGIN_STATE then v.u32.Some?
    else if k == LAST_KEEP_ALIVE || k == TGT_START || k == TGT_END then v.i64.Some?
    else true
  }

  predicate AllDecode(parse: Parser, props: map<string, Variant>) {
    forall k | k in props :: Decodes(parse, k, props[k])
  }

  /** The status with every known key in ks set to its decoded value and all other fields kept. */
  ghost function Merge(parse: Parser, st: StatusValue, props: map<string, Variant>, ks: set<string>): StatusValue
    requires ks <= props.Keys && forall k | k in ks :: Decodes(parse, k, props[k])
  {
    NamesDistinct();
    assert CONFIG in ks ==> Decodes(parse, CONFIG, props[CONFIG]);
    assert TRUSTED_NETWORK in ks ==> Decodes(parse, TRUSTED_NETWORK, props[TRUSTED_NETWORK]);
    assert LOGIN_STATE in ks ==> Decodes(parse, LOGIN_STATE, props[LOGIN_STATE]);
    assert LAST_KEEP_ALIVE in ks ==> Decodes(parse, LAST_KEEP_ALIVE, props[LAST_KEEP_ALIVE]);
    assert TGT_START in ks ==> Decodes(parse, TGT_START, props[TGT_START]);
    assert TGT_END in ks ==> Decodes(parse, TGT_END, props[TGT_END]);
    StatusValue(
      if CONFIG in ks then ReadConfig(parse, props[CONFIG].text.value).value else st.config,
      if TRUSTED_NETWORK in ks then props[TRUSTED_NETWORK].u32.value else st.trustedNetwork,
      if LOGIN_STATE in ks then props[LOGIN_STATE].u32.value else st.loginState,
      if LAST_KEEP_ALIVE in ks then props[LAST_KEEP_ALIVE].i64.value else st.lastKeepAlive,
      if TGT_START in ks then props[TGT_START].i64.value else st.tgtStart,
      if TGT_END in ks then props[TGT_END].i64.value else st.tgtEnd)
  }

  /** Which properties decode, by their names on the bus. */
  lemma DecodesByName(parse: Parser, props: map<string, Variant>)
    ensures AllDecode(parse, props) <==>
            && ("Config" in props ==> props["Config"].text.Some? && (props["Config"].text.value == "" || parse(props["Config"].text.value).Some?))
            && ("TrustedNetwork" in props ==> props["TrustedNetwork"].u32.Some?)
            && ("LoginState" in props ==> props["LoginState"].u32.Some?)
            && ("LastKeepAliveAt" in props ==> props["LastKeepAliveAt"].i64.Some?)
            && ("KerberosTGTStartTime" in props ==> props["KerberosTGTStartTime"].i64.Some?)
            && ("KerberosTGTEndTime" in props ==> props["KerberosTGTEndTime"].i64.Some?)
  {
    NamesDistinct();
    if AllDecode(parse, props) {
      DecodedByName(parse, props);
    }
  }

  lemma DecodedByName(parse: Parser, props: map<string, Variant>)
    requires AllDecode(parse, props)
    ensures "Config" in props ==> props["Config"].text.Some? && (props["Config"].text.value == "" || parse(props["Config"].text.value).Some?)
    ensures "TrustedNetwork" in props ==> props["TrustedNetwork"].u32.Some?
    ensures "LoginState" in props ==> props["LoginState"].u32.Some?
    ensures "LastKeepAliveAt" in props ==> props["LastKeepAliveAt"].i64.Some?
    ensures "KerberosTGTStartTime" in props ==> props["KerberosTGTStartTime"].i64.Some?
    ensures "KerberosTGTEndTime" in props ==> props["KerberosTGTEndTime"].i64.Some?
  {
    NamesDistinct();
    assert forall k | k in props :: Decodes(parse, k, props[k]);
  }

  /** What properties that decode make of a status, by their names on the bus. */
  lemma MergedByName(parse: Parser, st: StatusValue, props: map<string, Variant>)
    requires AllDecode(parse, props)
    ensures var r := Merge(parse, st, props, props.Keys);
            && (if "Config" in props
                then props["Config"].text.Some? && r.config == (if props["Config"].text.value == "" then None else parse(props["Config"].text.value))
                else r.config == st.config)
            && (if "TrustedNetwork" in props then props["TrustedNetwork"].u32 == Some(r.trustedNetwork) else r.trustedNetwork == st.trustedNetwork)
            && (if "LoginState" in props then props["LoginState"].u32 == Some(r.loginState) else r.loginState == st.loginState)
            && (if "LastKeepAliveAt" in props then props["LastKeepAliveAt"].i64 == Some(r.lastKeepAlive) else r.lastKeepAlive == st.lastKeepAlive)
            && (if "KerberosTGTStartTime" in props then props["KerberosTGTStartTime"].i64 == Some(r.tgtStart) else r.tgtStart == st.tgtStart)
            && (if "KerberosTGTEndTime" in props then props["KerberosTGTEndTime"].i64 == Some(r.tgtEnd) else r.tgtEnd == st.tgtEnd)
  {
    NamesDistinct();
    DecodedByName(parse, props);
  }

  /** The cases of the switch in updateStatusFromProperties, for one key. */
  method SetKey(parse: Parser, dest: Status, k: string, v: Variant) returns (ok: bool)
    modifies dest
    ensures ok <==> Decodes(parse, k, v)
    ensures !ok ==> dest.Value() == old(dest.Value()) && dest.config == old(dest.config)
    ensures ok ==> dest.Value() == Merge(parse, old(dest.Value()), map[k := v], {k})
    ensures dest.config == old(dest.config) || dest.config == null || fresh(dest.config.Repr())
  {
    NamesDistinct();
    ok := true;
    if k == CONFIG {
      if v.text.None? {
        return false;
      }
      var t := v.text.value;
      if t == "" {
        dest.config := null;
      } else {
        var c := parse(t);
        if c.None? {
          return false;
        }
        var o := new Config.Of(c.value);
        dest.config := o;
      }
    } else if k == TRUSTED_NETWORK {
      if v.u32.None? {
        return false;
      }
      dest.trustedNetwork := v.u32.value;
    } else if k == LOGIN_STATE {
      if v.u32.None? {
        return false;
      }
      dest.loginState := v.u32.value;
    } else if k == LAST_KEEP_ALIVE {
      if v.i64.None? {
        return false;
      }
      dest.lastKeepAlive := v.i64.value;
    } else if k == TGT_START {
      if v.i64.None? {
        return false;
      }
      dest.tgtStart := v.i64.value;
    } else if k == TGT_END {
      if v.i64.None? {
        return false;
      }
      dest.tgtEnd := v.i64.value;
    }
  }

  /** Setting one more key after a set of keys. */
  lemma MergeNext(parse: Parser, st: StatusValue, props: map<string, Variant>, ks: set<string>, k: string)
    requires ks <= props.Keys && k in props && Decodes(parse, k, props[k])
    requires forall k | k in ks :: Decodes(parse, k, props[k])
    ensures Merge(parse, Merge(parse, st, props, ks), map[k := props[k]], {k}) == Merge(parse, st, props, ks + {k})
  {
    NamesDistinct();
  }

  /** One pass over the map, in whatever order its keys come. */
  method SetAllKeys(parse: Parser, dest: Status, props: map<string, Variant>) returns (ok: bool)
    modifies dest
    ensures ok <==> AllDecode(parse, props)
    ensures ok ==> dest.Value() == Merge(parse, old(dest.Value()), props, props.Keys)
    ensures dest.config == old(dest.config) || dest.config == null || fresh(dest.config.Repr())
  {
    var rest := props.Keys;
    ghost var start := dest.Value();
    while rest != {}
      invariant rest <= props.Keys
      invariant forall k | k in props && k !in rest :: Decodes(parse, k, props[k])
      invariant dest.Value() == Merge(parse, start, props, props.Keys - rest)
      invariant dest.config == old(dest.config) || dest.config == null || fresh(dest.config.Repr())
      decreases |rest|
    {
      var k :| k in rest;
      ok := SetKey(parse, dest, k, props[k]);
      if !ok {
        return;
      }
      MergeNext(parse, start, props, props.Keys - rest, k);
      assert props.Keys - (rest - {k}) == (props.Keys - rest) + {k};
      rest := rest - {k};
    }
    assert props.Keys - rest == props.Keys;
    ok := true;
  }

  /**
    updateStatusFromProperties: all or nothing. The first pass, on a temporary status, finds every error,
    so the second never fails; neither depends on the order of the keys.
   */
  method UpdateStatus(parse: Parser, s: Status, props: map<string, Variant>) returns (ok: bool)
    modifies s
    ensures ok <==> AllDecode(parse, props)
    ensures !ok ==> s.Value() == old(s.Value()) && s.config == old(s.config)
    ensures ok ==> s.Value() == Merge(parse, old(s.Value()), props, props.Keys)
    ensures ok && "Config" in props ==>
              props["Config"].text.Some?
              && s.Value().config == (if props["Config"].text.value == "" then None else parse(props["Config"].text.value))
    ensures "Config" in props && props["Config"].text.Some? && props["Config"].text.value != "" && parse(props["Config"].text.value).None? ==> !ok
    ensures s.config == old(s.config) || s.config == null || fresh(s.config.Repr())
  {
    DecodesByName(parse, props);
    ghost var before := s.Value();
    var temp := new Status.New();
    ok := SetAllKeys(parse, temp, props);
    if !ok {
      return;
    }
    MergedByName(parse, before, props);
    ok := SetAllKeys(parse, s, props);
  }

  // ---------------------------------------------------------------- signals

  datatype Item = Str(text: string) | Dict(dict: map<string, Variant>) | Names(names: seq<string>) | Other

  datatype Signal = Signal(path: string, name: string, body: seq<Item>)

  /** The signal's body is long enough for what is read of it; a shorter one makes the program panic. */
  predicate LongEnough(parse: Parser, s: Signal) {
    s.path == PATH && s.name == PROPERTIES_CHANGED ==>
      |s.body| >= 1 &&
      (s.body[0] == Str(INTERFACE) ==>
         |s.body| >= 2 && (s.body[1].Dict? && AllDecode(parse, s.body[1].dict) ==> |s.body| >= 3))
  }

  function Invalidate(st: StatusValue, name: string): StatusValue {
    if name == CONFIG then st.(config := None)
    else if name == TRUSTED_NETWORK then st.(trustedNetwork := 0)
    else if name == LOGIN_STATE then st.(loginState := 0)
    else if name == LAST_KEEP_ALIVE then st.(lastKeepAlive := -1)
    else if name == TGT_START then st.(tgtStart := -1)
    else if name == TGT_END then st.(tgtEnd := -1)
    else st
  }

  function InvalidateAll(st: StatusValue, names: seq<string>): StatusValue {
    if names == [] then st else Invalidate(InvalidateAll(st, names[..|names| - 1]), names[|names| - 1])
  }

  /** What invalidating properties makes of a status, by their names on the bus. */
  lemma {:induction false} InvalidatedByName(st: StatusValue, names: seq<string>)
    ensures InvalidateAll(st, names) == StatusValue(
              if "Config" in names then None else st.config,
              if "TrustedNetwork" in names then 0 else st.trustedNetwork,
              if "LoginState" in names then 0 else st.loginState,
              if "LastKeepAliveAt" in names then -1 else st.lastKeepAlive,
              if "KerberosTGTStartTime" in names then -1 else st.tgtStart,
              if "KerberosTGTEndTime" in names then -1 else st.tgtEnd)
  {
    if names != [] {
      var before, name := names[..|names| - 1], names[|names| - 1];
      assert names == before + [name];
      NamesDistinct();
      InvalidatedByName(st, before);
    }
  }

  /** The signal is a well-formed change of the agent's properties. */
  predicate ValidSignal(parse: Parser, s: Signal) {
    && s.path == PATH && s.name == PROPERTIES_CHANGED
    && |s.body| >= 3 && s.body[0] == Str(INTERFACE) && s.body[1].Dict? && s.body[2].Names?
    && AllDecode(parse, s.body[1].dict)
  }

  /** Which signals are valid, by the names on the bus. */
  lemma ValidByName(parse: Parser, s: Signal)
    ensures ValidSignal(parse, s) <==>
            && s.path == "/com/telekom_mms/fw_id_agent/Agent"
            && s.name == "org.freedesktop.DBus.Properties.PropertiesChanged"
            && |s.body| >= 3 && s.body[0] == Str("com.telekom_mms.fw_id_agent.Agent")
            && s.body[1].Dict? && s.body[2].Names? && AllDecode(parse, s.body[1].dict)
  {
  }

  /** What a valid signal makes of a status. */
  ghost function AfterSignal(parse: Parser, st: StatusValue, s: Signal): StatusValue
    requires ValidSignal(parse, s)
  {
    InvalidateAll(Merge(parse, st, s.body[1].dict, s.body[1].dict.Keys), s.body[2].names)
  }

  /** handlePropertiesChanged: the given status, changed, or nil for a signal to be dropped. */
  method HandlePropertiesChanged(parse: Parser, s: Signal, stat: Status) returns (update: Status?)
    requires LongEnough(parse, s)
    modifies stat
    ensures update == if ValidSignal(parse, s) then stat else null
    ensures update != null ==> stat.Value() == AfterSignal(parse, old(stat.Value()), s)
    ensures stat.config == old(stat.config) || stat.config == null || fresh(stat.config.Repr())
  {
    if s.path != PATH || s.name != PROPERTIES_CHANGED {
      return null;
    }
    if s.body[0] != Str(INTERFACE) {
      return null;
    }
    if !s.body[1].Dict? {
      return null;
    }
    var ok := UpdateStatus(parse, stat, s.body[1].dict);
    if !ok {
      return null;
    }
    if !s.body[2].Names? {
      return null;
    }
    InvalidateNames(stat, s.body[2].names);
    update := stat;
  }

  /** The loop over the invalidated properties. */
  method InvalidateNames(stat: Status, invalid: seq<string>)
    modifies stat
    ensures stat.Value() == InvalidateAll(old(stat.Value()), invalid)
    ensures stat.config == old(stat.config) || stat.config == null
  {
    var i := 0;
    while i < |invalid|
      invariant i <= |invalid|
      invariant stat.Value() == InvalidateAll(old(stat.Value()), invalid[..i])
      invariant stat.config == old(stat.config) || stat.config == null
    {
      var name := invalid[i];
      if name == CONFIG {
        stat.config := null;
      } else if name == TRUSTED_NETWORK {
        stat.trustedNetwork := 0;
      } else if name == LOGIN_STATE {
        stat.loginState := 0;
      } else if name == LAST_KEEP_ALIVE {
        stat.lastKeepAlive := -1;
      } else if name == TGT_START {
        stat.tgtStart := -1;
      } else if name == TGT_END {
        stat.tgtEnd := -1;
      }
      assert invalid[..i + 1][..i] == invalid[..i];
      i := i + 1;
    }
    assert invalid[..i] == invalid;
  }

  // ---------------------------------------------------------------- the stream of updates

  /** The status after the valid ones of the signals. */
  ghost function Fold(parse: Parser, st: StatusValue, signals: seq<Signal>): StatusValue {
    if signals == [] then st
    else
      var before := Fold(parse, st, signals[..|signals| - 1]);
      var s := signals[|signals| - 1];
      if ValidSignal(parse, s) then AfterSignal(parse, before, s) else before
  }

  /** The initial status followed by the status after each valid signal. */
  ghost function Stream(parse: Parser, st: StatusValue, signals: seq<Signal>): seq<StatusValue> {
    if signals == [] then [st]
    else
      Stream(parse, st, signals[..|signals| - 1]) +
      if ValidSignal(parse, signals[|signals| - 1]) then [Fold(parse, st, signals)] else []
  }

  /** What a consumer writes over a status it received. */
  datatype Junk = Junk(status: StatusValue, scalars: Scalars, server: Server, content: string)

  /** A signal applied to a copy of the status, which is thrown away when the signal is invalid. */
  method OnCopy(parse: Parser, status: Status, s: Signal) returns (update: Status?)
    requires LongEnough(parse, s)
    ensures update != null <==> ValidSignal(parse, s)
    ensures update != null ==> fresh(update.Repr()) && update.Value() == AfterSignal(parse, status.Value(), s)
  {
    var cp := status.Copy();
    update := HandlePropertiesChanged(parse, s, cp);
  }

  /** A copy to keep, out of reach of whoever gets the update. */
  method KeepCopy(update: Status) returns (kept: Status)
    ensures kept.Value() == update.Value() == old(update.Value()) && update.Repr() == old(update.Repr())
    ensures fresh(kept.Repr()) && kept.Repr() !! update.Repr()
  {
    kept := update.Copy();
  }

  /** One round of the loop: a valid update is copied again, and the copy is kept. */
  method Round(parse: Parser, status: Status, s: Signal) returns (kept: Status, update: Status?)
    requires LongEnough(parse, s)
    ensures update != null <==> ValidSignal(parse, s)
    ensures update == null ==> kept == status
    ensures update != null ==> fresh(update.Repr()) && fresh(kept.Repr()) && kept.Repr() !! update.Repr()
    ensures update != null ==> update.Value() == kept.Value() == AfterSignal(parse, status.Value(), s)
  {
    update := OnCopy(parse, status, s);
    kept := status;
    if update != null {
      kept := KeepCopy(update);
    }
  }

  /** The consumer reads an update and then overwrites it. */
  method Consume(update: Status, junk: Junk) returns (value: StatusValue)
    modifies update.Repr()
    ensures value == old(update.Value())
  {
    value := update.Value();
    update.Overwrite(junk.status, junk.scalars, junk.server, junk.content);
  }

  /** A round of the loop with the consumer behind it; what is kept is out of the consumer's reach. */
  method TakenRound(parse: Parser, status: Status, s: Signal, junk: Junk) returns (kept: Status, valid: bool, value: StatusValue)
    requires LongEnough(parse, s)
    ensures valid <==> ValidSignal(parse, s)
    ensures kept.Value() == if valid then AfterSignal(parse, status.Value(), s) else status.Value()
    ensures valid ==> value == kept.Value()
  {
    var update;
    kept, update := Round(parse, status, s);
    valid, value := update != null, NEW_STATUS;
    if update != null {
      value := Consume(update, junk);
    }
  }

  lemma FoldOne(parse: Parser, st: StatusValue, signals: seq<Signal>, n: nat)
    requires n < |signals|
    ensures var s, before, after := signals[n], Fold(parse, st, signals[..n]), Fold(parse, st, signals[..n + 1]);
            && after == (if ValidSignal(parse, s) then AfterSignal(parse, before, s) else before)
            && Stream(parse, st, signals[..n + 1]) == Stream(parse, st, signals[..n]) + if ValidSignal(parse, s) then [after] else []
  {
    assert signals[..n + 1][..n] == signals[..n];
  }

  /**
    The goroutine of Subscribe. The consumer takes at most limit updates, then closes done; it overwrites
    each update right after taking it, with junk of its choice. What it gets does not depend on that.
   */
  method Subscription(parse: Parser, status: Status, signals: seq<Signal>, limit: nat, junk: Junk)
    returns (taken: seq<StatusValue>, used: nat)
    requires forall s | s in signals :: LongEnough(parse, s)
    ensures used <= |signals|
    ensures taken <= Stream(parse, status.Value(), signals[..used])
    ensures |taken| <= limit
    ensures |taken| < limit ==> taken == Stream(parse, status.Value(), signals)
  {
    taken, used := [], 0;
    assert signals[..0] == [];
    if limit == 0 {
      return;
    }
    ghost var st := status.Value();
    var initial := status.Copy();
    var first := Consume(initial, junk);
    taken := [first];
    var current := status;
    while used < |signals|
      invariant used <= |signals|
      invariant current.Value() == Fold(parse, st, signals[..used])
      invariant taken == Stream(parse, st, signals[..used])
      invariant |taken| <= limit
      decreases |signals| - used
    {
      assert signals[used] in signals;
      FoldOne(parse, st, signals, used);
      var valid, value;
      current, valid, value := TakenRound(parse, current, signals[used], junk);
      used := used + 1;
      if valid {
        if |taken| == limit {
          return;
        }
        taken := taken + [value];
      }
    }
    assert signals[..used] == signals;
  }
}
