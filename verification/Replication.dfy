/** How a subscriber's status follows the properties of the service. */
module Replication {
  import opened Options
  import opened Handlers
  import opened PropertyStore
  import opened StatusObjects
  import opened Subscriber

  // ---------------------------------------------------------------- signals and queries

  function NameOf(p: Property): string {
    match p
    case PropConfig => CONFIG
    case PropTrustedNetwork => TRUSTED_NETWORK
    case PropLoginState => LOGIN_STATE
    case PropLastKeepAliveAt => LAST_KEEP_ALIVE
    case PropTGTStart => TGT_START
    case PropTGTEnd => TGT_END
  }

  function VariantOf(v: Value): Variant {
    match v
    case Text(t) => Variant(Some(t), None, None)
    case Code(c) => Variant(None, Some(c), None)
    case Stamp(t) => Variant(None, None, Some(t))
  }

  /** The PropertiesChanged signal that SetMust emits: one changed property, none invalidated. */
  function SignalOf(u: Update): Signal {
    Signal(PATH, PROPERTIES_CHANGED, [Str(INTERFACE), Dict(map[NameOf(u.name) := VariantOf(u.value)]), Names([])])
  }

  function SignalsOf(us: seq<Update>): seq<Signal> {
    if us == [] then [] else SignalsOf(us[..|us| - 1]) + [SignalOf(us[|us| - 1])]
  }

  /** The value has the property's type, and a config text can be parsed. */
  predicate WellTyped(parse: Parser, p: Property, v: Value) {
    match p
    case PropConfig => v.Text? && ReadConfig(parse, v.text).Some?
    case PropTrustedNetwork => v.Code?
    case PropLoginState => v.Code?
    case _ => v.Stamp?
  }

  predicate AllTyped(parse: Parser, us: seq<Update>) {
    forall u | u in us :: WellTyped(parse, u.name, u.value)
  }

  ghost predicate Complete(parse: Parser, props: map<Property, Value>) {
    forall p: Property :: p in props && WellTyped(parse, p, props[p])
  }

  /** The reply to GetAll. */
  function GetAll(props: map<Property, Value>): map<string, Variant>
    requires forall p: Property :: p in props
  {
    map[CONFIG := VariantOf(props[PropConfig]),
        TRUSTED_NETWORK := VariantOf(props[PropTrustedNetwork]),
        LOGIN_STATE := VariantOf(props[PropLoginState]),
        LAST_KEEP_ALIVE := VariantOf(props[PropLastKeepAliveAt]),
        TGT_START := VariantOf(props[PropTGTStart]),
        TGT_END := VariantOf(props[PropTGTEnd])]
  }

  // ---------------------------------------------------------------- single properties

  datatype Datum = Conf(conf: Option<ConfigValue>) | Num(num: int)

  /** A subscriber's value of a property. */
  function Seen(st: StatusValue, p: Property): Datum {
    match p
    case PropConfig => Conf(st.config)
    case PropTrustedNetwork => Num(st.trustedNetwork)
    case PropLoginState => Num(st.loginState)
    case PropLastKeepAliveAt => Num(st.lastKeepAlive)
    case PropTGTStart => Num(st.tgtStart)
    case PropTGTEnd => Num(st.tgtEnd)
  }

  /** What the service's value of a property means to a subscriber. */
  function Meaning(parse: Parser, p: Property, v: Value): Datum
    requires WellTyped(parse, p, v)
  {
    match v
    case Text(t) => Conf(ReadConfig(parse, t).value)
    case Code(c) => Num(c)
    case Stamp(t) => Num(t)
  }

  /** The last value given to a property by the updates, if any. */
  function LastOf(us: seq<Update>, p: Property): Option<Value> {
    if us == [] then None
    else if us[|us| - 1].name == p then Some(us[|us| - 1].value)
    else LastOf(us[..|us| - 1], p)
  }

  lemma SignalIsValid(parse: Parser, u: Update)
    requires WellTyped(parse, u.name, u.value)
    ensures ValidSignal(parse, SignalOf(u))
  {
    NamesDistinct();
  }

  /** A signal sets its property and no other. */
  lemma SignalSets(parse: Parser, st: StatusValue, u: Update, p: Property)
    requires WellTyped(parse, u.name, u.value)
    ensures ValidSignal(parse, SignalOf(u))
    ensures Seen(AfterSignal(parse, st, SignalOf(u)), p) == if u.name == p then Meaning(parse, p, u.value) else Seen(st, p)
  {
    SignalIsValid(parse, u);
    NamesDistinct();
    var d := map[NameOf(u.name) := VariantOf(u.value)];
    assert d.Keys == {NameOf(u.name)};
    assert SignalOf(u).body[2].names == [];
  }

  lemma {:induction false} FoldSees(parse: Parser, st: StatusValue, us: seq<Update>, p: Property)
    requires AllTyped(parse, us)
    ensures LastOf(us, p).Some? ==> WellTyped(parse, p, LastOf(us, p).value)
    ensures Seen(Fold(parse, st, SignalsOf(us)), p) ==
            if LastOf(us, p).Some? then Meaning(parse, p, LastOf(us, p).value) else Seen(st, p)
  {
    if us != [] {
      var before, u := us[..|us| - 1], us[|us| - 1];
      assert u in us;
      FoldSees(parse, st, before, p);
      SignalSets(parse, Fold(parse, st, SignalsOf(before)), u, p);
      assert SignalsOf(us)[..|SignalsOf(us)| - 1] == SignalsOf(before);
    }
  }

  lemma {:induction false} StoreHolds(props: map<Property, Value>, us: seq<Update>, p: Property)
    requires p in props
    ensures p in SetAll(props, us)
    ensures SetAll(props, us)[p] == if LastOf(us, p).Some? then LastOf(us, p).value else props[p]
  {
    if us != [] {
      StoreHolds(props, us[..|us| - 1], p);
    }
  }

  lemma {:induction false} LastOfConcat(us: seq<Update>, vs: seq<Update>, p: Property)
    ensures LastOf(us + vs, p) == if LastOf(vs, p).Some? then LastOf(vs, p) else LastOf(us, p)
  {
    if vs == [] {
      assert us + vs == us;
    } else {
      assert (us + vs)[..|us + vs| - 1] == us + vs[..|vs| - 1];
      LastOfConcat(us, vs[..|vs| - 1], p);
    }
  }

  /** A query reads every property of the map. */
  ghost function Queried(parse: Parser, props: map<Property, Value>): StatusValue
    requires Complete(parse, props)
  {
    GetAllDecodes(parse, props);
    Merge(parse, NEW_STATUS, GetAll(props), GetAll(props).Keys)
  }

  lemma GetAllDecodes(parse: Parser, props: map<Property, Value>)
    requires Complete(parse, props)
    ensures AllDecode(parse, GetAll(props))
  {
    NamesDistinct();
    assert forall p: Property :: p in props ==> WellTyped(parse, p, props[p]);
    assert WellTyped(parse, PropConfig, props[PropConfig]) && WellTyped(parse, PropTrustedNetwork, props[PropTrustedNetwork])
        && WellTyped(parse, PropLoginState, props[PropLoginState]) && WellTyped(parse, PropLastKeepAliveAt, props[PropLastKeepAliveAt])
        && WellTyped(parse, PropTGTStart, props[PropTGTStart]) && WellTyped(parse, PropTGTEnd, props[PropTGTEnd]);
  }

  lemma QuerySees(parse: Parser, props: map<Property, Value>, p: Property)
    requires Complete(parse, props)
    ensures Seen(Queried(parse, props), p) == Meaning(parse, p, props[p])
  {
    GetAllDecodes(parse, props);
    NamesDistinct();
    assert WellTyped(parse, p, props[p]);
  }

  // ---------------------------------------------------------------- the replication theorem

  /** The service's map after the first n of its updates. */
  ghost function StoreAt(log: seq<Update>, n: nat): map<Property, Value>
    requires n <= |log|
  {
    SetAll(EXPORTED, log[..n])
  }

  lemma StoreComplete(parse: Parser, log: seq<Update>, n: nat)
    requires AllTyped(parse, log) && n <= |log|
    ensures Complete(parse, StoreAt(log, n))
  {
    forall p: Property
      ensures p in StoreAt(log, n) && WellTyped(parse, p, StoreAt(log, n)[p])
    {
      AllExported(p);
      StoreHolds(EXPORTED, log[..n], p);
      FoldSees(parse, NEW_STATUS, log[..n], p);
    }
  }

  /** A subscriber that queried after q updates, was registered after m, and got the signals up to n. */
  ghost function Replica(parse: Parser, log: seq<Update>, q: nat, m: nat, n: nat): StatusValue
    requires AllTyped(parse, log) && q <= m <= n <= |log|
  {
    StoreComplete(parse, log, q);
    Fold(parse, Queried(parse, StoreAt(log, q)), SignalsOf(log[m..n]))
  }

  /** The update was made between two points of the log. */
  predicate Touched(log: seq<Update>, from: nat, to: nat, p: Property)
    requires from <= to <= |log|
  {
    LastOf(log[from..to], p).Some?
  }

  lemma StoreSplits(log: seq<Update>, from: nat, to: nat, p: Property)
    requires from <= to <= |log|
    ensures p in StoreAt(log, from) && p in StoreAt(log, to)
    ensures StoreAt(log, to)[p] == if Touched(log, from, to, p) then LastOf(log[from..to], p).value else StoreAt(log, from)[p]
  {
    AllExported(p);
    StoreHolds(EXPORTED, log[..from], p);
    StoreHolds(EXPORTED, log[..to], p);
    assert log[..to] == log[..from] + log[from..to];
    LastOfConcat(log[..from], log[from..to], p);
  }

  /**
    The subscriber's value of a property is the service's after the matching updates exactly if the
    property was updated since the registration, or its value means the same before and after the gap
    between the query and the registration.
   */
  lemma ReplicaAgrees(parse: Parser, log: seq<Update>, q: nat, m: nat, n: nat, p: Property)
    requires AllTyped(parse, log) && q <= m <= n <= |log|
    ensures Complete(parse, StoreAt(log, q)) && Complete(parse, StoreAt(log, m)) && Complete(parse, StoreAt(log, n))
    ensures Seen(Replica(parse, log, q, m, n), p) == Meaning(parse, p, StoreAt(log, n)[p])
            <==> Touched(log, m, n, p) || Meaning(parse, p, StoreAt(log, q)[p]) == Meaning(parse, p, StoreAt(log, m)[p])
  {
    StoreComplete(parse, log, q);
    StoreComplete(parse, log, m);
    StoreComplete(parse, log, n);
    FoldSees(parse, Queried(parse, StoreAt(log, q)), log[m..n], p);
    QuerySees(parse, StoreAt(log, q), p);
    StoreSplits(log, m, n, p);
  }

  /** With no change in the gap, the whole status of the subscriber is what a query would give now. */
  lemma ReplicaIsExact(parse: Parser, log: seq<Update>, q: nat, m: nat, n: nat)
    requires AllTyped(parse, log) && q <= m <= n <= |log|
    requires forall p: Property :: !Touched(log, q, m, p)
    ensures Complete(parse, StoreAt(log, n))
    ensures Replica(parse, log, q, m, n) == Queried(parse, StoreAt(log, n))
  {
    StoreComplete(parse, log, n);
    forall p: Property
      ensures Seen(Replica(parse, log, q, m, n), p) == Seen(Queried(parse, StoreAt(log, n)), p)
    {
      ReplicaAgrees(parse, log, q, m, n, p);
      StoreSplits(log, q, m, p);
      QuerySees(parse, StoreAt(log, n), p);
    }
    SeenDetermines(Replica(parse, log, q, m, n), Queried(parse, StoreAt(log, n)));
  }

  lemma SeenDetermines(a: StatusValue, b: StatusValue)
    requires forall p: Property :: Seen(a, p) == Seen(b, p)
    ensures a == b
  {
    assert Seen(a, PropConfig) == Seen(b, PropConfig) && Seen(a, PropTrustedNetwork) == Seen(b, PropTrustedNetwork)
        && Seen(a, PropLoginState) == Seen(b, PropLoginState) && Seen(a, PropLastKeepAliveAt) == Seen(b, PropLastKeepAliveAt)
        && Seen(a, PropTGTStart) == Seen(b, PropTGTStart) && Seen(a, PropTGTEnd) == Seen(b, PropTGTEnd);
  }

  // ---------------------------------------------------------------- the consumer of a subscription

  /** The signals of well-typed updates each give the consumer one status, the last being the fold of all. */
  lemma {:induction false} StreamOfSignals(parse: Parser, st: StatusValue, us: seq<Update>)
    requires AllTyped(parse, us)
    ensures forall s | s in SignalsOf(us) :: LongEnough(parse, s)
    ensures var taken := Stream(parse, st, SignalsOf(us));
            |taken| == |us| + 1 && taken[|us|] == Fold(parse, st, SignalsOf(us))
  {
    if us != [] {
      var before, u := us[..|us| - 1], us[|us| - 1];
      assert u in us;
      StreamOfSignals(parse, st, before);
      SignalIsValid(parse, u);
      assert SignalsOf(us)[..|SignalsOf(us)| - 1] == SignalsOf(before);
    }
  }
}
