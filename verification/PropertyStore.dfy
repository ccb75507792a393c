/** The property map of the D-Bus service (internal/dbusapi/service.go) and the service's loop. */
module PropertyStore {
  import opened Status
  import opened Handlers

  /** The values with which the properties are exported. */
  const EXPORTED: map<Property, Value> := map[
    PropConfig := Text(""),
    PropTrustedNetwork := Code(NetworkCode(NetworkUnknown)),
    PropLoginState := Code(LoginCode(LoginUnknown)),
    PropLastKeepAliveAt := Stamp(-1),
    PropTGTStart := Stamp(-1),
    PropTGTEnd := Stamp(-1)]

  /** The updates made at the end of Service.Start, for clients that outlived an earlier agent. */
  const STARTED: seq<Update> := [
    Update(PropConfig, Text("")),
    Update(PropTrustedNetwork, Code(NetworkCode(NotTrusted))),
    Update(PropLoginState, Code(LoginCode(LoggedOut))),
    Update(PropLastKeepAliveAt, Stamp(-1)),
    Update(PropTGTStart, Stamp(-1)),
    Update(PropTGTEnd, Stamp(-1))]

  /** The updates made when the service stops. */
  const FLUSH: seq<Update> := [
    Update(PropConfig, Text("")),
    Update(PropTrustedNetwork, Code(NetworkCode(NetworkUnknown))),
    Update(PropLoginState, Code(LoginCode(LoginUnknown))),
    Update(PropLastKeepAliveAt, Stamp(-1)),
    Update(PropTGTStart, Stamp(-1)),
    Update(PropTGTEnd, Stamp(-1))]

  function SetAll(props: map<Property, Value>, us: seq<Update>): map<Property, Value> {
    if us == [] then props
    else SetAll(props, us[..|us| - 1])[us[|us| - 1].name := us[|us| - 1].value]
  }

  /** Every property is exported. */
  lemma AllExported(p: Property)
    ensures p in EXPORTED
  {
    match p
    case PropConfig =>
    case _ =>
  }

  lemma {:induction false} SetAllConcat(props: map<Property, Value>, us: seq<Update>, vs: seq<Update>)
    ensures SetAll(props, us + vs) == SetAll(SetAll(props, us), vs)
  {
    if vs == [] {
      assert us + vs == us;
    } else {
      assert (us + vs)[..|us + vs| - 1] == us + vs[..|vs| - 1];
      SetAllConcat(props, us, vs[..|vs| - 1]);
    }
  }

  lemma SetAllOne(props: map<Property, Value>, us: seq<Update>, u: Update)
    ensures SetAll(props, us + [u]) == SetAll(props, us)[u.name := u.value]
  {
    assert (us + [u])[..|us|] == us;
  }

  lemma SetSix(props: map<Property, Value>, us: seq<Update>)
    requires |us| == 6
    ensures SetAll(props, us) == props[us[0].name := us[0].value][us[1].name := us[1].value][us[2].name := us[2].value]
                                      [us[3].name := us[3].value][us[4].name := us[4].value][us[5].name := us[5].value]
  {
    assert us[..5][..4] == us[..4] && us[..4][..3] == us[..3] && us[..3][..2] == us[..2] && us[..2][..1] == us[..1] && us[..1][..0] == [];
    assert SetAll(props, us[..1]) == props[us[0].name := us[0].value];
    assert SetAll(props, us[..2]) == SetAll(props, us[..1])[us[1].name := us[1].value];
    assert SetAll(props, us[..3]) == SetAll(props, us[..2])[us[2].name := us[2].value];
    assert SetAll(props, us[..4]) == SetAll(props, us[..3])[us[3].name := us[3].value];
    assert SetAll(props, us[..5]) == SetAll(props, us[..4])[us[4].name := us[4].value];
  }

  lemma StartedMap()
    ensures forall p: Property :: p in SetAll(EXPORTED, STARTED)
    ensures SetAll(EXPORTED, STARTED)[PropLastKeepAliveAt] == Stamp(-1)
    ensures SetAll(EXPORTED, STARTED)[PropTGTStart] == Stamp(-1) && SetAll(EXPORTED, STARTED)[PropTGTEnd] == Stamp(-1)
    ensures SetAll(EXPORTED, STARTED)[PropLoginState] == Code(1) && SetAll(EXPORTED, STARTED)[PropTrustedNetwork] == Code(1)
  {
    SetSix(EXPORTED, STARTED);
    forall p: Property
      ensures p in SetAll(EXPORTED, STARTED)
    {
      AllExported(p);
    }
  }

  /** The final flush overwrites every property with unknown or invalid, whatever was there. */
  lemma FlushResets(props: map<Property, Value>)
    requires forall p: Property :: p in props
    ensures SetAll(props, FLUSH) == EXPORTED
  {
    SetSix(props, FLUSH);
    forall p: Property
      ensures p in EXPORTED && SetAll(props, FLUSH)[p] == EXPORTED[p]
    {
      AllExported(p);
      match p
      case PropConfig =>
      case _ =>
    }
  }
}
