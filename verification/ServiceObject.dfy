/** The D-Bus service as the source has it: a property store changed by the service's loop. */
module ServiceObject {
  import opened Status
  import opened Handlers
  import opened PropertyStore

  class PropertyService {
    var props: map<Property, Value>
    var signals: seq<Update>

    /** The store is what all updates so far, in order, have made of the exported values. */
    ghost predicate Valid()
      reads this
    {
      props == SetAll(EXPORTED, signals)
    }

    constructor ()
      ensures Valid() && signals == []
    {
      props, signals := EXPORTED, [];
    }

    /** SetMust stores a value and emits a signal with it. */
    method SetMust(u: Update)
      requires Valid()
      modifies this
      ensures Valid() && signals == old(signals) + [u] && props == old(props)[u.name := u.value]
    {
      props := props[u.name := u.value];
      signals := signals + [u];
      assert signals[..|signals| - 1] == old(signals);
    }

    /** The end of Service.Start: existing subscribers are told the values of a fresh agent. */
    method Start()
      requires Valid() && signals == []
      modifies this
      ensures Valid() && signals == STARTED
    {
      SetMust(Update(PropConfig, Text("")));
      SetMust(Update(PropTrustedNetwork, Code(NetworkCode(NotTrusted))));
      SetMust(Update(PropLoginState, Code(LoginCode(LoggedOut))));
      SetMust(Update(PropLastKeepAliveAt, Stamp(-1)));
      SetMust(Update(PropTGTStart, Stamp(-1)));
      SetMust(Update(PropTGTEnd, Stamp(-1)));
    }

    /** The done arm of the loop. */
    method Flush()
      requires Valid() && forall p: Property :: p in props
      modifies this
      ensures Valid() && signals == old(signals) + FLUSH
      ensures props == EXPORTED
    {
      SetMust(Update(PropConfig, Text("")));
      SetMust(Update(PropTrustedNetwork, Code(NetworkCode(NetworkUnknown))));
      SetMust(Update(PropLoginState, Code(LoginCode(LoginUnknown))));
      SetMust(Update(PropLastKeepAliveAt, Stamp(-1)));
      SetMust(Update(PropTGTStart, Stamp(-1)));
      SetMust(Update(PropTGTEnd, Stamp(-1)));
      SetAllConcat(EXPORTED, old(signals), FLUSH);
      FlushResets(old(props));
    }

    /** The loop on the updates handed over before done is closed, in any number. */
    method Serve(updates: seq<Update>)
      requires Valid() && forall p: Property :: p in props
      modifies this
      ensures Valid() && signals == old(signals) + updates + FLUSH
      ensures props == EXPORTED
    {
      var i := 0;
      while i < |updates|
        invariant i <= |updates|
        invariant Valid() && signals == old(signals) + updates[..i]
        invariant forall p: Property :: p in props
      {
        SetMust(updates[i]);
        assert updates[..i + 1] == updates[..i] + [updates[i]];
        i := i + 1;
      }
      assert updates[..i] == updates;
      Flush();
    }
  }
}
