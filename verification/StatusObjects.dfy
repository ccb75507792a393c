/**
  Status and configuration as heap objects with their copies (pkg/status/status.go, pkg/config/config.go).
  A configuration holds a server list and a detector configuration by reference.
 */
module StatusObjects {
  import opened Options

  datatype Server = Server(url: string, hash: string)

  /** The fields of the configuration that hold no references. */
  datatype Scalars = Scalars(serviceURL: string, realm: string, keepAlive: int, loginTimeout: int, logoutTimeout: int,
                             retryTimer: int, verbose: bool, startDelay: int, notifications: bool)

  /** What a configuration says; a nil server list is distinguished from an empty one. */
  datatype ConfigValue = ConfigValue(scalars: Scalars, servers: Option<seq<Server>>, detector: Option<string>)

  datatype StatusValue = StatusValue(config: Option<ConfigValue>, trustedNetwork: nat, loginState: nat,
                                     lastKeepAlive: int, tgtStart: int, tgtEnd: int)

  /** status.New. */
  const NEW_STATUS := StatusValue(None, 0, 0, 0, 0, 0)

  class DetectorConfig {
    var content: string

    constructor (content: string)
      ensures this.content == content
    {
      this.content := content;
    }
  }

  class Config {
    var scalars: Scalars
    var servers: array?<Server>
    var detector: DetectorConfig?

    ghost function Repr(): set<object>
      reads this
    {
      {this} + (if servers == null then {} else {servers}) + (if detector == null then {} else {detector})
    }

    function Value(): ConfigValue
      reads this, servers, detector
    {
      ConfigValue(scalars, if servers == null then None else Some(servers[..]), if detector == null then None else Some(detector.content))
    }

    /** A new object with the given content, as parsing produces it. */
    constructor Of(v: ConfigValue)
      ensures Value() == v && fresh(Repr())
    {
      scalars := v.scalars;
      servers := null;
      detector := null;
      new;
      if v.servers.Some? {
        var list := new Server[|v.servers.value|](i requires 0 <= i < |v.servers.value| => v.servers.value[i]);
        servers := list;
        assert servers[..] == v.servers.value;
      }
      if v.detector.Some? {
        var d := new DetectorConfig(v.detector.value);
        detector := d;
      }
    }

    constructor Empty(scalars: Scalars)
      ensures this.scalars == scalars && servers == null && detector == null
    {
      this.scalars, servers, detector := scalars, null, null;
    }

    /** Copy shares nothing with the original: the list and the detector configuration are copied too. */
    method Copy() returns (cp: Config)
      ensures cp.Value() == Value() && fresh(cp.Repr())
    {
      cp := new Config.Empty(scalars);
      if servers != null {
        var from := servers;
        var list := new Server[from.Length](i requires 0 <= i < from.Length reads from => from[i]);
        cp.servers := list;
        assert cp.servers[..] == servers[..];
      }
      if detector != null {
        var d := new DetectorConfig(detector.content);
        cp.detector := d;
      }
    }
  }

  class Status {
    var config: Config?
    var trustedNetwork: nat
    var loginState: nat
    var lastKeepAlive: int
    var tgtStart: int
    var tgtEnd: int

    ghost function Repr(): set<object>
      reads this, config
    {
      {this} + if config == null then {} else config.Repr()
    }

    function Value(): StatusValue
      reads this, config, if config == null then {} else config.Repr()
    {
      StatusValue(if config == null then None else Some(config.Value()), trustedNetwork, loginState, lastKeepAlive, tgtStart, tgtEnd)
    }

    constructor New()
      ensures Value() == NEW_STATUS && fresh(Repr())
    {
      config := null;
      trustedNetwork, loginState, lastKeepAlive, tgtStart, tgtEnd := 0, 0, 0, 0, 0;
    }

    method Copy() returns (cp: Status)
      ensures cp.Value() == Value() && fresh(cp.Repr())
    {
      cp := new Status.New();
      if config != null {
        var c := config.Copy();
        cp.config := c;
      }
      cp.trustedNetwork := trustedNetwork;
      cp.loginState := loginState;
      cp.lastKeepAlive := lastKeepAlive;
      cp.tgtStart := tgtStart;
      cp.tgtEnd := tgtEnd;
    }

    /** A consumer overwriting everything it can reach from a status it was given. */
    method Overwrite(junk: StatusValue, scalars: Scalars, server: Server, content: string)
      modifies Repr()
      ensures trustedNetwork == junk.trustedNetwork && loginState == junk.loginState
      ensures lastKeepAlive == junk.lastKeepAlive && tgtStart == junk.tgtStart && tgtEnd == junk.tgtEnd
      ensures config == old(config)
      ensures config != null ==> config.scalars == scalars && config.servers == old(config.servers) && config.detector == old(config.detector)
      ensures config != null && config.servers != null ==> forall i | 0 <= i < config.servers.Length :: config.servers[i] == server
      ensures config != null && config.detector != null ==> config.detector.content == content
    {
      if config != null {
        config.scalars := scalars;
        if config.servers != null {
          var i := 0;
          while i < config.servers.Length
            invariant i <= config.servers.Length
            invariant unchanged(this) && config.servers == old(config.servers)
            invariant forall k | 0 <= k < i :: config.servers[k] == server
            modifies config.servers
          {
            config.servers[i] := server;
            i := i + 1;
          }
        }
        if config.detector != null {
          config.detector.content := content;
        }
      }
      trustedNetwork, loginState := junk.trustedNetwork, junk.loginState;
      lastKeepAlive, tgtStart, tgtEnd := junk.lastKeepAlive, junk.tgtStart, junk.tgtEnd;
    }
  }
}
