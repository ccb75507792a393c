/** The optional value used for Go pointers and channels that may be nil. */
module Options {
  datatype Option<+T> = None | Some(value: T)
}

/** The states published by the agent (pkg/status/status.go). */
module Status {

  datatype TrustedNetwork = NetworkUnknown | NotTrusted | Trusted

  datatype LoginState = LoginUnknown | LoggedOut | LoggingIn | LoggedIn | LoggingOut

  datatype KerberosTicket = KerberosTicket(startTime: int, endTime: int)

  /** The unsigned numbers the states have on the bus. */
  function NetworkCode(t: TrustedNetwork): nat {
    match t
    case NetworkUnknown => 0
    case NotTrusted => 1
    case Trusted => 2
  }

  function LoginCode(l: LoginState): nat {
    match l
    case LoginUnknown => 0
    case LoggedOut => 1
    case LoggingIn => 2
    case LoggedIn => 3
    case LoggingOut => 4
  }
}

/** Credential caches and configurations as the agent sees them. */
module Kerberos {
  import opened Options
  import opened Status

  /** The tickets of a ccache by service principal, and the rest of its content. */
  datatype CCache = CCache(tickets: map<string, KerberosTicket>, rest: string)

  datatype KrbConf = KrbConf(content: string)

  /** Updates sent by the monitors; the pointers in them may be nil in Go. */
  datatype CCacheUpdate = CCacheUpdate(ccache: Option<CCache>)
  datatype ConfUpdate = ConfUpdate(config: Option<KrbConf>)

  function GetTGT(u: CCacheUpdate, realm: string): Option<KerberosTicket>
    requires u.ccache.Some?
  {
    var name := "krbtgt/" + realm;
    if name in u.ccache.value.tickets then Some(u.ccache.value.tickets[name]) else None
  }
}

/** Go durations: 64-bit nanoseconds with wrap-around (pkg/config/config.go). */
module Durations {

  const TWO_63: int := 0x8000_0000_0000_0000
  const TWO_64: int := 0x1_0000_0000_0000_0000
  const SECOND: int := 1_000_000_000
  const MINUTE: int := 60_000_000_000

  ghost predicate IsInt64(n: int) { -TWO_63 <= n < TWO_63 }

  /** The two's complement value of the low 64 bits of n. */
  function Wrap(n: int): int {
    (n + TWO_63) % TWO_64 - TWO_63
  }

  function Minutes(n: int): int { Wrap(n * MINUTE) }

  function Seconds(n: int): int { Wrap(n * SECOND) }

  lemma WrapExact(n: int)
    ensures IsInt64(Wrap(n))
    ensures Wrap(n) == n <==> IsInt64(n)
  {
  }

  /** A delay in minutes is exact up to 153722867 minutes either way, and no further. */
  lemma MinutesExact(n: int)
    ensures Minutes(n) == n * MINUTE <==> -153722867 <= n <= 153722867
    ensures 0 < n <= 153722867 ==> Minutes(n) > 0
  {
    WrapExact(n * MINUTE);
  }

  /** One minute more than the exact range makes a positive keep-alive a negative delay. */
  lemma MinutesOverflow()
    ensures Minutes(153722868) < 0
  {
  }

  lemma SecondsExact(n: int)
    ensures Seconds(n) == n * SECOND <==> -9223372036 <= n <= 9223372036
  {
    WrapExact(n * SECOND);
  }
}

/** The part of the configuration that the agent and its client read. */
module Settings {
  import opened Durations

  /** keepAlive is in minutes, retryTimer in seconds, json is the published text. */
  datatype Settings = Settings(realm: string, notifications: bool, keepAlive: int, retryTimer: int, json: string)
  {
    function KeepAliveDelay(): int { Minutes(keepAlive) }
    function RetryDelay(): int { Seconds(retryTimer) }
  }
}
