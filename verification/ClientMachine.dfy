/**
  The login client's goroutine (internal/client/client.go) as a transition system.
  Every state below is a point where the goroutine can be preempted or blocked.
 */
module ClientMachine {
  import opened Options
  import opened Status
  import opened Kerberos
  import opened Durations
  import opened Settings

  datatype Operation = Login | Logout

  /** What a service request and the reading of its body can end with. */
  datatype Outcome = Failed | Unreadable | Unparseable | Parsed(keepAlive: int) | NoCCache | NoConf

  /** A Go timer: armed, fired but not yet received, received, or stopped. */
  datatype Timer = Armed(delay: int) | Fired | Received | Stopped

  datatype AfterSend = ToLogin | ToReset(failed: bool) | ToLogout | ToStopTimer

  datatype Stage =
    | Enter
    | CheckCCache
    | CheckConf
    | ReadCCache
    | ReadConf(ccache: Option<CCache>)
    | InFlight(ccache: Option<CCache>, conf: Option<KrbConf>)

  datatype ClientPC =
    | AtSelect
    | Sending(state: LoginState, next: AfterSend)
    | Requesting(op: Operation, stage: Stage)
    | Resetting(failed: bool)
    | StoppingTimer
    | Draining
    | ClosingResults
    | ClosingClosed
    | Dead

  /** What the goroutine does that others can observe, one entry per act. */
  datatype Act =
    | Began(op: Operation)
    | Ended(op: Operation, outcome: Outcome)
    | Attempted(state: LoginState, delivered: bool)
    | Rearmed(delay: int)

  /** doneCloses counts close(done); the other two channels are closed by the goroutine itself. */
  datatype Client = Client(
    pc: ClientPC,
    timer: Timer,
    keepAlive: int,
    ccache: Option<CCache>,
    conf: Option<KrbConf>,
    doneCloses: nat,
    resultsClosed: bool,
    closed: bool,
    trace: seq<Act>)

  datatype Move = Go | TakeTimer | TakeDone | Respond(outcome: Outcome) | Expire

  /** NewClient followed by Start: the goroutine is at its select with a timer of delay 0. */
  function NewClient(cfg: Settings, ccache: Option<CCache>, conf: Option<KrbConf>): Client {
    Client(AtSelect, Armed(0), cfg.KeepAliveDelay(), ccache, conf, 0, false, false, [])
  }

  /** The result sent after a login request; an unparseable body still counts as logged in. */
  function ResultOf(o: Outcome): LoginState {
    if o.Parsed? || o.Unparseable? then LoggedIn else LoggedOut
  }

  function KeepAliveAfter(c: Client, op: Operation, o: Outcome): int {
    if op == Login && o.Parsed? && o.keepAlive > 0 then Minutes(o.keepAlive) else c.keepAlive
  }

  /** The request has ended: keep the new keep-alive and turn to sending the result. */
  function Conclude(c: Client, op: Operation, o: Outcome): Client {
    c.(keepAlive := KeepAliveAfter(c, op, o),
       trace := c.trace + [Ended(op, o)],
       pc := if op == Login then Sending(ResultOf(o), ToReset(!o.Parsed?)) else Sending(LoggedOut, ToStopTimer))
  }

  /** The pending sendResult has returned. */
  function Sent(c: Client, delivered: bool): Client
    requires c.pc.Sending?
  {
    c.(trace := c.trace + [Attempted(c.pc.state, delivered)],
       pc := match c.pc.next
             case ToLogin => Requesting(Login, Enter)
             case ToReset(failed) => Resetting(failed)
             case ToLogout => Requesting(Logout, Enter)
             case ToStopTimer => StoppingTimer)
  }

  /** A step inside doServiceRequest; each getter takes the mutex on its own. */
  function RequestStep(c: Client): Client
    requires c.pc.Requesting? && !c.pc.stage.InFlight?
  {
    var op := c.pc.op;
    match c.pc.stage
    case Enter => c.(pc := Requesting(op, CheckCCache), trace := c.trace + [Began(op)])
    case CheckCCache => if c.ccache.None? then Conclude(c, op, NoCCache) else c.(pc := Requesting(op, CheckConf))
    case CheckConf => if c.conf.None? then Conclude(c, op, NoConf) else c.(pc := Requesting(op, ReadCCache))
    case ReadCCache => c.(pc := Requesting(op, ReadConf(c.ccache)))
    case ReadConf(cc) => c.(pc := Requesting(op, InFlight(cc, c.conf)))
  }

  /** timer.Reset, with the retry delay after a failed login and the keep-alive otherwise. */
  function Rearm(cfg: Settings, c: Client): Client
    requires c.pc.Resetting?
  {
    var d := if c.pc.failed then cfg.RetryDelay() else c.keepAlive;
    c.(timer := Armed(d), pc := AtSelect, trace := c.trace + [Rearmed(d)])
  }

  /** One step of the goroutine or of its timer; None when the move is not enabled. */
  function ClientStep(cfg: Settings, c: Client, m: Move): Option<Client> {
    match m
    case Expire =>
      if c.timer.Armed? then Some(c.(timer := Fired)) else None
    case TakeTimer =>
      if c.pc.AtSelect? && c.timer.Fired? then Some(c.(timer := Received, pc := Sending(LoggingIn, ToLogin))) else None
    case TakeDone =>
      if c.doneCloses == 0 then None
      else if c.pc.AtSelect? then Some(c.(pc := Sending(LoggingOut, ToLogout)))
      else if c.pc.Sending? then Some(Sent(c, false))
      else None
    case Respond(o) =>
      if c.pc.Requesting? && c.pc.stage.InFlight? && !o.NoCCache? && !o.NoConf? then Some(Conclude(c, c.pc.op, o)) else None
    case Go =>
      match c.pc
      case Requesting(_, stage) => if stage.InFlight? then None else Some(RequestStep(c))
      case Resetting(_) => Some(Rearm(cfg, c))
      case StoppingTimer =>
        // Stop reports false only when the firing was already received
        if c.timer.Armed? || c.timer.Fired? then Some(c.(timer := Stopped, pc := ClosingResults)) else Some(c.(pc := Draining))
      case Draining => if c.timer.Fired? then Some(c.(timer := Received, pc := ClosingResults)) else None
      case ClosingResults => Some(c.(resultsClosed := true, pc := ClosingClosed))
      case ClosingClosed => Some(c.(closed := true, pc := Dead))
      case _ => None
  }

  // ---------------------------------------------------------------- invariant of one goroutine

  /** On the way out: the done arm of the select has been taken. */
  predicate Leaving(pc: ClientPC) {
    match pc
    case Sending(_, next) => next.ToLogout? || next.ToStopTimer?
    case Requesting(op, _) => op == Logout
    case StoppingTimer => true
    case Draining => true
    case ClosingResults => true
    case ClosingClosed => true
    case Dead => true
    case _ => false
  }

  /** Inside a login, between receiving the firing and re-arming the timer. */
  predicate LoggingOn(pc: ClientPC) {
    match pc
    case Sending(_, next) => next.ToLogin? || next.ToReset?
    case Requesting(op, _) => op == Login
    case Resetting(_) => true
    case _ => false
  }

  /** The results that can be pending in sendResult, by what follows. */
  predicate SendsWell(pc: ClientPC) {
    pc.Sending? ==>
      match pc.next
      case ToLogin => pc.state == LoggingIn
      case ToReset(failed) => pc.state == LoggedIn || (pc.state == LoggedOut && failed)
      case ToLogout => pc.state == LoggingOut
      case ToStopTimer => pc.state == LoggedOut
  }

  ghost predicate ChannelsMatch(c: Client) {
    && (Leaving(c.pc) ==> c.doneCloses > 0)
    && (c.resultsClosed <==> c.pc.ClosingClosed? || c.pc.Dead?)
    && (c.closed <==> c.pc.Dead?)
    && SendsWell(c.pc)
  }

  ghost predicate TimerMatches(c: Client) {
    && !c.pc.Draining?
    && (c.pc.AtSelect? ==> c.timer.Armed? || c.timer.Fired?)
    && (LoggingOn(c.pc) ==> c.timer.Received?)
    && (Leaving(c.pc) && !c.pc.ClosingResults? && !c.pc.ClosingClosed? && !c.pc.Dead? ==> c.timer.Armed? || c.timer.Fired?)
    && (c.pc.ClosingResults? || c.pc.ClosingClosed? || c.pc.Dead? ==> c.timer.Stopped?)
  }

  /** a is the end of a login whose body held a positive keep-alive. */
  predicate Accepts(a: Act) {
    a.Ended? && a.op == Login && a.outcome.Parsed? && a.outcome.keepAlive > 0
  }

  /** The keep-alive in force after a trace: the last accepted positive one, else the configured one. */
  function KeepAliveIn(cfg: Settings, t: seq<Act>): int {
    if t == [] then cfg.KeepAliveDelay()
    else
      var a := t[|t| - 1];
      if Accepts(a) then Minutes(a.outcome.keepAlive)
      else KeepAliveIn(cfg, t[..|t| - 1])
  }

  /**
    The delay chosen at position i follows the login that ended two acts before: the retry delay unless the
    body was parsed, and then the keep-alive in force. The result in between is the one of that login.
   */
  ghost predicate RearmedWell(cfg: Settings, t: seq<Act>, i: nat)
    requires i < |t|
  {
    t[i].Rearmed? ==>
      && i >= 2 && t[i - 2].Ended? && t[i - 2].op == Login
      && t[i - 1].Attempted? && t[i - 1].state == ResultOf(t[i - 2].outcome)
      && t[i].delay == if t[i - 2].outcome.Parsed? then KeepAliveIn(cfg, t[..i]) else cfg.RetryDelay()
  }

  ghost predicate AllRearmedWell(cfg: Settings, t: seq<Act>) {
    forall i: nat | i < |t| :: RearmedWell(cfg, t, i)
  }

  /** How the end of the trace determines what the goroutine is about to do. */
  ghost predicate TraceMatches(cfg: Settings, c: Client) {
    var t := c.trace;
    && c.keepAlive == KeepAliveIn(cfg, t)
    && AllRearmedWell(cfg, t)
    && EndsWell(c.pc, t)
  }

  /** After a login request the trace ends with what the goroutine sends and how it will re-arm the timer. */
  predicate EndsWell(pc: ClientPC, t: seq<Act>) {
    && (pc.Sending? && pc.next.ToReset? ==>
          |t| >= 1 && t[|t| - 1].Ended? && t[|t| - 1].op == Login
          && pc.state == ResultOf(t[|t| - 1].outcome) && pc.next.failed == !t[|t| - 1].outcome.Parsed?)
    && (pc.Resetting? ==>
          |t| >= 2 && t[|t| - 2].Ended? && t[|t| - 2].op == Login && t[|t| - 1].Attempted?
          && t[|t| - 1].state == ResultOf(t[|t| - 2].outcome) && pc.failed == !t[|t| - 2].outcome.Parsed?)
  }

  ghost predicate ClientInv(cfg: Settings, c: Client) {
    ChannelsMatch(c) && TimerMatches(c) && TraceMatches(cfg, c) && DelayMatches(c)
  }

  /** At the select the timer has the first delay, zero, or the one chosen after the latest login. */
  predicate DelayMatches(c: Client) {
    c.pc.AtSelect? ==>
      if c.trace == [] then c.timer == Armed(0) || c.timer.Fired?
      else c.trace[|c.trace| - 1].Rearmed? && (c.timer == Armed(c.trace[|c.trace| - 1].delay) || c.timer.Fired?)
  }

  lemma NewClientInv(cfg: Settings, ccache: Option<CCache>, conf: Option<KrbConf>)
    ensures ClientInv(cfg, NewClient(cfg, ccache, conf))
  {
  }

  lemma ExtendRearmedWell(cfg: Settings, t: seq<Act>, a: Act)
    requires AllRearmedWell(cfg, t)
    requires RearmedWell(cfg, t + [a], |t|)
    ensures AllRearmedWell(cfg, t + [a])
  {
    forall i: nat | i < |t + [a]|
      ensures RearmedWell(cfg, t + [a], i)
    {
      if i < |t| {
        assert RearmedWell(cfg, t, i);
        assert (t + [a])[..i] == t[..i];
      }
    }
  }

  /** An act that is neither a re-arming nor an accepted login keeps the keep-alive in force. */
  lemma PlainAct(cfg: Settings, t: seq<Act>, a: Act)
    requires AllRearmedWell(cfg, t) && !a.Rearmed? && !Accepts(a)
    ensures AllRearmedWell(cfg, t + [a]) && KeepAliveIn(cfg, t + [a]) == KeepAliveIn(cfg, t)
  {
    assert (t + [a])[..|t|] == t;
    ExtendRearmedWell(cfg, t, a);
  }

  lemma ConcludeTrace(cfg: Settings, c: Client, op: Operation, o: Outcome)
    requires TraceMatches(cfg, c)
    ensures TraceMatches(cfg, Conclude(c, op, o))
  {
    assert (c.trace + [Ended(op, o)])[..|c.trace|] == c.trace;
    ExtendRearmedWell(cfg, c.trace, Ended(op, o));
  }

  lemma SentTrace(cfg: Settings, c: Client, delivered: bool)
    requires TraceMatches(cfg, c) && c.pc.Sending?
    ensures TraceMatches(cfg, Sent(c, delivered))
  {
    PlainAct(cfg, c.trace, Attempted(c.pc.state, delivered));
    SentEndsWell(c, delivered);
  }

  lemma SentEndsWell(c: Client, delivered: bool)
    requires c.pc.Sending? && EndsWell(c.pc, c.trace)
    ensures EndsWell(Sent(c, delivered).pc, Sent(c, delivered).trace)
  {
  }

  lemma RearmTrace(cfg: Settings, c: Client)
    requires TraceMatches(cfg, c) && c.pc.Resetting?
    ensures TraceMatches(cfg, Rearm(cfg, c))
  {
    var a := Rearm(cfg, c).trace[|c.trace|];
    assert (c.trace + [a])[..|c.trace|] == c.trace;
    ExtendRearmedWell(cfg, c.trace, a);
  }

  lemma RequestTrace(cfg: Settings, c: Client)
    requires TraceMatches(cfg, c) && c.pc.Requesting? && !c.pc.stage.InFlight?
    ensures TraceMatches(cfg, RequestStep(c))
  {
    var op := c.pc.op;
    if c.pc.stage.Enter? {
      PlainAct(cfg, c.trace, Began(op));
    } else if c.pc.stage.CheckCCache? {
      ConcludeTrace(cfg, c, op, NoCCache);
    } else if c.pc.stage.CheckConf? {
      ConcludeTrace(cfg, c, op, NoConf);
    }
  }

  lemma TraceStep(cfg: Settings, c: Client, m: Move)
    requires TraceMatches(cfg, c) && ClientStep(cfg, c, m).Some?
    ensures TraceMatches(cfg, ClientStep(cfg, c, m).value)
  {
    match m
    case Respond(o) => ConcludeTrace(cfg, c, c.pc.op, o);
    case TakeDone =>
      if c.pc.Sending? {
        SentTrace(cfg, c, false);
      }
    case Go =>
      if c.pc.Requesting? {
        RequestTrace(cfg, c);
      } else if c.pc.Resetting? {
        RearmTrace(cfg, c);
      }
    case _ =>
  }

  lemma ClientStepInv(cfg: Settings, c: Client, m: Move)
    requires ClientInv(cfg, c) && ClientStep(cfg, c, m).Some?
    ensures ClientInv(cfg, ClientStep(cfg, c, m).value)
  {
    TraceStep(cfg, c, m);
    ChannelsStep(cfg, c, m);
    TimerStep(cfg, c, m);
    DelayStep(cfg, c, m);
  }

  lemma DelayStep(cfg: Settings, c: Client, m: Move)
    requires DelayMatches(c) && ClientStep(cfg, c, m).Some?
    ensures DelayMatches(ClientStep(cfg, c, m).value)
  {
  }

  lemma ChannelsStep(cfg: Settings, c: Client, m: Move)
    requires ChannelsMatch(c) && ClientStep(cfg, c, m).Some?
    ensures c.pc.Draining? || ChannelsMatch(ClientStep(cfg, c, m).value)
  {
  }

  lemma TimerStep(cfg: Settings, c: Client, m: Move)
    requires TimerMatches(c) && ClientStep(cfg, c, m).Some?
    ensures TimerMatches(ClientStep(cfg, c, m).value)
  {
  }

  /** Delivering a result over the channel keeps the invariant as well. */
  lemma DeliverInv(cfg: Settings, c: Client)
    requires ClientInv(cfg, c) && c.pc.Sending?
    ensures ClientInv(cfg, Sent(c, true))
  {
    SentTrace(cfg, c, true);
  }

  /**
    Every re-arming of the timer ends a login: after a failed request or an unreadable body the result was
    LoggedOut and the retry delay follows; an unparseable body counts as LoggedIn but is retried as well;
    only a parsed body gives LoggedIn and the keep-alive delay in force.
   */
  lemma DelayFollowsLogin(cfg: Settings, c: Client, i: nat)
    requires ClientInv(cfg, c) && i < |c.trace| && c.trace[i].Rearmed?
    ensures i >= 2 && c.trace[i - 1].Attempted? && c.trace[i - 2].Ended? && c.trace[i - 2].op == Login
    ensures var result, delay := c.trace[i - 1].state, c.trace[i].delay;
            match c.trace[i - 2].outcome
            case Parsed(_) => result == LoggedIn && delay == KeepAliveIn(cfg, c.trace[..i])
            case Unparseable => result == LoggedIn && delay == cfg.RetryDelay()
            case _ => result == LoggedOut && delay == cfg.RetryDelay()
  {
    assert RearmedWell(cfg, c.trace, i);
  }

  /** The keep-alive in force is the last accepted one, or the configured one when none was accepted. */
  lemma {:induction false} KeepAliveSource(cfg: Settings, t: seq<Act>)
    ensures (forall i: nat | i < |t| :: !Accepts(t[i])) ==> KeepAliveIn(cfg, t) == cfg.KeepAliveDelay()
    ensures forall i: nat | i < |t| && Accepts(t[i]) && (forall j: nat | i < j < |t| :: !Accepts(t[j])) ::
              KeepAliveIn(cfg, t) == Minutes(t[i].outcome.keepAlive)
  {
    if t != [] {
      var s := t[..|t| - 1];
      KeepAliveSource(cfg, s);
      forall i: nat | i < |t| && Accepts(t[i]) && (forall j: nat | i < j < |t| :: !Accepts(t[j]))
        ensures KeepAliveIn(cfg, t) == Minutes(t[i].outcome.keepAlive)
      {
        if i < |s| {
          assert s[i] == t[i];
        }
      }
    }
  }

  // ---------------------------------------------------------------- delays in numbers

  /** After a login without a parsed body, the delay is the configured number of seconds. */
  lemma RetryInSeconds(cfg: Settings, c: Client, i: nat)
    requires ClientInv(cfg, c) && i < |c.trace| && c.trace[i].Rearmed?
    requires -9223372036 <= cfg.retryTimer <= 9223372036
    ensures i >= 2 && c.trace[i - 2].Ended?
    ensures !c.trace[i - 2].outcome.Parsed? ==> c.trace[i].delay == cfg.retryTimer * 1_000_000_000
  {
    DelayFollowsLogin(cfg, c, i);
    SecondsExact(cfg.retryTimer);
  }

  lemma NotAccepted(a: Act)
    requires forall n: int | n > 0 :: a != Ended(Login, Parsed(n))
    ensures !Accepts(a)
  {
    if a.Ended? && a.outcome.Parsed? {
      var n := a.outcome.keepAlive;
      assert n > 0 ==> a != Ended(Login, Parsed(n));
    }
  }

  /** After a parsed body with no positive keep-alive so far, the delay is the configured number of minutes. */
  lemma KeepAliveInMinutes(cfg: Settings, c: Client, i: nat)
    requires ClientInv(cfg, c) && i < |c.trace| && c.trace[i].Rearmed?
    requires -153722867 <= cfg.keepAlive <= 153722867
    requires forall k, n: int | 0 <= k < i && n > 0 :: c.trace[k] != Ended(Login, Parsed(n))
    ensures i >= 2 && c.trace[i - 2].Ended?
    ensures c.trace[i - 2].outcome.Parsed? ==> c.trace[i].delay == cfg.keepAlive * 60_000_000_000
  {
    DelayFollowsLogin(cfg, c, i);
    MinutesExact(cfg.keepAlive);
    KeepAliveSource(cfg, c.trace[..i]);
    forall k: nat | k < i
      ensures !Accepts(c.trace[..i][k])
    {
      NotAccepted(c.trace[k]);
    }
  }

  /** After a parsed body, the delay is the latest positive keep-alive of a login, in minutes. */
  lemma AcceptedInMinutes(cfg: Settings, c: Client, i: nat, j: nat, n: int)
    requires ClientInv(cfg, c) && j < i < |c.trace| && c.trace[i].Rearmed?
    requires c.trace[j] == Ended(Login, Parsed(n)) && 0 < n <= 153722867
    requires forall k, m: int | j < k < i && m > 0 :: c.trace[k] != Ended(Login, Parsed(m))
    ensures i >= 2 && c.trace[i - 2].Ended?
    ensures c.trace[i - 2].outcome.Parsed? ==> c.trace[i].delay == n * 60_000_000_000
  {
    DelayFollowsLogin(cfg, c, i);
    MinutesExact(n);
    var t := c.trace[..i];
    KeepAliveSource(cfg, t);
    assert Accepts(t[j]);
    forall k: nat | j < k < i
      ensures !Accepts(t[k])
    {
      NotAccepted(c.trace[k]);
    }
  }
}
