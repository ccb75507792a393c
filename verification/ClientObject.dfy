/**
  The login client as the source has it: an object with its goroutine's code in methods. Each method
  is shown to be a run of the transition system in ClientMachine.
 */
module ClientObject {
  import opened Options
  import opened Status
  import opened Kerberos
  import opened Durations
  import opened Settings
  import opened ClientMachine

  /** A move of the goroutine, or a result handed over to the agent. */
  datatype Hop = Local(move: Move) | Handed

  function HopStep(cfg: Settings, c: Client, h: Hop): Option<Client> {
    match h
    case Local(m) => ClientStep(cfg, c, m)
    case Handed => if c.pc.Sending? then Some(Sent(c, true)) else None
  }

  function Hops(cfg: Settings, c: Client, hs: seq<Hop>): Option<Client> {
    if hs == [] then Some(c)
    else
      var d := Hops(cfg, c, hs[..|hs| - 1]);
      if d.None? then None else HopStep(cfg, d.value, hs[|hs| - 1])
  }

  /** d can be reached from c by moves of the goroutine and its timer and by handing over results. */
  ghost predicate Leads(cfg: Settings, c: Client, d: Client) {
    exists hs: seq<Hop> :: Hops(cfg, c, hs) == Some(d)
  }

  lemma LeadsStep(cfg: Settings, c: Client, d: Client, h: Hop)
    requires Leads(cfg, c, d) && HopStep(cfg, d, h).Some?
    ensures Leads(cfg, c, HopStep(cfg, d, h).value)
  {
    var hs: seq<Hop> :| Hops(cfg, c, hs) == Some(d);
    HopsOne(cfg, c, hs, h);
  }

  lemma HopsOne(cfg: Settings, c: Client, hs: seq<Hop>, h: Hop)
    requires Hops(cfg, c, hs).Some?
    ensures Hops(cfg, c, hs + [h]) == HopStep(cfg, Hops(cfg, c, hs).value, h)
  {
    assert (hs + [h])[..|hs|] == hs;
  }

  lemma LeadsSelf(cfg: Settings, c: Client)
    ensures Leads(cfg, c, c)
  {
    var none: seq<Hop> := [];
    assert Hops(cfg, c, none) == Some(c);
  }

  lemma {:induction false} LeadsHops(cfg: Settings, c: Client, d: Client, hs: seq<Hop>)
    requires Leads(cfg, c, d) && Hops(cfg, d, hs).Some?
    ensures Leads(cfg, c, Hops(cfg, d, hs).value)
  {
    if hs != [] {
      LeadsHops(cfg, c, d, hs[..|hs| - 1]);
      LeadsStep(cfg, c, Hops(cfg, d, hs[..|hs| - 1]).value, hs[|hs| - 1]);
    }
  }

  lemma LeadsLeads(cfg: Settings, c: Client, d: Client, e: Client)
    requires Leads(cfg, c, d) && Leads(cfg, d, e)
    ensures Leads(cfg, c, e)
  {
    var hs: seq<Hop> :| Hops(cfg, d, hs) == Some(e);
    LeadsHops(cfg, c, d, hs);
  }

  /** What the environment decides in one turn of the client's loop. */
  datatype Turn =
    | TimerTurn(reply: Outcome, handed1: bool, handed2: bool)
    | DoneTurn(reply: Outcome, handed1: bool, handed2: bool)

  /** A reply of the service, not one of the client's own guards. */
  predicate FromService(o: Outcome) { !o.NoCCache? && !o.NoConf? }

  /** How a request ends, given the credentials and the reply. */
  function OutcomeOf(ccache: Option<CCache>, conf: Option<KrbConf>, reply: Outcome): Outcome {
    if ccache.None? then NoCCache else if conf.None? then NoConf else reply
  }

  /** The client after the request it is about to enter. */
  function Requested(c: Client, op: Operation, o: Outcome): Client {
    Conclude(c.(trace := c.trace + [Began(op)]), op, o)
  }

  lemma RequestLeads(cfg: Settings, c: Client, op: Operation, reply: Outcome)
    requires c.pc == Requesting(op, Enter) && FromService(reply)
    ensures Leads(cfg, c, Requested(c, op, OutcomeOf(c.ccache, c.conf, reply)))
  {
    var d := c.(pc := Requesting(op, CheckCCache), trace := c.trace + [Began(op)]);
    LeadsSelf(cfg, c);
    LeadsStep(cfg, c, c, Local(Go));
    LeadsStep(cfg, c, d, Local(Go));
    if c.ccache.Some? {
      LeadsStep(cfg, c, d.(pc := Requesting(op, CheckConf)), Local(Go));
      if c.conf.Some? {
        LeadsStep(cfg, c, d.(pc := Requesting(op, ReadCCache)), Local(Go));
        LeadsStep(cfg, c, d.(pc := Requesting(op, ReadConf(c.ccache))), Local(Go));
        LeadsStep(cfg, c, d.(pc := Requesting(op, InFlight(c.ccache, c.conf))), Local(Respond(reply)));
      }
    }
  }

  lemma SendLeads(cfg: Settings, c: Client, handed: bool)
    requires c.pc.Sending? && (handed || c.doneCloses > 0)
    ensures Leads(cfg, c, Sent(c, handed))
  {
    LeadsSelf(cfg, c);
    LeadsStep(cfg, c, c, if handed then Handed else Local(TakeDone));
  }

  /** The client after login or logout, from sending its first result to having sent its second. */
  function Exchanged(c: Client, op: Operation, reply: Outcome, handed1: bool, handed2: bool): Client
    requires c.pc == if op == Login then Sending(LoggingIn, ToLogin) else Sending(LoggingOut, ToLogout)
  {
    Sent(Requested(Sent(c, handed1), op, OutcomeOf(c.ccache, c.conf, reply)), handed2)
  }

  /** What a login or logout leaves behind. */
  lemma ExchangedIs(c: Client, op: Operation, reply: Outcome, handed1: bool, handed2: bool)
    requires c.pc == if op == Login then Sending(LoggingIn, ToLogin) else Sending(LoggingOut, ToLogout)
    ensures var o := OutcomeOf(c.ccache, c.conf, reply);
            Exchanged(c, op, reply, handed1, handed2) ==
            c.(pc := if op == Login then Resetting(!o.Parsed?) else StoppingTimer,
               keepAlive := KeepAliveAfter(c, op, o),
               trace := c.trace + [Attempted(c.pc.state, handed1)] + [Began(op)] + [Ended(op, o)]
                        + [Attempted(if op == Login then ResultOf(o) else LoggedOut, handed2)])
  {
  }

  lemma ExchangeLeads(cfg: Settings, c: Client, op: Operation, reply: Outcome, handed1: bool, handed2: bool)
    requires c.pc == if op == Login then Sending(LoggingIn, ToLogin) else Sending(LoggingOut, ToLogout)
    requires FromService(reply) && (c.doneCloses > 0 || (handed1 && handed2))
    ensures Leads(cfg, c, Exchanged(c, op, reply, handed1, handed2))
  {
    var d := Sent(c, handed1);
    SendLeads(cfg, c, handed1);
    RequestLeads(cfg, d, op, reply);
    var e := Requested(d, op, OutcomeOf(c.ccache, c.conf, reply));
    LeadsLeads(cfg, c, d, e);
    SendLeads(cfg, e, handed2);
    LeadsLeads(cfg, c, e, Sent(e, handed2));
  }

  /** The client after one turn of the loop, back at its select or gone. */
  function AfterTurn(cfg: Settings, c: Client, t: Turn): Client
    requires c.pc.AtSelect?
  {
    match t
    case TimerTurn(reply, handed1, handed2) =>
      Rearm(cfg, Exchanged(c.(timer := Received, pc := Sending(LoggingIn, ToLogin)), Login, reply, handed1, handed2))
    case DoneTurn(reply, handed1, handed2) =>
      Exchanged(c.(pc := Sending(LoggingOut, ToLogout)), Logout, reply, handed1, handed2)
      .(timer := Stopped, pc := Dead, resultsClosed := true, closed := true)
  }

  /** What a turn of the timer arm leaves behind. */
  lemma TimerTurnIs(cfg: Settings, c: Client, reply: Outcome, handed1: bool, handed2: bool)
    requires c.pc.AtSelect?
    ensures var o := OutcomeOf(c.ccache, c.conf, reply);
            var k := KeepAliveAfter(c, Login, o);
            var d := if o.Parsed? then k else cfg.RetryDelay();
            AfterTurn(cfg, c, TimerTurn(reply, handed1, handed2)) ==
            c.(timer := Armed(d), keepAlive := k,
               trace := c.trace + [Attempted(LoggingIn, handed1)] + [Began(Login)] + [Ended(Login, o)]
                        + [Attempted(ResultOf(o), handed2)] + [Rearmed(d)])
  {
    ExchangedIs(c.(timer := Received, pc := Sending(LoggingIn, ToLogin)), Login, reply, handed1, handed2);
  }

  /** The client after turns of the loop; those after the first done arm do not happen. */
  function AfterTurns(cfg: Settings, c: Client, turns: seq<Turn>): Client
    requires c.pc.AtSelect?
  {
    if turns == [] then c
    else
      var d := AfterTurns(cfg, c, turns[..|turns| - 1]);
      if d.pc.AtSelect? then AfterTurn(cfg, d, turns[|turns| - 1]) else d
  }

  /** The environment can make this turn: only with done closed is a result skipped or the done arm taken. */
  predicate CanTurn(c: Client, t: Turn) {
    FromService(t.reply) && (c.doneCloses > 0 || (t.TimerTurn? && t.handed1 && t.handed2))
  }

  /** Turns that end the goroutine. */
  predicate EndingTurns(turns: seq<Turn>) {
    (forall t | t in turns :: FromService(t.reply)) && exists t :: t in turns && t.DoneTurn?
  }

  lemma TimerTurnLeads(cfg: Settings, c: Client, t: Turn)
    requires c.pc.AtSelect? && (c.timer.Armed? || c.timer.Fired?) && t.TimerTurn? && CanTurn(c, t)
    ensures Leads(cfg, c, AfterTurn(cfg, c, t))
  {
    LeadsSelf(cfg, c);
    if c.timer.Armed? {
      LeadsStep(cfg, c, c, Local(Expire));
    }
    LeadsStep(cfg, c, c.(timer := Fired), Local(TakeTimer));
    var d := c.(timer := Received, pc := Sending(LoggingIn, ToLogin));
    ExchangeLeads(cfg, d, Login, t.reply, t.handed1, t.handed2);
    var e := Exchanged(d, Login, t.reply, t.handed1, t.handed2);
    LeadsLeads(cfg, c, d, e);
    LeadsStep(cfg, c, e, Local(Go));
  }

  lemma DoneTurnLeads(cfg: Settings, c: Client, t: Turn)
    requires c.pc.AtSelect? && (c.timer.Armed? || c.timer.Fired?) && t.DoneTurn? && CanTurn(c, t)
    ensures Leads(cfg, c, AfterTurn(cfg, c, t))
  {
    var d := c.(pc := Sending(LoggingOut, ToLogout));
    LeadsSelf(cfg, c);
    LeadsStep(cfg, c, c, Local(TakeDone));
    ExchangeLeads(cfg, d, Logout, t.reply, t.handed1, t.handed2);
    var e := Exchanged(d, Logout, t.reply, t.handed1, t.handed2);
    LeadsLeads(cfg, c, d, e);
    LeadsStep(cfg, c, e, Local(Go));
    LeadsStep(cfg, c, e.(timer := Stopped, pc := ClosingResults), Local(Go));
    LeadsStep(cfg, c, e.(timer := Stopped, pc := ClosingClosed, resultsClosed := true), Local(Go));
  }

  /** The goroutine has ended, with its timer stopped and both of its channels closed. */
  predicate Finished(c: Client) { c.pc.Dead? && c.timer.Stopped? && c.resultsClosed && c.closed }

  lemma TurnKeeps(cfg: Settings, c: Client, t: Turn)
    requires c.pc.AtSelect?
    ensures var d := AfterTurn(cfg, c, t);
            d.doneCloses == c.doneCloses && (if t.TimerTurn? then d.pc.AtSelect? && d.timer.Armed? else Finished(d))
  {
  }

  /** Turns keep the timer armed or fired at the select, until the first done arm ends the goroutine. */
  lemma {:induction false} TurnsKeep(cfg: Settings, c: Client, turns: seq<Turn>)
    requires c.pc.AtSelect? && (c.timer.Armed? || c.timer.Fired?)
    ensures var d := AfterTurns(cfg, c, turns);
            d.doneCloses == c.doneCloses && (if d.pc.AtSelect? then d.timer.Armed? || d.timer.Fired? else Finished(d))
    ensures AfterTurns(cfg, c, turns).pc.Dead? <==> exists t :: t in turns && t.DoneTurn?
  {
    if turns != [] {
      var p, t := turns[..|turns| - 1], turns[|turns| - 1];
      assert turns == p + [t];
      TurnsKeep(cfg, c, p);
      var d := AfterTurns(cfg, c, p);
      if d.pc.AtSelect? {
        TurnKeeps(cfg, d, t);
      }
    }
  }

  /** Turns are runs of the transition system. */
  lemma {:induction false} TurnsLead(cfg: Settings, c: Client, turns: seq<Turn>)
    requires c.pc.AtSelect? && (c.timer.Armed? || c.timer.Fired?)
    requires forall t | t in turns :: CanTurn(c, t)
    ensures Leads(cfg, c, AfterTurns(cfg, c, turns))
  {
    if turns == [] {
      LeadsSelf(cfg, c);
    } else {
      var p, t := turns[..|turns| - 1], turns[|turns| - 1];
      assert t in turns && CanTurn(c, t);
      TurnsLead(cfg, c, p);
      TurnsKeep(cfg, c, p);
      var d := AfterTurns(cfg, c, p);
      if d.pc.AtSelect? {
        TurnLeads(cfg, d, t);
        LeadsLeads(cfg, c, d, AfterTurn(cfg, d, t));
      }
    }
  }

  lemma TurnLeads(cfg: Settings, c: Client, t: Turn)
    requires c.pc.AtSelect? && (c.timer.Armed? || c.timer.Fired?) && CanTurn(c, t)
    ensures Leads(cfg, c, AfterTurn(cfg, c, t))
  {
    if t.TimerTurn? {
      TimerTurnLeads(cfg, c, t);
    } else {
      DoneTurnLeads(cfg, c, t);
    }
  }

  lemma TurnsNext(cfg: Settings, c: Client, turns: seq<Turn>, n: nat)
    requires c.pc.AtSelect? && n < |turns| && AfterTurns(cfg, c, turns[..n]).pc.AtSelect?
    ensures AfterTurns(cfg, c, turns[..n + 1]) == AfterTurn(cfg, AfterTurns(cfg, c, turns[..n]), turns[n])
  {
    assert turns[..n + 1][..n] == turns[..n];
  }

  lemma {:induction false} DeadStays(cfg: Settings, c: Client, turns: seq<Turn>, n: nat)
    requires c.pc.AtSelect? && n <= |turns| && !AfterTurns(cfg, c, turns[..n]).pc.AtSelect?
    ensures AfterTurns(cfg, c, turns) == AfterTurns(cfg, c, turns[..n])
  {
    if n == |turns| {
      assert turns[..n] == turns;
    } else {
      var p := turns[..|turns| - 1];
      assert p[..n] == turns[..n];
      DeadStays(cfg, c, p, n);
    }
  }

  class LoginClient {
    const cfg: Settings
    const id: nat
    var keepAlive: int
    var timer: Timer
    var ccache: Option<CCache>
    var krb5conf: Option<KrbConf>
    var doneClosed: bool
    var resultsClosed: bool
    var closed: bool
    var trace: seq<Act>

    /** The goroutine's state in the transition system when it is at pc. */
    function At(pc: ClientPC): Client
      reads this
    {
      Client(pc, timer, keepAlive, ccache, krb5conf, if doneClosed then 1 else 0, resultsClosed, closed, trace)
    }

    constructor (cfg: Settings, id: nat, ccache: Option<CCache>, krb5conf: Option<KrbConf>)
      ensures this.cfg == cfg && this.id == id
      ensures At(AtSelect) == NewClient(cfg, ccache, krb5conf)
      ensures !doneClosed && !closed
    {
      this.cfg, this.id := cfg, id;
      this.keepAlive := cfg.KeepAliveDelay();
      this.timer := Armed(0);
      this.ccache, this.krb5conf := ccache, krb5conf;
      this.doneClosed, this.resultsClosed, this.closed := false, false, false;
      this.trace := [];
    }

    method SetCCache(cc: Option<CCache>)
      modifies this`ccache
      ensures ccache == cc
    {
      ccache := cc;
    }

    method SetKrb5Conf(conf: Option<KrbConf>)
      modifies this`krb5conf
      ensures krb5conf == conf
    {
      krb5conf := conf;
    }

    /** The select in sendResult can only skip the delivery when done is closed. */
    method SendResult(state: LoginState, handed: bool)
      requires handed || doneClosed
      modifies this`trace
      ensures trace == old(trace) + [Attempted(state, handed)]
    {
      trace := trace + [Attempted(state, handed)];
    }

    /** The request ends by one of the guards or with the reply of the service. */
    method DoServiceRequest(op: Operation, reply: Outcome) returns (o: Outcome)
      requires FromService(reply)
      modifies this`trace
      ensures o == OutcomeOf(ccache, krb5conf, reply)
      ensures trace == old(trace) + [Began(op)] + [Ended(op, o)]
    {
      trace := trace + [Began(op)];
      if ccache.None? {
        o := NoCCache;
      } else if krb5conf.None? {
        o := NoConf;
      } else {
        o := reply;
      }
      trace := trace + [Ended(op, o)];
    }

    /** login: true when it reports an error, and then the retry delay is used next. */
    method Login(reply: Outcome, handed1: bool, handed2: bool) returns (failed: bool)
      requires FromService(reply) && (doneClosed || (handed1 && handed2))
      modifies this`trace, this`keepAlive
      ensures At(Resetting(failed)) == Exchanged(old(At(Sending(LoggingIn, ToLogin))), Operation.Login, reply, handed1, handed2)
      ensures var o := OutcomeOf(ccache, krb5conf, reply);
              && failed == !o.Parsed?
              && keepAlive == (if o.Parsed? && o.keepAlive > 0 then Minutes(o.keepAlive) else old(keepAlive))
              && trace == old(trace) + [Attempted(LoggingIn, handed1)] + [Began(Operation.Login)] + [Ended(Operation.Login, o)]
                          + [Attempted(ResultOf(o), handed2)]
    {
      ExchangedIs(At(Sending(LoggingIn, ToLogin)), Operation.Login, reply, handed1, handed2);
      SendResult(LoggingIn, handed1);
      var o := DoServiceRequest(Operation.Login, reply);
      match o {
        case Parsed(k) =>
          if k > 0 {
            keepAlive := Minutes(k);
          }
          SendResult(LoggedIn, handed2);
          failed := false;
        case Unparseable =>
          SendResult(LoggedIn, handed2);
          failed := true;
        case _ =>
          SendResult(LoggedOut, handed2);
          failed := true;
      }
    }

    /** logout: the error of the request is only logged. */
    method Logout(reply: Outcome, handed1: bool, handed2: bool)
      requires FromService(reply) && (doneClosed || (handed1 && handed2))
      modifies this`trace
      ensures At(StoppingTimer) == Exchanged(old(At(Sending(LoggingOut, ToLogout))), Operation.Logout, reply, handed1, handed2)
      ensures var o := OutcomeOf(ccache, krb5conf, reply);
              trace == old(trace) + [Attempted(LoggingOut, handed1)] + [Began(Operation.Logout)] + [Ended(Operation.Logout, o)]
                       + [Attempted(LoggedOut, handed2)]
    {
      ExchangedIs(At(Sending(LoggingOut, ToLogout)), Operation.Logout, reply, handed1, handed2);
      SendResult(LoggingOut, handed1);
      var o := DoServiceRequest(Operation.Logout, reply);
      SendResult(LoggedOut, handed2);
    }

    /** The timer arm of the loop: from the select, with the timer running or fired, back to it. */
    method TakeTimerArm(reply: Outcome, handed1: bool, handed2: bool)
      requires FromService(reply) && (doneClosed || (handed1 && handed2))
      requires timer.Armed? || timer.Fired?
      modifies this`trace, this`keepAlive, this`timer
      ensures At(AtSelect) == AfterTurn(cfg, old(At(AtSelect)), TimerTurn(reply, handed1, handed2))
      ensures var o := OutcomeOf(ccache, krb5conf, reply);
              && timer == Armed(if o.Parsed? then keepAlive else cfg.RetryDelay())
              && keepAlive == (if o.Parsed? && o.keepAlive > 0 then Minutes(o.keepAlive) else old(keepAlive))
              && trace == old(trace) + [Attempted(LoggingIn, handed1)] + [Began(Operation.Login)] + [Ended(Operation.Login, o)]
                          + [Attempted(ResultOf(o), handed2)] + [Rearmed(timer.delay)]
    {
      TimerTurnIs(cfg, At(AtSelect), reply, handed1, handed2);
      timer := Received;
      var failed := Login(reply, handed1, handed2);
      timer := Armed(if failed then cfg.RetryDelay() else keepAlive);
      trace := trace + [Rearmed(timer.delay)];
    }

    /** The done arm of the loop and the deferred closes; the timer is stopped without a drain. */
    method TakeDoneArm(reply: Outcome, handed1: bool, handed2: bool)
      requires FromService(reply) && doneClosed && !closed
      requires timer.Armed? || timer.Fired?
      modifies this`trace, this`timer, this`resultsClosed, this`closed
      ensures At(Dead) == AfterTurn(cfg, old(At(AtSelect)), DoneTurn(reply, handed1, handed2))
      ensures closed && resultsClosed && timer == Timer.Stopped
      ensures var o := OutcomeOf(ccache, krb5conf, reply);
              trace == old(trace) + [Attempted(LoggingOut, handed1)] + [Began(Operation.Logout)] + [Ended(Operation.Logout, o)]
                       + [Attempted(LoggedOut, handed2)]
    {
      Logout(reply, handed1, handed2);
      timer := Timer.Stopped;
      resultsClosed := true;
      closed := true;
    }

    /** The goroutine's loop for the given turns; it ends at the first turn that takes the done arm. */
    method Run(turns: seq<Turn>)
      requires !closed && (timer.Armed? || timer.Fired?)
      requires forall t | t in turns :: CanTurn(At(AtSelect), t)
      modifies this`trace, this`keepAlive, this`timer, this`resultsClosed, this`closed
      ensures closed <==> exists t :: t in turns && t.DoneTurn?
      ensures closed ==> resultsClosed && timer == Timer.Stopped
      ensures At(if closed then Dead else AtSelect) == AfterTurns(cfg, old(At(AtSelect)), turns)
      ensures Leads(cfg, old(At(AtSelect)), At(if closed then Dead else AtSelect))
    {
      ghost var c := At(AtSelect);
      var i := 0;
      while i < |turns| && !closed
        invariant i <= |turns|
        invariant closed || timer.Armed? || timer.Fired?
        invariant At(if closed then Dead else AtSelect) == AfterTurns(cfg, c, turns[..i])
        decreases |turns| - i
      {
        var t := turns[i];
        assert t in turns && CanTurn(c, t);
        TurnsNext(cfg, c, turns, i);
        match t {
          case TimerTurn(reply, handed1, handed2) => TakeTimerArm(reply, handed1, handed2);
          case DoneTurn(reply, handed1, handed2) => TakeDoneArm(reply, handed1, handed2);
        }
        i := i + 1;
      }
      if closed {
        DeadStays(cfg, c, turns, i);
      } else {
        assert turns[..i] == turns;
      }
      TurnsKeep(cfg, c, turns);
      TurnsLead(cfg, c, turns);
    }

    /**
      Stop closes done and waits for the goroutine; until that takes the done arm at a select of its choice,
      its turns are any that the environment makes.
     */
    method Stop(turns: seq<Turn>)
      requires !doneClosed && !closed && (timer.Armed? || timer.Fired?) && EndingTurns(turns)
      modifies this`doneClosed, this`trace, this`keepAlive, this`timer, this`resultsClosed, this`closed
      ensures doneClosed && closed && resultsClosed && timer == Timer.Stopped
      ensures At(Dead) == AfterTurns(cfg, old(At(AtSelect)).(doneCloses := 1), turns)
    {
      doneClosed := true;
      Run(turns);
    }
  }
}
