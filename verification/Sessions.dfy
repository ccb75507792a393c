/** The requests that reach the identity service, over whole runs with any number of restarts. */
module Sessions {
  import opened Options
  import opened Status
  import opened Settings
  import opened ClientMachine
  import opened Handlers
  import opened AgentMachine
  import opened System
  import opened SystemInvariant

  /** What an entry does to the request in progress. */
  function After(open: Option<Entry>, e: Entry): Option<Entry> {
    if e.act.Began? then Some(e) else if e.act.Ended? then None else open
  }

  /** The request in progress at the end of a trace. */
  function Open(t: seq<Entry>): Option<Entry> {
    if t == [] then None
    else
      var e := t[|t| - 1];
      After(Open(t[..|t| - 1]), e)
  }

  /** No request begins while another is in progress, and each end belongs to the one in progress. */
  ghost predicate Serial(t: seq<Entry>) {
    t == [] ||
    (var e, p := t[|t| - 1], t[..|t| - 1];
     && Serial(p)
     && (e.act.Began? ==> Open(p).None?)
     && (e.act.Ended? ==> Open(p) == Some(Entry(e.id, Began(e.act.op)))))
  }

  /** Sessions come one after the other, and a session ends with its only logout. */
  ghost predicate InSessions(t: seq<Entry>) {
    && (forall i, j | 0 <= i < j < |t| :: t[i].id <= t[j].id)
    && (forall i, j | 0 <= i < j < |t| && t[i].act == Began(Logout) && t[j].act.Began? :: t[i].id < t[j].id)
  }

  predicate LoggedOutIn(t: seq<Entry>, id: nat) {
    Entry(id, Began(Logout)) in t
  }

  /** The goroutine is between the beginning and the end of a request. */
  predicate InCall(pc: ClientPC) {
    pc.Requesting? && !pc.stage.Enter?
  }

  /** The goroutine has begun its logout request. */
  predicate PastLogout(pc: ClientPC) {
    match pc
    case Requesting(op, stage) => op == Logout && !stage.Enter?
    case Sending(_, next) => next.ToStopTimer?
    case StoppingTimer => true
    case Draining => true
    case ClosingResults => true
    case ClosingClosed => true
    case Dead => true
    case _ => false
  }

  function CallOf(cs: seq<Client>): Option<Entry> {
    if cs != [] && InCall(cs[|cs| - 1].pc) then Some(Entry(|cs| - 1, Began(cs[|cs| - 1].pc.op))) else None
  }

  /** The part of the record that concerns the trace alone. */
  ghost predicate Ordered(cs: seq<Client>, t: seq<Entry>) {
    && Serial(t)
    && InSessions(t)
    && (forall e | e in t :: e.id < |cs|)
    && Open(t) == CallOf(cs)
  }

  ghost predicate Recorded(cs: seq<Client>, t: seq<Entry>) {
    && Ordered(cs, t)
    && (forall i: nat | i < |cs| :: LoggedOutIn(t, i) <==> PastLogout(cs[i].pc))
  }

  // ---------------------------------------------------------------- steps of the agent

  /** The calls of the agent move no goroutine, and new ones start at their select. */
  ghost predicate Unmoved(before: seq<Client>, after: seq<Client>) {
    && |before| <= |after|
    && (forall i | 0 <= i < |before| :: after[i].pc == before[i].pc)
    && (forall i | |before| <= i < |after| :: after[i].pc.AtSelect?)
  }

  lemma {:induction false} AgentUnmoved(cfg: Settings, cs: seq<Client>, es: seq<Effect>)
    ensures Unmoved(cs, AllOnClients(cfg, cs, es))
    decreases |es|
  {
    if es != [] {
      AgentUnmoved(cfg, OnClients(cfg, cs, es[0]), es[1..]);
    }
  }

  lemma AgentRecorded(cfg: Settings, s: State, t: State)
    requires Inv(cfg, s) && Inv(cfg, t)
    requires Unmoved(s.clients, t.clients) && s.trace == t.trace
    requires Recorded(s.clients, s.trace)
    ensures Recorded(t.clients, t.trace)
  {
    forall i: nat | i < |t.clients|
      ensures LoggedOutIn(t.trace, i) <==> PastLogout(t.clients[i].pc)
    {
    }
    if |t.clients| > |s.clients| > 0 {
      assert s.clients[|s.clients| - 1].pc == t.clients[|s.clients| - 1].pc;
      assert Gone(t.clients[|s.clients| - 1]);
    }
  }

  // ---------------------------------------------------------------- steps of a client

  lemma Appended(t: seq<Entry>, e: Entry)
    requires Serial(t) && InSessions(t)
    requires forall x | x in t :: x.id <= e.id
    requires e.act.Began? ==> Open(t).None? && Entry(e.id, Began(Logout)) !in t
    requires e.act.Ended? ==> Open(t) == Some(Entry(e.id, Began(e.act.op)))
    ensures Serial(t + [e]) && InSessions(t + [e])
    ensures Open(t + [e]) == After(Open(t), e)
  {
    assert (t + [e])[..|t|] == t;
    forall i, j | 0 <= i < j < |t + [e]|
      ensures (t + [e])[i].id <= (t + [e])[j].id
      ensures (t + [e])[i].act == Began(Logout) && (t + [e])[j].act.Began? ==> (t + [e])[i].id < (t + [e])[j].id
    {
      assert t[i] in t;
    }
  }

  /** How a move of a client from c to d shows in its trace. */
  ghost predicate Shows(c: Client, d: Client) {
    if |d.trace| <= |c.trace| then
      InCall(d.pc) == InCall(c.pc) && PastLogout(d.pc) == PastLogout(c.pc) && (InCall(c.pc) ==> d.pc.op == c.pc.op)
    else
      match d.trace[|d.trace| - 1]
      case Began(op) => !InCall(c.pc) && !PastLogout(c.pc) && InCall(d.pc) && d.pc.op == op && (PastLogout(d.pc) <==> op == Logout)
      case Ended(op, _) => InCall(c.pc) && c.pc.op == op && !InCall(d.pc) && PastLogout(d.pc) == PastLogout(c.pc)
      case _ => !InCall(c.pc) && !InCall(d.pc) && PastLogout(d.pc) == PastLogout(c.pc)
  }

  lemma StepShows(cfg: Settings, c: Client, m: Move)
    requires ClientStep(cfg, c, m).Some?
    ensures Shows(c, ClientStep(cfg, c, m).value)
  {
    if m.Go? && c.pc.Requesting? {
      RequestShows(c);
    }
  }

  lemma RequestShows(c: Client)
    requires c.pc.Requesting? && !c.pc.stage.InFlight?
    ensures Shows(c, RequestStep(c))
  {
  }

  lemma PlacesRecorded(s: State, i: nat, d: Client)
    requires i + 1 == |s.clients| && Recorded(s.clients, s.trace)
    requires Shows(s.clients[i], d)
    ensures var t := SetClient(s, i, d);
            forall k: nat | k < |t.clients| :: LoggedOutIn(t.trace, k) <==> PastLogout(t.clients[k].pc)
  {
    var t := SetClient(s, i, d);
    forall k: nat | k < |t.clients|
      ensures LoggedOutIn(t.trace, k) <==> PastLogout(t.clients[k].pc)
    {
      assert LoggedOutIn(s.trace, k) <==> PastLogout(s.clients[k].pc);
    }
  }

  /** The request in progress follows the place of the latest client. */
  lemma CallFollows(cs: seq<Client>, i: nat, d: Client)
    requires i + 1 == |cs| && Shows(cs[i], d)
    ensures |d.trace| <= |cs[i].trace| ==> CallOf(cs[i := d]) == CallOf(cs)
    ensures |d.trace| > |cs[i].trace| ==>
              var e := Entry(i, d.trace[|d.trace| - 1]);
              && CallOf(cs[i := d]) == After(CallOf(cs), e)
              && (e.act.Began? ==> CallOf(cs).None?)
              && (e.act.Ended? ==> CallOf(cs) == Some(Entry(i, Began(e.act.op))))
  {
  }

  lemma NotedIs(t: seq<Entry>, i: nat, c: Client, d: Client)
    requires |d.trace| > |c.trace|
    ensures Note(t, i, c, d) == t + [Entry(i, d.trace[|d.trace| - 1])]
  {
  }

  lemma TraceRecorded(cs: seq<Client>, t: seq<Entry>, i: nat, d: Client)
    requires i + 1 == |cs| && Ordered(cs, t) && (LoggedOutIn(t, i) <==> PastLogout(cs[i].pc))
    requires Shows(cs[i], d)
    ensures Ordered(cs[i := d], Note(t, i, cs[i], d))
  {
    CallFollows(cs, i, d);
    if |d.trace| > |cs[i].trace| {
      var e := Entry(i, d.trace[|d.trace| - 1]);
      Appended(t, e);
      NotedIs(t, i, cs[i], d);
    }
  }

  /** What the trace and the places of the clients give when client i, the latest, moves to d. */
  lemma MoveRecorded(s: State, i: nat, d: Client)
    requires i + 1 == |s.clients| && Recorded(s.clients, s.trace)
    requires Shows(s.clients[i], d)
    ensures var t := SetClient(s, i, d); Recorded(t.clients, t.trace)
  {
    PlacesRecorded(s, i, d);
    TraceRecorded(s.clients, s.trace, i, d);
  }

  lemma RecordedStep(cfg: Settings, s: State, l: Label)
    requires Inv(cfg, s) && Recorded(s.clients, s.trace) && Do(cfg, s, l).Some?
    ensures var t := Do(cfg, s, l).value; Recorded(t.clients, t.trace)
  {
    var t := Do(cfg, s, l).value;
    InvStep(cfg, s, l);
    match l
    case Act(i, m) =>
      ActKeeps(cfg, s, i, m);
      StepShows(cfg, s.clients[i], m);
      MoveRecorded(s, i, t.clients[i]);
    case Deliver(now) => DeliverRecorded(cfg, s, now);
    case Take(e) =>
      AgentUnmoved(cfg, s.clients, Begin(cfg, s.a, e).es);
      AgentRecorded(cfg, s, t);
    case SeeClosed => NeverCanSeeClosed(cfg, s);
    case Published =>
      AgentUnmoved(cfg, s.clients, Prepend([Publish(s.pc.update)], Resume(cfg, s.a, s.pc.rest)).es);
      AgentRecorded(cfg, s, t);
    case StopReturns =>
      AgentUnmoved(cfg, s.clients, AfterJoin(cfg, s.a, s.pc.after).es);
      AgentRecorded(cfg, s, t);
    case LeaveLoop =>
  }

  lemma SentShows(c: Client)
    requires c.pc.Sending?
    ensures Shows(c, Sent(c, true))
  {
  }

  lemma DeliverRecorded(cfg: Settings, s: State, now: int)
    requires Inv(cfg, s) && Recorded(s.clients, s.trace) && CanDeliver(s)
    ensures var t := Do(cfg, s, Deliver(now)).value; Recorded(t.clients, t.trace)
  {
    var i := s.a.login.value;
    SentShows(s.clients[i]);
    MoveRecorded(s, i, Sent(s.clients[i], true));
    DeliverMoves(cfg, s, now);
  }

  /** For clients and trace, a delivery is just the client's move. */
  lemma DeliverMoves(cfg: Settings, s: State, now: int)
    requires Inv(cfg, s) && CanDeliver(s)
    ensures var i := s.a.login.value;
            var t, u := Do(cfg, s, Deliver(now)).value, SetClient(s, i, Sent(s.clients[i], true));
            t.clients == u.clients && t.trace == u.trace
  {
    var i := s.a.login.value;
    var c := s.clients[i];
    assert ClientInv(cfg, c);
    QuietResult(cfg, SetClient(s, i, Sent(c, true)).clients, s.a, c.pc.state, now);
  }

  /** Taking a result that changes the login state calls no client. */
  lemma QuietResult(cfg: Settings, cs: seq<Client>, a: Agent, l: LoginState, now: int)
    requires l != a.loginState
    ensures AllOnClients(cfg, cs, Begin(cfg, a, LoginResult(l, now)).es) == cs
  {
    ElsewhereKeeps(cfg, cs, Begin(cfg, a, LoginResult(l, now)).es);
  }

  lemma {:induction false} RecordedExec(cfg: Settings, ls: seq<Label>)
    requires Exec(cfg, Init(cfg), ls).Some?
    ensures var t := Exec(cfg, Init(cfg), ls).value; Recorded(t.clients, t.trace)
  {
    if ls == [] {
      ElsewhereKeeps(cfg, [], NetworkNotice(cfg, NotTrusted));
    } else {
      RecordedExec(cfg, ls[..|ls| - 1]);
      InvExec(cfg, ls[..|ls| - 1]);
      RecordedStep(cfg, Exec(cfg, Init(cfg), ls[..|ls| - 1]).value, ls[|ls| - 1]);
    }
  }

  /**
    In every run, requests to the service never overlap; they fall into sessions, one client each, in the
    order of the clients; a session has at most one logout request, as its last; and every client but the
    one the agent holds has sent it.
   */
  lemma SessionsNeverOverlap(cfg: Settings, s: State)
    requires Reachable(cfg, s)
    ensures Serial(s.trace) && InSessions(s.trace)
    ensures forall i: nat | i < |s.clients| && s.a.client != Some(i) :: LoggedOutIn(s.trace, i)
    ensures forall e | e in s.trace :: e.id < |s.clients|
  {
    var ls: seq<Label> :| Exec(cfg, Init(cfg), ls) == Some(s);
    RecordedExec(cfg, ls);
    InvExec(cfg, ls);
    forall i: nat | i < |s.clients| && s.a.client != Some(i)
      ensures LoggedOutIn(s.trace, i)
    {
      assert Gone(s.clients[i]);
    }
  }
}
