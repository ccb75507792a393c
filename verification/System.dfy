/**
  The agent's loop and the goroutines of all clients it has started, as one transition system.
  A step is either local to one of them or a rendezvous on the results channel.
 */
module System {
  import opened Options
  import opened Settings
  import opened ClientMachine
  import opened Handlers
  import opened AgentMachine

  /** An act of client id, in the order of all acts of all clients. */
  datatype Entry = Entry(id: nat, act: Act)

  /** effects, events and trace are histories: calls of the agent, events it took, acts of the clients. */
  datatype State = State(
    a: Agent,
    pc: PC,
    clients: seq<Client>,
    effects: seq<Effect>,
    events: seq<Event>,
    trace: seq<Entry>)

  datatype Label =
    | Take(event: Event)
    | Deliver(now: int)
    | SeeClosed
    | Published
    | StopReturns
    | LeaveLoop
    | Act(id: nat, move: Move)

  /** The effect of a call of the agent on the clients. */
  function OnClients(cfg: Settings, cs: seq<Client>, e: Effect): seq<Client> {
    match e
    case Spawn(_, cc, conf) => cs + [NewClient(cfg, cc, conf)]
    case CloseDone(i) => if i < |cs| then cs[i := cs[i].(doneCloses := cs[i].doneCloses + 1)] else cs
    case GiveCCache(i, cc) => if i < |cs| then cs[i := cs[i].(ccache := cc)] else cs
    case GiveConf(i, conf) => if i < |cs| then cs[i := cs[i].(conf := conf)] else cs
    case _ => cs
  }

  function AllOnClients(cfg: Settings, cs: seq<Client>, es: seq<Effect>): seq<Client>
    decreases |es|
  {
    if es == [] then cs else AllOnClients(cfg, OnClients(cfg, cs, es[0]), es[1..])
  }

  /** The agent has computed l. */
  function Apply(cfg: Settings, s: State, l: Local): State {
    s.(a := l.a, pc := l.pc, effects := s.effects + l.es, clients := AllOnClients(cfg, s.clients, l.es))
  }

  function Note(trace: seq<Entry>, id: nat, before: Client, after: Client): seq<Entry> {
    if |after.trace| > |before.trace| then trace + [Entry(id, after.trace[|after.trace| - 1])] else trace
  }

  /** Client i has become c. */
  function SetClient(s: State, i: nat, c: Client): State
    requires i < |s.clients|
  {
    s.(clients := s.clients[i := c], trace := Note(s.trace, i, s.clients[i], c))
  }

  /** The login arm of the select can receive a value: its client is in sendResult. */
  predicate CanDeliver(s: State) {
    && s.pc.AtLoop?
    && s.a.login.Some? && s.a.login.value < |s.clients|
    && s.clients[s.a.login.value].pc.Sending?
  }

  predicate CanSeeClosed(s: State) {
    && s.pc.AtLoop?
    && s.a.login.Some? && s.a.login.value < |s.clients|
    && s.clients[s.a.login.value].resultsClosed
  }

  /** An arm of the select other than login; these depend on nothing in this system. */
  predicate CanTake(s: State, e: Event) {
    && s.pc.AtLoop? && ValidEvent(e)
    && !e.LoginResult? && e != SourceClosed(LoginSource)
  }

  function TakeEvent(cfg: Settings, s: State, e: Event): State
    requires ValidEvent(e)
  {
    Apply(cfg, s.(events := s.events + [e]), Begin(cfg, s.a, e))
  }

  /** One step; None when the label is not enabled. */
  function Do(cfg: Settings, s: State, l: Label): Option<State> {
    match l
    case Take(e) =>
      if CanTake(s, e) then Some(TakeEvent(cfg, s, e)) else None
    case Deliver(now) =>
      if CanDeliver(s) then
        var i := s.a.login.value;
        var c := s.clients[i];
        Some(TakeEvent(cfg, SetClient(s, i, Sent(c, true)), LoginResult(c.pc.state, now)))
      else None
    case SeeClosed =>
      if CanSeeClosed(s) then Some(TakeEvent(cfg, s, SourceClosed(LoginSource))) else None
    case Published =>
      if s.pc.InSetProperty? then
        Some(Apply(cfg, s, Prepend([Publish(s.pc.update)], Resume(cfg, s.a, s.pc.rest))))
      else None
    case StopReturns =>
      if s.pc.InStop? && s.a.client.Some? && s.a.client.value < |s.clients| && s.clients[s.a.client.value].closed then
        Some(Apply(cfg, s, AfterJoin(cfg, s.a, s.pc.after)))
      else None
    case LeaveLoop =>
      if s.pc.Exiting? then Some(s.(pc := InServiceStop))
      else if s.pc.InServiceStop? then Some(s.(pc := Exited))
      else None
    case Act(i, m) =>
      if i < |s.clients| then
        var c := ClientStep(cfg, s.clients[i], m);
        if c.Some? then Some(SetClient(s, i, c.value)) else None
      else None
  }

  /** Agent.Start has run up to its first SetProperty. */
  function Init(cfg: Settings): State {
    Apply(cfg, State(NEW_AGENT, AtLoop, [], [], [], []), BeginBoot(cfg))
  }

  /** A whole run; None when some label is not enabled when its turn comes. */
  function Exec(cfg: Settings, s: State, ls: seq<Label>): Option<State> {
    if ls == [] then Some(s)
    else
      var t := Exec(cfg, s, ls[..|ls| - 1]);
      if t.None? then None else Do(cfg, t.value, ls[|ls| - 1])
  }

  /** s can be reached from the start by some run. */
  ghost predicate Reachable(cfg: Settings, s: State) {
    exists ls: seq<Label> :: Exec(cfg, Init(cfg), ls) == Some(s)
  }

  // ---------------------------------------------------------------- the small-step agent refines the handlers

  /** What the agent has done and still will do is what the handlers do on the events so far. */
  ghost predicate Refines(cfg: Settings, s: State) {
    && AllValid(s.events)
    && var o := Finish(cfg, s.a, s.pc);
       HandleAll(cfg, s.events) == Out(o.a, s.effects + o.es)
  }

  lemma RefinesInit(cfg: Settings)
    ensures Refines(cfg, Init(cfg))
  {
    BeginBootTotal(cfg);
  }

  lemma RefinesTake(cfg: Settings, s: State, e: Event)
    requires Refines(cfg, s) && s.pc.AtLoop? && ValidEvent(e)
    ensures Refines(cfg, TakeEvent(cfg, s, e))
  {
    HandleAllStep(cfg, s.events, e);
    BeginTotal(cfg, s.a, e);
    var l := Begin(cfg, s.a, e);
    assert s.effects + [] == s.effects;
    Assoc(s.effects, l.es, Finish(cfg, l.a, l.pc).es);
  }

  lemma RefinesApply(cfg: Settings, s: State, l: Local)
    requires Refines(cfg, s) && Total(cfg, l) == Finish(cfg, s.a, s.pc)
    ensures Refines(cfg, Apply(cfg, s, l))
  {
    Assoc(s.effects, l.es, Finish(cfg, l.a, l.pc).es);
  }

  lemma RefinesStep(cfg: Settings, s: State, l: Label)
    requires Refines(cfg, s) && Do(cfg, s, l).Some?
    ensures Refines(cfg, Do(cfg, s, l).value)
  {
    match l
    case Take(e) => RefinesTake(cfg, s, e);
    case Deliver(now) =>
      var i := s.a.login.value;
      RefinesTake(cfg, SetClient(s, i, Sent(s.clients[i], true)), LoginResult(s.clients[i].pc.state, now));
    case SeeClosed => RefinesTake(cfg, s, SourceClosed(LoginSource));
    case Published =>
      ResumeTotal(cfg, s.a, s.pc.rest);
      var r := Resume(cfg, s.a, s.pc.rest);
      Assoc([Publish(s.pc.update)], r.es, Finish(cfg, r.a, r.pc).es);
      RefinesApply(cfg, s, Prepend([Publish(s.pc.update)], r));
    case StopReturns =>
      AfterJoinTotal(cfg, s.a, s.pc.after);
      RefinesApply(cfg, s, AfterJoin(cfg, s.a, s.pc.after));
    case _ =>
  }

  lemma {:induction false} RefinesExec(cfg: Settings, ls: seq<Label>)
    requires Exec(cfg, Init(cfg), ls).Some?
    ensures Refines(cfg, Exec(cfg, Init(cfg), ls).value)
  {
    if ls == [] {
      RefinesInit(cfg);
    } else {
      RefinesExec(cfg, ls[..|ls| - 1]);
      RefinesStep(cfg, Exec(cfg, Init(cfg), ls[..|ls| - 1]).value, ls[|ls| - 1]);
    }
  }

  lemma RunRefines(cfg: Settings, s: State)
    requires Reachable(cfg, s)
    ensures Refines(cfg, s)
  {
    var ls: seq<Label> :| Exec(cfg, Init(cfg), ls) == Some(s);
    RefinesExec(cfg, ls);
  }

  /**
    In every run, whatever the interleaving with the clients and the service, the agent at its loop is
    where the handlers run one after the other on the events taken so far would have brought it, having
    made the same calls in the same order.
   */
  lemma LoopIsSequential(cfg: Settings, s: State)
    requires Reachable(cfg, s)
    ensures AllValid(s.events)
    ensures s.pc.AtLoop? ==> HandleAll(cfg, s.events) == Out(s.a, s.effects)
    ensures s.effects <= HandleAll(cfg, s.events).es
  {
    RunRefines(cfg, s);
    assert s.effects + [] == s.effects;
  }
}
