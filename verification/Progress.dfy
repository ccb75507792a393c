/** The process always comes back to its loop, and after a shutdown it ends, in a bounded number of steps. */
module Progress {
  import opened Options
  import opened Status
  import opened Settings
  import opened Handlers
  import opened AgentMachine
  import opened System
  import opened SystemInvariant
  import opened StopTermination
  import opened WholeRuns
  import opened PropertyStore
  import opened World
  import opened ProcessTheorems

  // ---------------------------------------------------------------- continuing a run

  /** The process after further steps; None when some step is not enabled when its turn comes. */
  function Continue(cfg: Settings, w: Process, ms: seq<Step>): Option<Process> {
    if ms == [] then Some(w)
    else
      var x := Continue(cfg, w, ms[..|ms| - 1]);
      if x.None? then None else Move(cfg, x.value, ms[|ms| - 1])
  }

  /** No client receives a firing of its timer, so none starts a login. */
  predicate NoLogin(ms: seq<Step>) {
    forall m | m in ms :: !(m.Core? && m.l.Act? && m.l.move.TakeTimer?)
  }

  /** At most n steps lead from w to x, none of which starts a login. */
  ghost predicate Reaches(cfg: Settings, w: Process, x: Process, n: nat) {
    exists ms: seq<Step> :: |ms| <= n && NoLogin(ms) && Continue(cfg, w, ms) == Some(x)
  }

  lemma {:induction false} ContinueConcat(cfg: Settings, w: Process, x: Process, ms: seq<Step>, ns: seq<Step>)
    requires Continue(cfg, w, ms) == Some(x)
    ensures Continue(cfg, w, ms + ns) == Continue(cfg, x, ns)
  {
    if ns == [] {
      assert ms + ns == ms;
    } else {
      assert (ms + ns)[..|ms + ns| - 1] == ms + ns[..|ns| - 1];
      ContinueConcat(cfg, w, x, ms, ns[..|ns| - 1]);
    }
  }

  lemma {:induction false} PlayContinues(cfg: Settings, w: Process, ms: seq<Step>, ns: seq<Step>)
    requires Play(cfg, ms) == Some(w)
    ensures Play(cfg, ms + ns) == Continue(cfg, w, ns)
  {
    if ns == [] {
      assert ms + ns == ms;
    } else {
      assert (ms + ns)[..|ms + ns| - 1] == ms + ns[..|ns| - 1];
      PlayContinues(cfg, w, ms, ns[..|ns| - 1]);
    }
  }

  lemma ReachesHappens(cfg: Settings, w: Process, x: Process, n: nat)
    requires Happens(cfg, w) && Reaches(cfg, w, x, n)
    ensures Happens(cfg, x)
  {
    var ms: seq<Step> :| Play(cfg, ms) == Some(w);
    var ns: seq<Step> :| |ns| <= n && NoLogin(ns) && Continue(cfg, w, ns) == Some(x);
    PlayContinues(cfg, w, ms, ns);
  }

  lemma ReachesSelf(cfg: Settings, w: Process)
    ensures Reaches(cfg, w, w, 0)
  {
    var none: seq<Step> := [];
    assert Continue(cfg, w, none) == Some(w) && NoLogin(none);
  }

  lemma ReachesStep(cfg: Settings, w: Process, x: Process, n: nat, m: Step)
    requires Reaches(cfg, w, x, n) && Move(cfg, x, m).Some? && NoLogin([m])
    ensures Reaches(cfg, w, Move(cfg, x, m).value, n + 1)
  {
    var ms: seq<Step> :| |ms| <= n && NoLogin(ms) && Continue(cfg, w, ms) == Some(x);
    assert (ms + [m])[..|ms|] == ms;
    assert forall k | k in ms + [m] :: k in ms || k in [m];
    assert Continue(cfg, w, ms + [m]) == Move(cfg, x, m);
  }

  lemma ReachesOn(cfg: Settings, w: Process, x: Process, y: Process, n: nat, k: nat)
    requires Reaches(cfg, w, x, n) && Reaches(cfg, x, y, k)
    ensures Reaches(cfg, w, y, n + k)
  {
    var ms: seq<Step> :| |ms| <= n && NoLogin(ms) && Continue(cfg, w, ms) == Some(x);
    var ns: seq<Step> :| |ns| <= k && NoLogin(ns) && Continue(cfg, x, ns) == Some(y);
    ContinueConcat(cfg, w, x, ms, ns);
    assert forall m | m in ms + ns :: m in ms || m in ns;
  }

  lemma ReachesWithin(cfg: Settings, w: Process, x: Process, n: nat, k: nat)
    requires Reaches(cfg, w, x, n) && n <= k
    ensures Reaches(cfg, w, x, k)
  {
  }

  // ---------------------------------------------------------------- steps of agent and clients within the process

  /** A label of a client, or the return of Client.Stop, that starts no login. */
  predicate Inner(l: Label) {
    l == StopReturns || (l.Act? && !l.move.TakeTimer?)
  }

  lemma {:induction false} CoreReaches(cfg: Settings, w: Process, ls: seq<Label>)
    requires Exec(cfg, w.sys, ls).Some? && forall l | l in ls :: Inner(l)
    ensures Reaches(cfg, w, w.(sys := Exec(cfg, w.sys, ls).value), |ls|)
  {
    if ls == [] {
      ReachesSelf(cfg, w);
    } else {
      var p, l := ls[..|ls| - 1], ls[|ls| - 1];
      CoreReaches(cfg, w, p);
      assert l in ls;
      ReachesStep(cfg, w, w.(sys := Exec(cfg, w.sys, p).value), |p|, Core(l));
    }
  }

  // ---------------------------------------------------------------- back to the loop

  /** A bound on the steps that what is left after a SetProperty takes. */
  function RestCost(r: Rest): nat {
    match r
    case BootLogin => 4
    case BootConfig => 2
    case Ready => 0
    case AfterNetwork => 29
    case AfterLogin(_, _) => 2
    case TGTEnd(_) => 2
    case AfterTGT(_) => 0
    case BeforeStop(_) => 27
    case AfterStop(_) => 0
  }

  /** A bound on the steps until the agent is at its loop, or leaves it. */
  function Cost(pc: PC): nat {
    match pc
    case InSetProperty(_, r) => 2 + RestCost(r)
    case InStop(_) => 27
    case _ => 0
  }

  /** The agent is not within a handler. */
  predicate Settled(pc: PC) { !pc.InSetProperty? && !pc.InStop? }

  /** Some event so far ends the loop. */
  ghost predicate Ended(events: seq<Event>) {
    exists e :: e in events && EndEvent(e)
  }

  lemma EnterLoginCost(cfg: Settings, a: Agent, l: LoginState, r: Rest)
    requires !r.AfterNetwork? && !r.BootLogin?
    ensures Cost(EnterLogin(cfg, a, l, r).pc) <= 2 + RestCost(r)
  {
  }

  lemma EnterStopCost(cfg: Settings, a: Agent, after: After)
    ensures Cost(EnterStop(cfg, a, after).pc) <= 29
  {
    if a.client.Some? {
      EnterLoginCost(cfg, a, LoggingOut, BeforeStop(after));
    }
  }

  lemma ResumeCost(cfg: Settings, a: Agent, r: Rest)
    ensures Cost(Resume(cfg, a, r).pc) <= RestCost(r)
  {
    if r.AfterNetwork? {
      EnterStopCost(cfg, a, ToSelect);
    } else if r.BootLogin? {
      EnterLoginCost(cfg, a, LoggedOut, BootConfig);
    }
  }

  lemma OneStep(cfg: Settings, w: Process, m: Step) returns (x: Process)
    requires Happens(cfg, w) && Move(cfg, w, m).Some? && NoLogin([m])
    ensures x == Move(cfg, w, m).value && Reaches(cfg, w, x, 1) && Happens(cfg, x)
  {
    x := Move(cfg, w, m).value;
    ReachesSelf(cfg, w);
    ReachesStep(cfg, w, w, 0, m);
    ReachesHappens(cfg, w, x, 1);
  }

  /** The service stores the update it has, if any. */
  lemma Stores(cfg: Settings, w: Process) returns (x: Process)
    requires Happens(cfg, w) && (w.sys.pc.InSetProperty? || w.sys.pc.AtLoop?)
    ensures Reaches(cfg, w, x, 1) && Happens(cfg, x)
    ensures x.svc.pc.Serving? && x.sys == w.sys && x.callers == w.callers && w.svc.signals <= x.svc.signals
  {
    HappensInv(cfg, w);
    if w.svc.pc.Holding? {
      x := OneStep(cfg, w, Store);
    } else {
      x := w;
      ReachesSelf(cfg, w);
      ReachesWithin(cfg, w, w, 0, 1);
    }
  }

  lemma HandedOver(cfg: Settings, w: Process)
    requires w.sys.pc.InSetProperty? && w.svc.pc.Serving?
    ensures Move(cfg, w, HandOver).Some?
    ensures var x := Move(cfg, w, HandOver).value;
            && x.sys.pc == Resume(cfg, w.sys.a, w.sys.pc.rest).pc && x.sys.a == Resume(cfg, w.sys.a, w.sys.pc.rest).a
            && x.sys.events == w.sys.events && x.callers == w.callers
  {
  }

  /** The agent and the service meet, after the service has stored the update before if need be. */
  lemma Publishes(cfg: Settings, w: Process) returns (x: Process)
    requires Happens(cfg, w) && w.sys.pc.InSetProperty?
    ensures Reaches(cfg, w, x, 2) && Happens(cfg, x)
    ensures x.sys.pc == Resume(cfg, w.sys.a, w.sys.pc.rest).pc
    ensures x.sys.events == w.sys.events && x.callers == w.callers
  {
    var y := Stores(cfg, w);
    HandedOver(cfg, y);
    x := OneStep(cfg, y, HandOver);
    ReachesOn(cfg, w, y, x, 1, 1);
  }

  lemma JoinCost(cfg: Settings, a: Agent, after: After)
    ensures Cost(AfterJoin(cfg, a, after).pc) <= 2
  {
    EnterLoginCost(cfg, a.(client := None, login := None), LoggedOut, AfterStop(after));
  }

  lemma Joins(cfg: Settings, w: Process) returns (x: Process)
    requires Happens(cfg, w) && w.sys.pc.InStop?
    ensures Reaches(cfg, w, x, 25) && Happens(cfg, x)
    ensures Cost(x.sys.pc) <= 2 && !PastExit(x.sys.pc) && x.sys.events == w.sys.events && x.callers == w.callers
  {
    HappensInv(cfg, w);
    ReachableInv(cfg, w.sys);
    var ls := StopReturnsFrom(cfg, w.sys);
    RankBound(w.sys.clients[w.sys.a.client.value]);
    x := w.(sys := Exec(cfg, w.sys, ls).value);
    CoreReaches(cfg, w, ls);
    JoinCost(cfg, w.sys.a, w.sys.pc.after);
    ResumeNotOut(cfg, w.sys.a.(client := None, login := None), AfterStop(w.sys.pc.after));
    ReachesWithin(cfg, w, x, |ls|, 25);
    ReachesHappens(cfg, w, x, 25);
  }

  /** From anywhere in a handler, the process gets to the end of that handler without a login. */
  lemma {:induction false} Settles(cfg: Settings, w: Process) returns (x: Process)
    requires Happens(cfg, w)
    ensures Reaches(cfg, w, x, Cost(w.sys.pc)) && Happens(cfg, x)
    ensures Settled(x.sys.pc) && (PastExit(x.sys.pc) <==> PastExit(w.sys.pc))
    ensures x.sys.events == w.sys.events && x.callers == w.callers
    decreases Cost(w.sys.pc)
  {
    if w.sys.pc.InSetProperty? {
      var y := Publishes(cfg, w);
      ResumeCost(cfg, w.sys.a, w.sys.pc.rest);
      ResumeNotOut(cfg, w.sys.a, w.sys.pc.rest);
      x := Settles(cfg, y);
      ReachesOn(cfg, w, y, x, 2, Cost(y.sys.pc));
      ReachesWithin(cfg, w, x, 2 + Cost(y.sys.pc), Cost(w.sys.pc));
    } else if w.sys.pc.InStop? {
      var y := Joins(cfg, w);
      x := Settles(cfg, y);
      ReachesOn(cfg, w, y, x, 25, Cost(y.sys.pc));
      ReachesWithin(cfg, w, x, 25 + Cost(y.sys.pc), 27);
    } else {
      x := w;
      ReachesSelf(cfg, w);
    }
  }

  // ---------------------------------------------------------------- the end of the process

  /** The steps until the service has ended and its Stop has returned. */
  function ServiceCost(pc: ServicePC): nat {
    match pc
    case Finished => 1
    case Flushing(n) => if n <= |FLUSH| then |FLUSH| - n + 2 else 2
    case Serving => |FLUSH| + 3
    case Holding(_) => |FLUSH| + 4
  }

  function ServiceStep(pc: ServicePC): Step {
    match pc
    case Finished => ServiceReturns
    case Flushing(_) => FlushOne
    case Serving => NoticeDone
    case Holding(_) => Store
  }

  lemma ServiceGoesOn(cfg: Settings, w: Process)
    requires ProcessInv(cfg, w) && w.sys.pc.InServiceStop?
    ensures Move(cfg, w, ServiceStep(w.svc.pc)).Some?
    ensures var x := Move(cfg, w, ServiceStep(w.svc.pc)).value;
            && x.callers == w.callers && x.sys.events == w.sys.events
            && (if w.svc.pc.Finished? then x.sys.pc.Exited? && x.svc.pc.Finished?
                else x.sys.pc.InServiceStop? && ServiceCost(x.svc.pc) < ServiceCost(w.svc.pc))
  {
  }

  lemma {:induction false} ServiceEnds(cfg: Settings, w: Process) returns (x: Process)
    requires Happens(cfg, w) && w.sys.pc.InServiceStop?
    ensures Reaches(cfg, w, x, ServiceCost(w.svc.pc)) && Happens(cfg, x)
    ensures x.sys.pc.Exited? && x.svc.pc.Finished? && x.callers == w.callers && x.sys.events == w.sys.events
    decreases ServiceCost(w.svc.pc)
  {
    HappensInv(cfg, w);
    ServiceGoesOn(cfg, w);
    var y := OneStep(cfg, w, ServiceStep(w.svc.pc));
    if w.svc.pc.Finished? {
      x := y;
    } else {
      x := ServiceEnds(cfg, y);
      ReachesOn(cfg, w, y, x, 1, ServiceCost(y.svc.pc));
      ReachesWithin(cfg, w, x, 1 + ServiceCost(y.svc.pc), ServiceCost(w.svc.pc));
    }
  }

  /** Where the agent is when not within a handler depends on the events so far. */
  lemma SettledPlace(cfg: Settings, w: Process)
    requires Happens(cfg, w) && Settled(w.sys.pc)
    ensures w.sys.pc.AtLoop? <==> !Ended(w.sys.events)
  {
    HappensInv(cfg, w);
    ReachableEnds(cfg, w.sys);
    if w.sys.pc.AtLoop? {
      NoneEnded(w.sys.events);
    } else {
      var e := w.sys.events[|w.sys.events| - 1];
      assert e in w.sys.events && EndEvent(e);
    }
  }

  lemma ServiceCostBound(pc: ServicePC)
    ensures ServiceCost(pc) <= 10
  {
  }

  lemma Closes(cfg: Settings, w: Process) returns (x: Process)
    requires Happens(cfg, w) && w.sys.pc.Exiting?
    ensures Reaches(cfg, w, x, 1) && Happens(cfg, x)
    ensures x.sys == w.sys.(pc := InServiceStop) && x.callers == w.callers && x.svc.doneCloses > 0 && ServiceCost(x.svc.pc) <= 10
  {
    ClosedIs(cfg, w);
    x := OneStep(cfg, w, CloseService);
    ServiceCostBound(x.svc.pc);
  }

  lemma ClosedIs(cfg: Settings, w: Process)
    requires w.sys.pc.Exiting?
    ensures Move(cfg, w, CloseService) ==
            Some(Process(w.sys.(pc := InServiceStop), w.svc.(doneCloses := w.svc.doneCloses + 1), w.callers))
  {
  }

  /** From the end of the loop the process ends. */
  lemma Leaves(cfg: Settings, w: Process) returns (x: Process)
    requires Happens(cfg, w) && Settled(w.sys.pc) && !w.sys.pc.AtLoop?
    ensures Reaches(cfg, w, x, 11) && Happens(cfg, x)
    ensures x.sys.pc.Exited? && x.svc.pc.Finished? && x.sys.events == w.sys.events
  {
    if w.sys.pc.Exiting? {
      var y := Closes(cfg, w);
      x := ServiceEnds(cfg, y);
      ReachesOn(cfg, w, y, x, 1, ServiceCost(y.svc.pc));
      ReachesWithin(cfg, w, x, 1 + ServiceCost(y.svc.pc), 11);
    } else if w.sys.pc.InServiceStop? {
      x := ServiceEnds(cfg, w);
      ServiceCostBound(w.svc.pc);
      ReachesWithin(cfg, w, x, ServiceCost(w.svc.pc), 11);
    } else {
      x := w;
      HappensInv(cfg, w);
      ReachesSelf(cfg, w);
      ReachesWithin(cfg, w, x, 0, 11);
    }
  }

  lemma CostBound(pc: PC)
    ensures Cost(pc) <= 31
  {
  }

  /**
    From any state of any run the process comes back to its loop or ends, within 42 steps and without a
    login: back to its loop exactly if none of the events so far ends it.
   */
  lemma ProcessGoesOn(cfg: Settings, w: Process) returns (x: Process)
    requires Happens(cfg, w)
    ensures Reaches(cfg, w, x, 42) && Happens(cfg, x) && x.sys.events == w.sys.events
    ensures if Ended(w.sys.events) then x.sys.pc.Exited? && x.svc.pc.Finished? else x.sys.pc.AtLoop?
  {
    var y := Settles(cfg, w);
    SettledPlace(cfg, y);
    CostBound(w.sys.pc);
    if y.sys.pc.AtLoop? {
      x := y;
      ReachesWithin(cfg, w, x, Cost(w.sys.pc), 42);
    } else {
      x := Leaves(cfg, y);
      ReachesOn(cfg, w, y, x, Cost(w.sys.pc), 11);
      ReachesWithin(cfg, w, x, Cost(w.sys.pc) + 11, 42);
    }
  }

  lemma TakenIs(cfg: Settings, w: Process, e: Event)
    requires CanTake(w.sys, e) && !e.ReLogin?
    ensures Move(cfg, w, Core(Take(e))).Some?
    ensures var x := Move(cfg, w, Core(Take(e))).value;
            x.sys.events == w.sys.events + [e] && x.callers == w.callers && !PastExit(x.sys.pc)
  {
    NeverStraightOut(cfg, w.sys.a, e);
  }

  /** An event that needs no caller is taken and handled to the end. */
  lemma Handles(cfg: Settings, w: Process, e: Event) returns (x: Process)
    requires Happens(cfg, w) && CanTake(w.sys, e) && !e.ReLogin?
    ensures Reaches(cfg, w, x, 32) && Happens(cfg, x)
    ensures x.sys.events == w.sys.events + [e] && x.callers == w.callers
    ensures if EndEvent(e) then x.sys.pc.Exiting? else x.sys.pc.AtLoop?
  {
    TakenIs(cfg, w, e);
    var y := OneStep(cfg, w, Core(Take(e)));
    x := Settles(cfg, y);
    CostBound(y.sys.pc);
    ReachesOn(cfg, w, y, x, 1, Cost(y.sys.pc));
    ReachesWithin(cfg, w, x, 1 + Cost(y.sys.pc), 32);
    SettledPlace(cfg, w);
    SettledPlace(cfg, x);
    EndedNext(w.sys.events, e);
  }

  lemma EndedNext(events: seq<Event>, e: Event)
    ensures Ended(events + [e]) <==> Ended(events) || EndEvent(e)
  {
    assert e in events + [e];
    if Ended(events) {
      var x :| x in events && EndEvent(x);
      assert x in events + [e];
    }
  }

  /**
    Agent.Stop returns: from any loop head, the done arm leads within 43 steps and without a login to the
    end of the agent and its service, with every client gone and every property unknown or invalid.
   */
  lemma AgentStopReturns(cfg: Settings, w: Process) returns (x: Process)
    requires Happens(cfg, w) && w.sys.pc.AtLoop?
    ensures Reaches(cfg, w, x, 43) && Happens(cfg, x) && x.sys.events == w.sys.events + [Shutdown]
    ensures x.sys.pc.Exited? && x.svc.pc.Finished? && x.svc.props == EXPORTED
    ensures forall i: nat | i < |x.sys.clients| :: x.sys.clients[i].pc.Dead?
  {
    var y := Handles(cfg, w, Shutdown);
    x := Leaves(cfg, y);
    ReachesOn(cfg, w, y, x, 32, 11);
    FinalFlush(cfg, x);
    HappensInv(cfg, x);
    ShutdownStopsClient(cfg, x.sys);
  }
}
