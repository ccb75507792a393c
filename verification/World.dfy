/**
  The whole agent process: the agent and its clients together with the D-Bus service goroutine
  (internal/dbusapi/service.go) and any number of concurrent calls of its ReLogin method.
 */
module World {
  import opened Options
  import opened Status
  import opened Settings
  import opened ClientMachine
  import opened Handlers
  import opened AgentMachine
  import opened System
  import opened SystemInvariant
  import opened LoginStates
  import opened WholeRuns
  import opened PropertyStore

  datatype ServicePC = Serving | Holding(update: Update) | Flushing(n: nat) | Finished

  /** signals are all property updates made so far; each emits one PropertiesChanged signal. */
  datatype Service = Service(pc: ServicePC, props: map<Property, Value>, signals: seq<Update>, doneCloses: nat, closed: bool)

  /** A call of ReLogin: handing over its request, waiting for it, or returned. */
  datatype Caller = Calling | Waiting | Returned(ok: bool)

  datatype Process = Process(sys: State, svc: Service, callers: seq<Caller>)

  datatype Step =
    | Core(l: Label)
    | HandOver
    | Drop
    | Store
    | NoticeDone
    | FlushOne
    | CloseService
    | ServiceReturns
    | NewCall
    | Accept(q: nat)
    | Abort(q: nat)
    | Return(q: nat)

  function Emit(svc: Service, u: Update): Service {
    svc.(props := svc.props[u.name := u.value], signals := svc.signals + [u])
  }

  /** The labels of the agent and its clients that involve neither the service nor a caller. */
  predicate Internal(l: Label) {
    !l.Published? && !l.LeaveLoop? && (l.Take? ==> !l.event.ReLogin?)
  }

  function Replied(es: seq<Effect>, q: nat): Option<bool> {
    if Reply(q, true) in es then Some(true) else if Reply(q, false) in es then Some(false) else None
  }

  function Move(cfg: Settings, w: Process, m: Step): Option<Process> {
    match m
    case Core(l) =>
      if Internal(l) && Do(cfg, w.sys, l).Some? then Some(w.(sys := Do(cfg, w.sys, l).value)) else None
    case HandOver =>
      if w.sys.pc.InSetProperty? && w.svc.pc.Serving? then
        Some(w.(sys := Do(cfg, w.sys, Published).value, svc := w.svc.(pc := Holding(w.sys.pc.update))))
      else None
    case Drop =>
      if w.sys.pc.InSetProperty? && w.svc.doneCloses > 0 then
        Some(w.(sys := Apply(cfg, w.sys, Resume(cfg, w.sys.a, w.sys.pc.rest))))
      else None
    case Store =>
      if w.svc.pc.Holding? then Some(w.(svc := Emit(w.svc, w.svc.pc.update).(pc := Serving))) else None
    case NoticeDone =>
      if w.svc.pc.Serving? && w.svc.doneCloses > 0 then Some(w.(svc := w.svc.(pc := Flushing(0)))) else None
    case FlushOne =>
      if !w.svc.pc.Flushing? then None
      else if w.svc.pc.n < |FLUSH| then Some(w.(svc := Emit(w.svc, FLUSH[w.svc.pc.n]).(pc := Flushing(w.svc.pc.n + 1))))
      else Some(w.(svc := w.svc.(pc := Finished, closed := true)))
    case CloseService =>
      if w.sys.pc.Exiting? then
        Some(w.(sys := Do(cfg, w.sys, LeaveLoop).value, svc := w.svc.(doneCloses := w.svc.doneCloses + 1)))
      else None
    case ServiceReturns =>
      if w.sys.pc.InServiceStop? && w.svc.closed then Some(w.(sys := Do(cfg, w.sys, LeaveLoop).value)) else None
    case NewCall =>
      Some(w.(callers := w.callers + [Calling]))
    case Accept(q) =>
      if q < |w.callers| && w.callers[q].Calling? && w.sys.pc.AtLoop? then
        Some(w.(sys := Do(cfg, w.sys, Take(ReLogin(q))).value, callers := w.callers[q := Waiting]))
      else None
    case Abort(q) =>
      if q < |w.callers| && !w.callers[q].Returned? && w.svc.doneCloses > 0 then
        Some(w.(callers := w.callers[q := Returned(false)]))
      else None
    case Return(q) =>
      if q < |w.callers| && w.callers[q].Waiting? && Replied(w.sys.effects, q).Some? then
        Some(w.(callers := w.callers[q := Returned(Replied(w.sys.effects, q).value)]))
      else None
  }

  function Start(cfg: Settings): Process {
    Process(Init(cfg), Service(Serving, SetAll(EXPORTED, STARTED), STARTED, 0, false), [])
  }

  function Play(cfg: Settings, ms: seq<Step>): Option<Process> {
    if ms == [] then Some(Start(cfg))
    else
      var w := Play(cfg, ms[..|ms| - 1]);
      if w.None? then None else Move(cfg, w.value, ms[|ms| - 1])
  }

  ghost predicate Happens(cfg: Settings, w: Process) {
    exists ms: seq<Step> :: Play(cfg, ms) == Some(w)
  }

  // ---------------------------------------------------------------- invariants of the process

  /** The updates among the calls of the agent. */
  function Updates(es: seq<Effect>): seq<Update> {
    if es == [] then []
    else Updates(es[..|es| - 1]) + if es[|es| - 1].Publish? then [es[|es| - 1].update] else []
  }

  /** The channels of the service and the places of the two goroutines. */
  ghost predicate ServiceFits(w: Process) {
    && w.svc.doneCloses == (if w.sys.pc.InServiceStop? || w.sys.pc.Exited? then 1 else 0)
    && (w.svc.pc.Flushing? || w.svc.pc.Finished? ==> w.svc.doneCloses == 1)
    && (w.svc.pc.Flushing? ==> w.svc.pc.n <= |FLUSH|)
    && (w.svc.closed <==> w.svc.pc.Finished?)
    && (w.sys.pc.Exited? ==> w.svc.pc.Finished?)
  }

  /** The update the service has taken but not stored. */
  function Held(pc: ServicePC): seq<Update> { if pc.Holding? then [pc.update] else [] }

  /** The part of the final flush that has been made. */
  function Flushed(pc: ServicePC): seq<Update> {
    match pc
    case Flushing(n) => if n <= |FLUSH| then FLUSH[..n] else FLUSH
    case Finished => FLUSH
    case _ => []
  }

  /** Every update is stored in order, at most one is under way, and the flush comes last. */
  ghost predicate InOrder(w: Process) {
    && w.svc.props == SetAll(EXPORTED, w.svc.signals)
    && w.svc.signals + Held(w.svc.pc) == STARTED + Updates(w.sys.effects) + Flushed(w.svc.pc)
  }

  ghost predicate CallersFit(w: Process) {
    && (forall q: nat :: ReLogin(q) in w.sys.events ==> q < |w.callers| && !w.callers[q].Calling?)
    && (forall q: nat | q < |w.callers| && w.callers[q].Waiting? :: ReLogin(q) in w.sys.events)
    && (forall q: nat | q < |w.callers| && w.callers[q] == Returned(true) :: Reply(q, true) in w.sys.effects)
    && (forall q: nat | q < |w.callers| && w.callers[q] == Returned(false) :: w.svc.doneCloses > 0 || Reply(q, false) in w.sys.effects)
    && (forall i, j, q: nat | 0 <= i < j < |w.sys.events| && w.sys.events[i] == ReLogin(q) :: w.sys.events[j] != ReLogin(q))
  }

  ghost predicate ProcessInv(cfg: Settings, w: Process) {
    Reachable(cfg, w.sys) && ServiceFits(w) && InOrder(w) && CallersFit(w)
  }

  lemma {:induction false} UpdatesConcat(xs: seq<Effect>, ys: seq<Effect>)
    ensures Updates(xs + ys) == Updates(xs) + Updates(ys)
  {
    if ys == [] {
      assert xs + ys == xs;
    } else {
      assert (xs + ys)[..|xs + ys| - 1] == xs + ys[..|ys| - 1];
      UpdatesConcat(xs, ys[..|ys| - 1]);
    }
  }

  lemma {:induction false} NoUpdates(es: seq<Effect>)
    requires forall e | e in es :: !e.Publish?
    ensures Updates(es) == []
  {
    if es != [] {
      NoUpdates(es[..|es| - 1]);
    }
  }

  /** Local computations of the agent publish nothing by themselves. */
  lemma LocalPublishesNothing(cfg: Settings, s: State, l: Label)
    requires Inv(cfg, s) && Do(cfg, s, l).Some? && !l.Published?
    ensures Updates(Do(cfg, s, l).value.effects) == Updates(s.effects)
  {
    match l
    case Take(e) =>
      BeginMove(cfg, s.clients, s.a, e);
      Quietly(s.effects, Begin(cfg, s.a, e).es);
    case Deliver(now) => DeliveringPublishesNothing(cfg, s, now);
    case SeeClosed => Quietly(s.effects, []);
    case StopReturns => JoiningPublishesNothing(cfg, s);
    case _ =>
  }

  lemma DeliveringPublishesNothing(cfg: Settings, s: State, now: int)
    requires Inv(cfg, s) && CanDeliver(s)
    ensures Updates(Do(cfg, s, Deliver(now)).value.effects) == Updates(s.effects)
  {
    var i := s.a.login.value;
    var e := LoginResult(s.clients[i].pc.state, now);
    assert ClientInv(cfg, s.clients[i]);
    EnterLoginMove(cfg, s.a, e.state, AfterLogin(e.state, now));
    Quietly(s.effects, Begin(cfg, s.a, e).es);
  }

  lemma JoiningPublishesNothing(cfg: Settings, s: State)
    requires Inv(cfg, s) && Do(cfg, s, StopReturns).Some?
    ensures Updates(Do(cfg, s, StopReturns).value.effects) == Updates(s.effects)
  {
    JoinMove(cfg, s.a, s.pc.after);
    Quietly(s.effects, AfterJoin(cfg, s.a, s.pc.after).es);
  }

  lemma Quietly(es: seq<Effect>, more: seq<Effect>)
    requires forall e | e in more :: !e.Publish?
    ensures Updates(es + more) == Updates(es)
  {
    UpdatesConcat(es, more);
    NoUpdates(more);
  }

  lemma PublishedUpdates(cfg: Settings, s: State)
    requires Inv(cfg, s) && s.pc.InSetProperty?
    ensures Updates(Do(cfg, s, Published).value.effects) == Updates(s.effects) + [s.pc.update]
  {
    var r := Resume(cfg, s.a, s.pc.rest);
    ResumeMove(cfg, s.clients, s.a, s.pc.rest);
    Assoc(s.effects, [Publish(s.pc.update)], r.es);
    assert (s.effects + [Publish(s.pc.update)])[..|s.effects|] == s.effects;
    Quietly(s.effects + [Publish(s.pc.update)], r.es);
  }

  // ---------------------------------------------------------------- preservation

  /** The agent only ever adds to its histories. */
  lemma Grows(cfg: Settings, s: State, l: Label)
    requires Do(cfg, s, l).Some?
    ensures var t := Do(cfg, s, l).value;
            && s.effects <= t.effects
            && (t.events == s.events
                || (|t.events| == |s.events| + 1 && t.events[..|s.events|] == s.events
                    && (t.events[|s.events|].ReLogin? ==> l == Take(t.events[|s.events|]))))
  {
  }

  lemma SameCallers(w: Process, x: Process)
    requires CallersFit(w) && x.callers == w.callers && w.sys.effects <= x.sys.effects && w.svc.doneCloses <= x.svc.doneCloses
    requires x.sys.events == w.sys.events
             || (|x.sys.events| == |w.sys.events| + 1 && x.sys.events[..|w.sys.events|] == w.sys.events
                 && !x.sys.events[|w.sys.events|].ReLogin?)
    ensures CallersFit(x)
  {
    forall q: nat | ReLogin(q) in x.sys.events
      ensures ReLogin(q) in w.sys.events
    {
      var i :| 0 <= i < |x.sys.events| && x.sys.events[i] == ReLogin(q);
      assert w.sys.events[i] == ReLogin(q);
    }
    forall q: nat | ReLogin(q) in w.sys.events
      ensures ReLogin(q) in x.sys.events
    {
      var i :| 0 <= i < |w.sys.events| && w.sys.events[i] == ReLogin(q);
      assert x.sys.events[i] == ReLogin(q);
    }
    forall i, j, q: nat | 0 <= i < j < |x.sys.events| && x.sys.events[i] == ReLogin(q)
      ensures x.sys.events[j] != ReLogin(q)
    {
      assert w.sys.events[i] == ReLogin(q);
      if j < |w.sys.events| {
        assert w.sys.events[j] == x.sys.events[j];
      }
    }
  }

  lemma CoreKeeps(cfg: Settings, w: Process, l: Label)
    requires ProcessInv(cfg, w) && Internal(l) && Do(cfg, w.sys, l).Some?
    ensures ProcessInv(cfg, w.(sys := Do(cfg, w.sys, l).value))
  {
    var x := w.(sys := Do(cfg, w.sys, l).value);
    ReachableStep(cfg, w.sys, l);
    ReachableInv(cfg, w.sys);
    LocalPublishesNothing(cfg, w.sys, l);
    Grows(cfg, w.sys, l);
    SameCallers(w, x);
    InternalPlaces(cfg, w.sys, l);
  }

  /** Only CloseService and ServiceReturns move the agent through its exit. */
  lemma InternalPlaces(cfg: Settings, s: State, l: Label)
    requires Internal(l) && Do(cfg, s, l).Some?
    ensures var t := Do(cfg, s, l).value;
            (t.pc.InServiceStop? || t.pc.Exited?) <==> (s.pc.InServiceStop? || s.pc.Exited?)
  {
    match l
    case Take(e) => NeverStraightOut(cfg, s.a, e);
    case Deliver(now) => NeverStraightOut(cfg, s.a, LoginResult(s.clients[s.a.login.value].pc.state, now));
    case SeeClosed => NeverStraightOut(cfg, s.a, SourceClosed(LoginSource));
    case StopReturns => ResumeNotOut(cfg, s.a.(client := None, login := None), AfterStop(s.pc.after));
    case _ =>
  }

  predicate PastExit(pc: PC) { pc.InServiceStop? || pc.Exited? }

  lemma ResumeNotOut(cfg: Settings, a: Agent, r: Rest)
    ensures !PastExit(Resume(cfg, a, r).pc)
    ensures r.AfterStop? ==> !PastExit(EnterLogin(cfg, a, LoggedOut, r).pc)
  {
  }

  lemma StopNotOut(cfg: Settings, a: Agent, after: After)
    ensures !PastExit(EnterStop(cfg, a, after).pc)
  {
    ResumeNotOut(cfg, a, AfterStop(after));
    ResumeNotOut(cfg, a, BeforeStop(after));
  }

  lemma NeverStraightOut(cfg: Settings, a: Agent, e: Event)
    requires ValidEvent(e)
    ensures !PastExit(Begin(cfg, a, e).pc)
  {
    match e
    case TND(_) => ResumeNotOut(cfg, a, AfterNetwork);
    case Sleep(_) => ResumeNotOut(cfg, a, AfterNetwork);
    case LoginResult(l, now) => ResumeNotOut(cfg, a, AfterLogin(l, now));
    case ReLogin(q) => StopNotOut(cfg, a, ToRestart(q));
    case Shutdown => StopNotOut(cfg, a, ToExit);
    case _ =>
  }

  lemma TakenInOrder(signals: seq<Update>, us: seq<Update>, u: Update)
    requires signals + [] == STARTED + us + []
    ensures signals + [u] == STARTED + (us + [u]) + []
  {
    assert signals == signals + [] && STARTED + us == STARTED + us + [];
    assert STARTED + us + [u] == STARTED + (us + [u]);
  }

  lemma HandOverKeeps(cfg: Settings, w: Process)
    requires ProcessInv(cfg, w) && Move(cfg, w, HandOver).Some?
    ensures ProcessInv(cfg, Move(cfg, w, HandOver).value)
  {
    var x := Move(cfg, w, HandOver).value;
    var u := w.sys.pc.update;
    ReachableStep(cfg, w.sys, Published);
    ReachableInv(cfg, w.sys);
    ResumeNotOut(cfg, w.sys.a, w.sys.pc.rest);
    assert ServiceFits(x);
    Grows(cfg, w.sys, Published);
    SameCallers(w, x);
    PublishedUpdates(cfg, w.sys);
    TakenInOrder(w.svc.signals, Updates(w.sys.effects), u);
    assert x.svc.pc == Holding(u) && x.svc.signals == w.svc.signals && x.svc.props == w.svc.props;
  }

  lemma AcceptCallers(w: Process, x: Process, q: nat)
    requires CallersFit(w) && q < |w.callers| && w.callers[q].Calling?
    requires x.callers == w.callers[q := Waiting] && w.sys.effects <= x.sys.effects && w.svc.doneCloses <= x.svc.doneCloses
    requires x.sys.events == w.sys.events + [ReLogin(q)]
    ensures CallersFit(x)
  {
    assert x.sys.events[|w.sys.events|] == ReLogin(q);
    forall p: nat | ReLogin(p) in w.sys.events
      ensures ReLogin(p) in x.sys.events
    {
    }
  }

  lemma AcceptKeeps(cfg: Settings, w: Process, q: nat)
    requires ProcessInv(cfg, w) && Move(cfg, w, Accept(q)).Some?
    ensures ProcessInv(cfg, Move(cfg, w, Accept(q)).value)
  {
    var x := Move(cfg, w, Accept(q)).value;
    ReachableStep(cfg, w.sys, Take(ReLogin(q)));
    ReachableInv(cfg, w.sys);
    LocalPublishesNothing(cfg, w.sys, Take(ReLogin(q)));
    NeverStraightOut(cfg, w.sys.a, ReLogin(q));
    AcceptCallers(w, x, q);
  }

  /** Storing an update keeps the map in step with the log. */
  lemma EmitKeeps(svc: Service, u: Update)
    requires svc.props == SetAll(EXPORTED, svc.signals)
    ensures Emit(svc, u).props == SetAll(EXPORTED, Emit(svc, u).signals)
  {
    assert (svc.signals + [u])[..|svc.signals|] == svc.signals;
  }

  lemma StoreKeeps(cfg: Settings, w: Process)
    requires ProcessInv(cfg, w) && Move(cfg, w, Store).Some?
    ensures ProcessInv(cfg, Move(cfg, w, Store).value)
  {
    var u := w.svc.pc.update;
    EmitKeeps(w.svc, u);
    assert w.svc.signals + [u] + [] == w.svc.signals + [u];
    SameCallers(w, Move(cfg, w, Store).value);
  }

  lemma FlushKeeps(cfg: Settings, w: Process)
    requires ProcessInv(cfg, w) && Move(cfg, w, FlushOne).Some?
    ensures ProcessInv(cfg, Move(cfg, w, FlushOne).value)
  {
    var n := w.svc.pc.n;
    FlushInOrder(w.svc.signals, STARTED + Updates(w.sys.effects), n);
    if n < |FLUSH| {
      EmitKeeps(w.svc, FLUSH[n]);
    }
    SameCallers(w, Move(cfg, w, FlushOne).value);
  }

  lemma NoticeKeeps(cfg: Settings, w: Process)
    requires ProcessInv(cfg, w) && Move(cfg, w, NoticeDone).Some?
    ensures ProcessInv(cfg, Move(cfg, w, NoticeDone).value)
  {
    SameCallers(w, Move(cfg, w, NoticeDone).value);
  }

  lemma FlushInOrder(signals: seq<Update>, us: seq<Update>, n: nat)
    requires n <= |FLUSH| && signals + [] == us + FLUSH[..n]
    ensures n < |FLUSH| ==> signals + [FLUSH[n]] + [] == us + FLUSH[..n + 1]
    ensures n == |FLUSH| ==> signals + [] == us + FLUSH
  {
    assert signals == us + FLUSH[..n];
    if n < |FLUSH| {
      assert us + FLUSH[..n] + [FLUSH[n]] == us + FLUSH[..n + 1];
    } else {
      assert FLUSH[..n] == FLUSH;
    }
  }

  lemma LeaveKeeps(cfg: Settings, w: Process, m: Step)
    requires ProcessInv(cfg, w) && Move(cfg, w, m).Some?
    requires m.CloseService? || m.ServiceReturns?
    ensures ProcessInv(cfg, Move(cfg, w, m).value)
  {
    ReachableStep(cfg, w.sys, LeaveLoop);
    SameCallers(w, Move(cfg, w, m).value);
  }

  lemma CallersKeep(cfg: Settings, w: Process, m: Step)
    requires ProcessInv(cfg, w) && Move(cfg, w, m).Some?
    requires m.NewCall? || m.Abort? || m.Return?
    ensures ProcessInv(cfg, Move(cfg, w, m).value)
  {
    match m
    case NewCall => NewCaller(w);
    case Abort(q) => CallerReturns(w, q, false);
    case Return(q) => CallerReturns(w, q, Replied(w.sys.effects, q).value);
  }

  lemma NewCaller(w: Process)
    requires CallersFit(w)
    ensures CallersFit(w.(callers := w.callers + [Calling]))
  {
  }

  lemma CallerReturns(w: Process, q: nat, ok: bool)
    requires CallersFit(w) && q < |w.callers|
    requires Reply(q, ok) in w.sys.effects || (!ok && w.svc.doneCloses > 0)
    ensures CallersFit(w.(callers := w.callers[q := Returned(ok)]))
  {
  }

  lemma MoveKeeps(cfg: Settings, w: Process, m: Step)
    requires ProcessInv(cfg, w) && Move(cfg, w, m).Some?
    ensures ProcessInv(cfg, Move(cfg, w, m).value)
    ensures !m.Drop?
  {
    match m
    case Core(l) => CoreKeeps(cfg, w, l);
    case HandOver => HandOverKeeps(cfg, w);
    case Drop =>
    case Accept(q) => AcceptKeeps(cfg, w, q);
    case CloseService => LeaveKeeps(cfg, w, m);
    case ServiceReturns => LeaveKeeps(cfg, w, m);
    case NewCall => CallersKeep(cfg, w, m);
    case Abort(q) => CallersKeep(cfg, w, m);
    case Return(q) => CallersKeep(cfg, w, m);
    case Store => StoreKeeps(cfg, w);
    case NoticeDone => NoticeKeeps(cfg, w);
    case FlushOne => FlushKeeps(cfg, w);
  }

  lemma StartFits(cfg: Settings)
    ensures ProcessInv(cfg, Start(cfg))
  {
    var none: seq<Label> := [];
    assert Exec(cfg, Init(cfg), none) == Some(Init(cfg));
    NoUpdates(Init(cfg).effects);
  }

  lemma {:induction false} PlayKeeps(cfg: Settings, ms: seq<Step>)
    requires Play(cfg, ms).Some?
    ensures ProcessInv(cfg, Play(cfg, ms).value)
  {
    if ms == [] {
      StartFits(cfg);
    } else {
      PlayKeeps(cfg, ms[..|ms| - 1]);
      MoveKeeps(cfg, Play(cfg, ms[..|ms| - 1]).value, ms[|ms| - 1]);
    }
  }

  lemma HappensInv(cfg: Settings, w: Process)
    requires Happens(cfg, w)
    ensures ProcessInv(cfg, w)
  {
    var ms: seq<Step> :| Play(cfg, ms) == Some(w);
    PlayKeeps(cfg, ms);
  }
}
