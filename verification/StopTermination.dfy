/** Client.Stop always returns: the client is never stuck, and a bounded number of steps is left. */
module StopTermination {
  import opened Options
  import opened Settings
  import opened ClientMachine
  import opened AgentMachine
  import opened System
  import opened SystemInvariant

  function StageRank(s: Stage): nat {
    match s
    case InFlight(_, _) => 0
    case ReadConf(_) => 1
    case ReadCCache => 2
    case CheckConf => 3
    case CheckCCache => 4
    case Enter => 5
  }

  function PlaceRank(pc: ClientPC): nat {
    match pc
    case Dead => 0
    case ClosingClosed => 1
    case ClosingResults => 2
    case Draining => 3
    case StoppingTimer => 4
    case Sending(_, next) =>
      (match next
       case ToStopTimer => 5
       case ToLogout => 12
       case ToReset(_) => 16
       case ToLogin => 23)
    case Requesting(op, s) => (if op == Logout then 6 else 17) + StageRank(s)
    case AtSelect => 13
    case Resetting(_) => 15
  }

  /** How far the goroutine is from its end when it does not start another login. */
  function Rank(c: Client): nat {
    PlaceRank(c.pc) + if c.timer.Armed? then 1 else 0
  }

  /** The move that brings a client on without starting a login; requests are taken to end somehow. */
  function Onward(c: Client): Move {
    match c.pc
    case AtSelect => TakeDone
    case Sending(_, _) => TakeDone
    case Requesting(_, stage) => if stage.InFlight? then Respond(Failed) else Go
    case _ => Go
  }

  lemma OnwardEnabled(cfg: Settings, c: Client)
    requires ClientInv(cfg, c) && c.doneCloses > 0 && !c.pc.Dead?
    ensures ClientStep(cfg, c, Onward(c)).Some?
    ensures Onward(c) != TakeTimer && Onward(c) != Expire
  {
  }

  /** Every move gets closer to the end, except that receiving a firing starts a login. */
  lemma MoveRanks(cfg: Settings, c: Client, m: Move)
    requires ClientStep(cfg, c, m).Some?
    ensures var d := ClientStep(cfg, c, m).value;
            if m == TakeTimer then Rank(d) == Rank(c) + 10 else Rank(d) < Rank(c)
  {
  }

  function TimerArms(ls: seq<Label>): nat {
    if ls == [] then 0
    else TimerArms(ls[..|ls| - 1]) + if ls[|ls| - 1].Act? && ls[|ls| - 1].move == TakeTimer then 1 else 0
  }

  function CountBegan(op: Operation, t: seq<Entry>): nat {
    if t == [] then 0 else CountBegan(op, t[..|t| - 1]) + if t[|t| - 1].act == Began(op) then 1 else 0
  }

  /** A login that has been started and whose request has not begun. */
  function LoginDue(pc: ClientPC): nat {
    if (pc.Sending? && pc.next.ToLogin?) || (pc.Requesting? && pc.op == Login && pc.stage.Enter?) then 1 else 0
  }

  function LogoutDue(pc: ClientPC): nat {
    match pc
    case Sending(_, next) => if next.ToStopTimer? then 0 else 1
    case Requesting(op, stage) => if op == Logout && !stage.Enter? then 0 else 1
    case AtSelect => 1
    case Resetting(_) => 1
    case _ => 0
  }

  /** One step taken while the agent waits in Client.Stop is a move of the client it waits for. */
  lemma WaitingStep(cfg: Settings, s: State, l: Label)
    requires Inv(cfg, s) && s.pc.InStop?
    requires Do(cfg, s, l).Some? && Do(cfg, s, l).value.pc.InStop?
    ensures l.Act? && s.a.client == Some(l.id)
    ensures ClientStep(cfg, s.clients[l.id], l.move).Some?
    ensures Do(cfg, s, l).value == SetClient(s, l.id, ClientStep(cfg, s.clients[l.id], l.move).value)
  {
    if l.Act? {
      ActKeeps(cfg, s, l.id, l.move);
    }
  }

  lemma CountOneMore(op: Operation, t: seq<Entry>, e: Entry)
    ensures CountBegan(op, t + [e]) == CountBegan(op, t) + if e.act == Began(op) then 1 else 0
  {
    assert (t + [e])[..|t|] == t;
  }

  /** What a step from c to d begins, less what it makes due: with one more login due for a firing received. */
  predicate Owes(c: Client, d: Client, firings: nat) {
    var began := if |d.trace| > |c.trace| && d.trace[|d.trace| - 1].Began? then Some(d.trace[|d.trace| - 1].op) else None;
    && (if began == Some(Login) then 1 else 0) + LoginDue(d.pc) == LoginDue(c.pc) + firings
    && (if began == Some(Logout) then 1 else 0) + LogoutDue(d.pc) == LogoutDue(c.pc)
  }

  lemma MoveOwes(cfg: Settings, c: Client, m: Move)
    requires ClientInv(cfg, c) && ClientStep(cfg, c, m).Some?
    ensures Owes(c, ClientStep(cfg, c, m).value, if m == TakeTimer then 1 else 0)
  {
  }

  lemma MoveCounts(s: State, i: nat, d: Client, firings: nat)
    requires i < |s.clients| && Owes(s.clients[i], d, firings)
    ensures var c, t := s.clients[i], SetClient(s, i, d);
            && CountBegan(Login, t.trace) + LoginDue(d.pc) == CountBegan(Login, s.trace) + LoginDue(c.pc) + firings
            && CountBegan(Logout, t.trace) + LogoutDue(d.pc) == CountBegan(Logout, s.trace) + LogoutDue(c.pc)
  {
    if |d.trace| > |s.clients[i].trace| {
      CountOneMore(Login, s.trace, Entry(i, d.trace[|d.trace| - 1]));
      CountOneMore(Logout, s.trace, Entry(i, d.trace[|d.trace| - 1]));
    }
  }

  /**
    While the agent waits in Client.Stop, the client has an enabled move that starts no login, or it has
    closed its channel and Stop can return.
   */
  lemma StopIsNeverStuck(cfg: Settings, s: State)
    requires Reachable(cfg, s) && s.pc.InStop?
    ensures s.a.client.Some? && s.a.client.value < |s.clients|
    ensures var i := s.a.client.value;
            if s.clients[i].pc.Dead? then Do(cfg, s, StopReturns).Some?
            else Do(cfg, s, Act(i, Onward(s.clients[i]))).Some? && Onward(s.clients[i]) != TakeTimer
  {
    ReachableInv(cfg, s);
    ClientGoesOn(cfg, s, s.a.client.value);
  }

  lemma ClientGoesOn(cfg: Settings, s: State, i: nat)
    requires Inv(cfg, s) && s.pc.InStop? && s.a.client == Some(i) && i < |s.clients|
    ensures if s.clients[i].pc.Dead? then Do(cfg, s, StopReturns).Some?
            else Do(cfg, s, Act(i, Onward(s.clients[i]))).Some? && Onward(s.clients[i]) != TakeTimer
  {
    var c := s.clients[i];
    assert ClientInv(cfg, c);
    if !c.pc.Dead? {
      OnwardEnabled(cfg, c);
    }
  }

  /** Every label of ls is enabled in turn, and the agent stays in Client.Stop throughout. */
  ghost predicate Waiting(cfg: Settings, s: State, ls: seq<Label>) {
    forall n | 0 <= n <= |ls| :: Exec(cfg, s, ls[..n]).Some? && Exec(cfg, s, ls[..n]).value.pc.InStop?
  }

  /** What any stretch of a run within one Client.Stop amounts to. */
  lemma {:induction false} WaitingRun(cfg: Settings, s: State, ls: seq<Label>)
    requires Inv(cfg, s) && s.pc.InStop?
    requires Waiting(cfg, s, ls)
    ensures Exec(cfg, s, ls).Some?
    ensures var t := Exec(cfg, s, ls).value;
            && Inv(cfg, t) && t.pc == s.pc && t.a == s.a && |t.clients| == |s.clients|
            && (var c, d := s.clients[s.a.client.value], t.clients[s.a.client.value];
                && |ls| + Rank(d) <= Rank(c) + 11 * TimerArms(ls)
                && CountBegan(Login, t.trace) + LoginDue(d.pc) == CountBegan(Login, s.trace) + LoginDue(c.pc) + TimerArms(ls)
                && CountBegan(Logout, t.trace) + LogoutDue(d.pc) == CountBegan(Logout, s.trace) + LogoutDue(c.pc))
  {
    assert ls[..|ls|] == ls;
    if ls != [] {
      var p := ls[..|ls| - 1];
      assert forall n | 0 <= n <= |p| :: p[..n] == ls[..n];
      WaitingRun(cfg, s, p);
      var t := Exec(cfg, s, p).value;
      var l := ls[|ls| - 1];
      WaitingStep(cfg, t, l);
      MoveRanks(cfg, t.clients[l.id], l.move);
      assert ClientInv(cfg, t.clients[l.id]);
      MoveOwes(cfg, t.clients[l.id], l.move);
      MoveCounts(t, l.id, ClientStep(cfg, t.clients[l.id], l.move).value, if l.move == TakeTimer then 1 else 0);
      InvStep(cfg, t, l);
    }
  }

  /**
    With at most k firings received, a Client.Stop takes at most 24 + 11k steps of the client, in which at
    most k + 1 further login requests and one logout request begin; by StopIsNeverStuck it can go on until
    the client is gone, and then returns.
   */
  lemma StopIsBounded(cfg: Settings, s: State, ls: seq<Label>, k: nat)
    requires Reachable(cfg, s) && s.pc.InStop? && Waiting(cfg, s, ls) && TimerArms(ls) <= k
    ensures |ls| <= 24 + 11 * k
    ensures Exec(cfg, s, ls).Some?
    ensures var t := Exec(cfg, s, ls).value;
            && CountBegan(Login, t.trace) <= CountBegan(Login, s.trace) + k + 1
            && CountBegan(Logout, t.trace) <= CountBegan(Logout, s.trace) + 1
  {
    ReachableInv(cfg, s);
    WaitingRun(cfg, s, ls);
    RankBound(s.clients[s.a.client.value]);
  }

  lemma RankBound(c: Client)
    ensures Rank(c) <= 24 && LoginDue(c.pc) <= 1 && LogoutDue(c.pc) <= 1
  {
  }

  lemma ExecOne(cfg: Settings, s: State, l: Label)
    ensures Exec(cfg, s, [l]) == Do(cfg, s, l)
  {
    assert [l][..0] == [];
    assert Exec(cfg, s, []) == Some(s);
  }

  /** A run can be read from its first step as well as from its last. */
  lemma {:induction false} ExecFirst(cfg: Settings, s: State, l: Label, t: State, ls: seq<Label>)
    requires Do(cfg, s, l) == Some(t)
    ensures Exec(cfg, s, [l] + ls) == Exec(cfg, t, ls)
    decreases |ls|
  {
    if ls == [] {
      assert [l] + ls == [l];
      ExecOne(cfg, s, l);
    } else {
      var p := ls[..|ls| - 1];
      ExecFirst(cfg, s, l, t, p);
      var all := [l] + ls;
      assert all[..|all| - 1] == [l] + p;
      assert all[|all| - 1] == ls[|ls| - 1];
    }
  }

  /** From any point inside Client.Stop the run can be continued to its return without another login. */
  lemma {:induction false} StopReturnsFrom(cfg: Settings, s: State) returns (ls: seq<Label>)
    requires Inv(cfg, s) && s.pc.InStop?
    ensures forall l | l in ls :: l == StopReturns || (l.Act? && l.move != TakeTimer)
    ensures |ls| <= Rank(s.clients[s.a.client.value]) + 1
    ensures Exec(cfg, s, ls).Some? && !Exec(cfg, s, ls).value.pc.InStop?
    ensures Exec(cfg, s, ls).value.a.client.None?
    ensures var t, l := Exec(cfg, s, ls).value, AfterJoin(cfg, s.a, s.pc.after);
            t.a == l.a && t.pc == l.pc && t.events == s.events
    decreases Rank(s.clients[s.a.client.value])
  {
    var i := s.a.client.value;
    var c := s.clients[i];
    assert ClientInv(cfg, c);
    if c.pc.Dead? {
      ls := [StopReturns];
      assert ls[..0] == [];
    } else {
      var l := Act(i, Onward(c));
      OnwardEnabled(cfg, c);
      MoveRanks(cfg, c, Onward(c));
      InvStep(cfg, s, l);
      var rest := StopReturnsFrom(cfg, Do(cfg, s, l).value);
      ls := [l] + rest;
      ExecFirst(cfg, s, l, Do(cfg, s, l).value, rest);
    }
  }
}
