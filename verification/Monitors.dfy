/** The file monitors for the credential cache and krb5.conf (internal/krbmon). */
module Monitors {
  import opened Options
  import opened Status
  import opened Kerberos
  import opened Settings
  import opened Handlers
  import opened KerberosHistory

  // ---------------------------------------------------------------- removing repetitions

  /** xs without elements equal to the one before them. */
  function Destutter<T(==)>(xs: seq<T>): seq<T> {
    if |xs| <= 1 then xs
    else if xs[|xs| - 1] == xs[|xs| - 2] then Destutter(xs[..|xs| - 1])
    else Destutter(xs[..|xs| - 1]) + [xs[|xs| - 1]]
  }

  ghost predicate AdjacentDiffer<T>(xs: seq<T>) {
    forall i | 0 < i < |xs| :: xs[i - 1] != xs[i]
  }

  /** xs repeats each element of ys one or more times. */
  ghost predicate Repeats<T>(ys: seq<T>, xs: seq<T>)
    decreases |xs|
  {
    if xs == [] || ys == [] then xs == [] && ys == []
    else
      && xs[|xs| - 1] == ys[|ys| - 1]
      && (Repeats(ys, xs[..|xs| - 1]) || Repeats(ys[..|ys| - 1], xs[..|xs| - 1]))
  }

  lemma {:induction false} DestutterRepeats<T>(xs: seq<T>)
    ensures Repeats(Destutter(xs), xs) && AdjacentDiffer(Destutter(xs))
    ensures xs != [] ==> Destutter(xs) != [] && Destutter(xs)[|Destutter(xs)| - 1] == xs[|xs| - 1]
  {
    if |xs| == 1 {
      assert xs[..0] == [];
      assert Repeats(xs[..0], xs[..0]);
    } else if |xs| > 1 {
      var p := xs[..|xs| - 1];
      DestutterRepeats(p);
      if xs[|xs| - 1] != xs[|xs| - 2] {
        assert Destutter(xs)[..|Destutter(xs)| - 1] == Destutter(p);
      }
    }
  }

  /** The only sequence without repetitions that xs repeats is Destutter(xs). */
  lemma {:induction false} DestutterUnique<T>(ys: seq<T>, xs: seq<T>)
    requires Repeats(ys, xs) && AdjacentDiffer(ys)
    ensures ys == Destutter(xs)
    decreases |xs|
  {
    if xs != [] {
      var p, q := xs[..|xs| - 1], ys[..|ys| - 1];
      DestutterRepeats(p);
      if Repeats(ys, p) {
        DestutterUnique(ys, p);
      } else {
        DestutterUnique(q, p);
        assert ys == q + [ys[|ys| - 1]];
        if q != [] {
          assert ys[|ys| - 2] != ys[|ys| - 1];
        }
      }
    }
  }

  // ---------------------------------------------------------------- the monitor

  /** What the event loop of a monitor receives; content is what loading the file then gives. */
  datatype Input<T> = FileEvent(name: string, content: Option<T>) | WatchError | EventsClosed | ErrorsClosed | Done

  predicate Ends<T>(x: Input<T>) { x.EventsClosed? || x.ErrorsClosed? || x.Done? }

  /** The snapshot of the file that an input brings, if it could be read and parsed. */
  function Snapshot<T>(file: string, x: Input<T>): seq<T> {
    if x.FileEvent? && x.name == file && x.content.Some? then [x.content.value] else []
  }

  function Snapshots<T>(file: string, xs: seq<Input<T>>): seq<T> {
    if xs == [] then [] else Snapshots(file, xs[..|xs| - 1]) + Snapshot(file, xs[|xs| - 1])
  }

  /** How many inputs are handled: up to and with the first that ends the loop. */
  function Handled<T>(xs: seq<Input<T>>): (n: nat)
    ensures n <= |xs|
  {
    if xs == [] then 0 else if Ends(xs[0]) then 1 else 1 + Handled(xs[1..])
  }

  function AtMost<T>(xs: seq<T>, n: nat): seq<T> { if |xs| <= n then xs else xs[..n] }

  /** A file of 68 bytes or less is not even parsed as a ccache. */
  function CCacheSnapshot(unmarshal: seq<bv8> -> Option<CCache>, file: Option<seq<bv8>>): Option<CCache> {
    if file.None? then None
    else if |file.value| < 69 then None
    else unmarshal(file.value)
  }

  lemma {:induction false} SnapshotsConcat<T>(file: string, xs: seq<Input<T>>, ys: seq<Input<T>>)
    ensures Snapshots(file, xs + ys) == Snapshots(file, xs) + Snapshots(file, ys)
  {
    if ys == [] {
      assert xs + ys == xs;
    } else {
      assert (xs + ys)[..|xs + ys| - 1] == xs + ys[..|ys| - 1];
      SnapshotsConcat(file, xs, ys[..|ys| - 1]);
    }
  }

  /** An input adds to what the monitor delivers only if it is a valid snapshot of the file. */
  lemma InvalidIsIgnored<T>(file: string, xs: seq<Input<T>>, x: Input<T>, ys: seq<Input<T>>)
    ensures Snapshots(file, xs + [x] + ys) == Snapshots(file, xs + ys) <==> !(x.FileEvent? && x.name == file && x.content.Some?)
  {
    assert [x][..0] == [];
    SnapshotsConcat(file, xs + [x], ys);
    SnapshotsConcat(file, xs, [x]);
    SnapshotsConcat(file, xs, ys);
  }

  /** Files too short for a ccache, like missing or malformed ones, leave no trace in what is delivered. */
  lemma ShortFileIsIgnored(unmarshal: seq<bv8> -> Option<CCache>, file: string, xs: seq<Input<CCache>>,
                           b: seq<bv8>, ys: seq<Input<CCache>>)
    requires |b| <= 68
    ensures Destutter(Snapshots(file, xs + [FileEvent(file, CCacheSnapshot(unmarshal, Some(b)))] + ys)) ==
            Destutter(Snapshots(file, xs + ys))
  {
    InvalidIsIgnored(file, xs, FileEvent(file, CCacheSnapshot(unmarshal, Some(b))), ys);
  }

  /** A file of 69 bytes or more that unmarshals is a snapshot, with what unmarshalling gives. */
  lemma LongFileIsSeen(unmarshal: seq<bv8> -> Option<CCache>, file: string, xs: seq<Input<CCache>>,
                       b: seq<bv8>, c: CCache, ys: seq<Input<CCache>>)
    requires |b| >= 69 && unmarshal(b) == Some(c)
    ensures Snapshots(file, xs + [FileEvent(file, CCacheSnapshot(unmarshal, Some(b)))] + ys) ==
            Snapshots(file, xs) + [c] + Snapshots(file, ys)
  {
    var x := FileEvent(file, CCacheSnapshot(unmarshal, Some(b)));
    assert [x][..0] == [];
    assert Snapshots(file, [x]) == Snapshots(file, []) + [c];
    SnapshotsConcat(file, xs + [x], ys);
    SnapshotsConcat(file, xs, [x]);
  }

  // ---------------------------------------------------------------- which inputs end the loop

  /** File events and watcher errors are all handled. */
  lemma {:induction false} HandlesAll<T>(xs: seq<Input<T>>)
    requires forall x | x in xs :: x.FileEvent? || x.WatchError?
    ensures Handled(xs) == |xs|
  {
    if xs != [] {
      assert xs[0] in xs;
      HandlesAll(xs[1..]);
    }
  }

  lemma AllHandled<T>(xs: seq<Input<T>>)
    ensures (forall x | x in xs :: x.FileEvent? || x.WatchError?) ==> Handled(xs) == |xs|
  {
    if forall x | x in xs :: x.FileEvent? || x.WatchError? {
      HandlesAll(xs);
    }
  }

  /** The first input of another kind is the last one handled. */
  lemma {:induction false} HandlesTo<T>(xs: seq<Input<T>>, k: nat)
    requires k < |xs| && (xs[k].EventsClosed? || xs[k].ErrorsClosed? || xs[k].Done?)
    requires forall i | 0 <= i < k :: xs[i].FileEvent? || xs[i].WatchError?
    ensures Handled(xs) == k + 1
    decreases k
  {
    if k > 0 {
      HandlesTo(xs[1..], k - 1);
    }
  }

  /** The inputs without the watcher errors. */
  function WithoutErrors<T>(xs: seq<Input<T>>): seq<Input<T>> {
    if xs == [] then [] else (if xs[0].WatchError? then [] else [xs[0]]) + WithoutErrors(xs[1..])
  }

  lemma {:induction false} ErrorsBringNothing<T>(file: string, xs: seq<Input<T>>)
    ensures Snapshots(file, WithoutErrors(xs)) == Snapshots(file, xs)
  {
    if xs != [] {
      var first := if xs[0].WatchError? then [] else [xs[0]];
      ErrorsBringNothing(file, xs[1..]);
      SnapshotsConcat(file, first, WithoutErrors(xs[1..]));
      SnapshotsConcat(file, [xs[0]], xs[1..]);
      assert [xs[0]] + xs[1..] == xs;
      OneSnapshot(file, xs[0]);
    }
  }

  lemma OneSnapshot<T>(file: string, x: Input<T>)
    ensures Snapshots(file, [x]) == Snapshot(file, x)
  {
    assert [x][..0] == [];
    assert Snapshots(file, [x]) == Snapshots(file, []) + Snapshot(file, x);
  }

  lemma {:induction false} HandledWithoutErrors<T>(xs: seq<Input<T>>)
    ensures WithoutErrors(xs)[..Handled(WithoutErrors(xs))] == WithoutErrors(xs[..Handled(xs)])
  {
    if xs != [] {
      var x, rest := xs[0], xs[1..];
      HandledWithoutErrors(rest);
      if x.WatchError? {
        assert xs[..1 + Handled(rest)][1..] == rest[..Handled(rest)];
        assert WithoutErrors(xs) == WithoutErrors(rest);
        assert WithoutErrors(xs[..1 + Handled(rest)]) == WithoutErrors(rest[..Handled(rest)]);
      } else if x.FileEvent? {
        assert xs[..1 + Handled(rest)][1..] == rest[..Handled(rest)];
        assert ([x] + WithoutErrors(rest))[1..] == WithoutErrors(rest);
      } else {
        assert xs[..1] == [x] && [x][1..] == [];
      }
    }
  }

  /** Watcher errors can come or not: the monitor sees the same snapshots. */
  lemma ErrorsChangeNothing<T>(file: string, initial: Option<T>, xs: seq<Input<T>>)
    ensures SnapshotsAt(file, initial, WithoutErrors(xs), Handled(WithoutErrors(xs))) == SnapshotsAt(file, initial, xs, Handled(xs))
  {
    var first: seq<Input<T>> := [FileEvent(file, initial)];
    HandledWithoutErrors(xs);
    ErrorsBringNothing(file, xs[..Handled(xs)]);
    SnapshotsConcat(file, first, xs[..Handled(xs)]);
    SnapshotsConcat(file, first, WithoutErrors(xs)[..Handled(WithoutErrors(xs))]);
  }

  lemma DestutterNext<T>(xs: seq<T>, x: T)
    ensures Destutter(xs + [x]) == if xs != [] && xs[|xs| - 1] == x then Destutter(xs) else Destutter(xs) + [x]
  {
    assert (xs + [x])[..|xs|] == xs;
  }

  lemma AtMostNext<T>(xs: seq<T>, x: T, n: nat)
    ensures AtMost(xs + [x], n) == if |AtMost(xs, n)| < n then AtMost(xs, n) + [x] else AtMost(xs, n)
  {
  }

  /** One more snapshot: delivered unless it repeats the last one or the receiver has enough. */
  lemma DeliverNext<T>(seen: seq<T>, x: T, n: nat)
    ensures seen != [] && seen[|seen| - 1] == x ==> AtMost(Destutter(seen + [x]), n) == AtMost(Destutter(seen), n)
    ensures seen == [] || seen[|seen| - 1] != x ==>
              var d := AtMost(Destutter(seen), n);
              AtMost(Destutter(seen + [x]), n) == if |d| < n then d + [x] else d
  {
    DestutterNext(seen, x);
    AtMostNext(Destutter(seen), x, n);
  }

  /** The snapshots seen from the initial file and the first n inputs. */
  function SnapshotsAt<T>(file: string, initial: Option<T>, xs: seq<Input<T>>, n: nat): seq<T>
    requires n <= |xs|
  {
    Snapshots(file, [FileEvent(file, initial)] + xs[..n])
  }

  lemma SnapshotsFirst<T>(file: string, initial: Option<T>, xs: seq<Input<T>>)
    ensures SnapshotsAt(file, initial, xs, 0) == Snapshot(file, FileEvent(file, initial))
  {
    var first: seq<Input<T>> := [FileEvent(file, initial)];
    assert first + xs[..0] == first && first[..|first| - 1] == [];
    assert Snapshots(file, first) == Snapshots(file, []) + Snapshot(file, first[0]);
  }

  /** The file as it is at the start comes first. */
  lemma InitialIsSeen<T>(file: string, initial: Option<T>, xs: seq<Input<T>>, n: nat)
    requires n <= |xs|
    ensures SnapshotsAt(file, initial, xs, n) == (if initial.Some? then [initial.value] else []) + Snapshots(file, xs[..n])
  {
    var first: Input<T> := FileEvent(file, initial);
    SnapshotsConcat(file, [first], xs[..n]);
    OneSnapshot(file, first);
  }

  lemma SnapshotsNext<T>(file: string, initial: Option<T>, xs: seq<Input<T>>, n: nat)
    requires n < |xs|
    ensures SnapshotsAt(file, initial, xs, n + 1) == SnapshotsAt(file, initial, xs, n) + Snapshot(file, xs[n])
  {
    var first: seq<Input<T>> := [FileEvent(file, initial)];
    assert (first + xs[..n + 1])[..|first| + n] == first + xs[..n];
  }

  /** The first n inputs are handled; running says whether more of them are. */
  ghost predicate RanTo<T>(xs: seq<Input<T>>, n: nat, running: bool)
    requires n <= |xs|
  {
    Handled(xs) == if running then n + Handled(xs[n..]) else n
  }

  lemma RanAll<T>(xs: seq<Input<T>>, n: nat, running: bool)
    requires n <= |xs| && RanTo(xs, n, running) && (n == |xs| || !running)
    ensures n == Handled(xs)
  {
    assert running ==> xs[n..] == [];
  }

  lemma RanFirst<T>(xs: seq<Input<T>>)
    ensures RanTo(xs, 0, true)
  {
    assert xs[0..] == xs;
  }

  lemma RanNext<T>(xs: seq<Input<T>>, n: nat)
    requires n < |xs| && RanTo(xs, n, true)
    ensures RanTo(xs, n + 1, !Ends(xs[n]))
  {
    assert xs[n..][1..] == xs[n + 1..];
  }

  /**
    CCacheMon and ConfMon differ only in what they load. takes is the number of updates the receiver
    takes before done is closed; from then on sendUpdate leaves through done.
   */
  class FileMonitor<T(==)> {
    const file: string
    const takes: nat
    var stored: Option<T>
    var delivered: seq<T>
    var updatesClosed: bool
    var closed: bool

    /** All valid snapshots seen so far, which exist only to specify the monitor. */
    ghost var seen: seq<T>

    ghost predicate Valid()
      reads this
    {
      && (stored.None? <==> seen == [])
      && (stored.Some? ==> stored.value == seen[|seen| - 1])
      && delivered == AtMost(Destutter(seen), takes)
    }

    constructor (file: string, takes: nat)
      ensures Valid() && seen == [] && this.file == file && this.takes == takes && !updatesClosed && !closed
    {
      this.file, this.takes := file, takes;
      stored, delivered, updatesClosed, closed, seen := None, [], false, false, [];
    }

    method SendUpdate(update: T)
      modifies this`delivered
      ensures delivered == if |old(delivered)| < takes then old(delivered) + [update] else old(delivered)
    {
      if |delivered| < takes {
        delivered := delivered + [update];
      }
    }

    method HandleFileEvent(name: string, content: Option<T>)
      requires Valid()
      modifies this`stored, this`delivered, this`seen
      ensures Valid()
      ensures seen == old(seen) + Snapshot(file, FileEvent(name, content))
    {
      if name != file {
        return;
      }
      if content.None? {
        return;
      }
      DeliverNext(seen, content.value, takes);
      seen := seen + [content.value];
      if content == stored {
        return;
      }
      stored := content;
      SendUpdate(content.value);
    }

    /** One round of the event loop, which goes on unless the input ends it. */
    method HandleInput(x: Input<T>) returns (running: bool)
      requires Valid()
      modifies this`stored, this`delivered, this`seen
      ensures Valid() && seen == old(seen) + Snapshot(file, x)
      ensures running == !Ends(x)
    {
      running := true;
      match x {
        case FileEvent(name, content) => HandleFileEvent(name, content);
        case WatchError =>
        case _ => running := false;
      }
    }

    /** The goroutine: the file as it is at the start, then the inputs until one ends the loop. */
    method Start(initial: Option<T>, inputs: seq<Input<T>>)
      requires Valid() && seen == []
      modifies this
      ensures Valid()
      ensures seen == SnapshotsAt(file, initial, inputs, Handled(inputs))
      ensures (forall x | x in inputs :: x.FileEvent? || x.WatchError?) ==> seen == SnapshotsAt(file, initial, inputs, |inputs|)
      ensures updatesClosed && closed
    {
      HandleFileEvent(file, initial);
      SnapshotsFirst(file, initial, inputs);
      RanFirst(inputs);
      var i := 0;
      var running := true;
      while i < |inputs| && running
        invariant i <= |inputs|
        invariant Valid() && seen == SnapshotsAt(file, initial, inputs, i)
        invariant RanTo(inputs, i, running)
        decreases |inputs| - i
      {
        SnapshotsNext(file, initial, inputs, i);
        RanNext(inputs, i);
        running := HandleInput(inputs[i]);
        i := i + 1;
      }
      RanAll(inputs, i, running);
      AllHandled(inputs);
      updatesClosed := true;
      closed := true;
    }
  }

  // ---------------------------------------------------------------- the agent behind the ccache monitor

  /** The ccache updates among the agent's events. */
  function CCacheUpdates(events: seq<Event>): seq<Event> {
    if events == [] then []
    else CCacheUpdates(events[..|events| - 1]) + if events[|events| - 1].CCacheUp? then [events[|events| - 1]] else []
  }

  function UpdatesOf(xs: seq<CCache>): seq<Event> {
    seq(|xs|, i requires 0 <= i < |xs| => CCacheUp(CCacheUpdate(Some(xs[i]))))
  }

  /** The times of the last snapshot that has a TGT for the realm. */
  function SnapshotTGT(cfg: Settings, xs: seq<CCache>): KerberosTicket {
    if xs == [] then KerberosTicket(0, 0)
    else
      var tgt := GetTGT(CCacheUpdate(Some(xs[|xs| - 1])), cfg.realm);
      if tgt.Some? then tgt.value else SnapshotTGT(cfg, xs[..|xs| - 1])
  }

  lemma {:induction false} OnlyCCacheUpdatesCount(cfg: Settings, events: seq<Event>)
    requires AllValid(events)
    ensures AllValid(CCacheUpdates(events)) && LatestTGT(cfg, events) == LatestTGT(cfg, CCacheUpdates(events))
    ensures SavedUpdate(cfg, events) == SavedUpdate(cfg, CCacheUpdates(events))
  {
    if events != [] {
      var p, e := events[..|events| - 1], events[|events| - 1];
      assert e in events;
      OnlyCCacheUpdatesCount(cfg, p);
      if e.CCacheUp? {
        assert CCacheUpdates(events)[..|CCacheUpdates(events)| - 1] == CCacheUpdates(p);
      } else {
        assert CCacheUpdates(events) == CCacheUpdates(p);
      }
    }
  }

  lemma {:induction false} TGTOfUpdates(cfg: Settings, xs: seq<CCache>)
    ensures AllValid(UpdatesOf(xs)) && LatestTGT(cfg, UpdatesOf(xs)) == SnapshotTGT(cfg, xs)
  {
    if xs != [] {
      TGTOfUpdates(cfg, xs[..|xs| - 1]);
      assert UpdatesOf(xs)[..|xs| - 1] == UpdatesOf(xs[..|xs| - 1]);
    }
  }

  lemma {:induction false} DestutterKeepsTGT(cfg: Settings, xs: seq<CCache>)
    ensures SnapshotTGT(cfg, Destutter(xs)) == SnapshotTGT(cfg, xs)
  {
    if |xs| > 1 {
      var p := xs[..|xs| - 1];
      DestutterKeepsTGT(cfg, p);
      if xs[|xs| - 1] != xs[|xs| - 2] {
        assert Destutter(xs)[..|Destutter(xs)| - 1] == Destutter(p);
      } else {
        assert p[|p| - 1] == xs[|xs| - 1];
      }
    }
  }

  lemma UpdatesValid(xs: seq<CCache>)
    ensures AllValid(UpdatesOf(xs))
  {
  }

  /** The ccache saved from a sequence of snapshots; repeating a snapshot changes nothing. */
  ghost function SavedSnapshot(cfg: Settings, xs: seq<CCache>): Option<CCacheUpdate> {
    UpdatesValid(xs);
    SavedUpdate(cfg, UpdatesOf(xs))
  }

  /** Snapshot k is the last one with a TGT for the realm. */
  ghost predicate LatestSnapshot(cfg: Settings, xs: seq<CCache>, k: nat) {
    UpdatesValid(xs);
    IsLatest(cfg, UpdatesOf(xs), k)
  }

  /** Snapshot k has the times remembered by then, in a ccache other than the one saved by then. */
  ghost predicate SnapshotPassedOver(cfg: Settings, xs: seq<CCache>, k: nat)
    requires k < |xs|
  {
    UpdatesValid(xs);
    PassedOver(cfg, UpdatesOf(xs), k)
  }

  lemma SavedNext(cfg: Settings, xs: seq<CCache>, x: CCache)
    ensures SavedSnapshot(cfg, xs + [x]) ==
            var tgt := GetTGT(CCacheUpdate(Some(x)), cfg.realm);
            if tgt.Some? && tgt.value != SnapshotTGT(cfg, xs) then Some(CCacheUpdate(Some(x))) else SavedSnapshot(cfg, xs)
  {
    TGTOfUpdates(cfg, xs);
    UpdatesValid(xs + [x]);
    assert UpdatesOf(xs + [x])[..|xs|] == UpdatesOf(xs);
  }

  lemma {:induction false} DestutterKeepsSaved(cfg: Settings, xs: seq<CCache>)
    ensures SavedSnapshot(cfg, Destutter(xs)) == SavedSnapshot(cfg, xs)
  {
    if |xs| > 1 {
      var p, x := xs[..|xs| - 1], xs[|xs| - 1];
      assert xs == p + [x];
      DestutterKeepsSaved(cfg, p);
      DestutterKeepsTGT(cfg, p);
      SavedNext(cfg, p, x);
      if x != xs[|xs| - 2] {
        SavedNext(cfg, Destutter(p), x);
      }
    }
  }

  /**
    If the agent's ccache updates are those of the monitor, whatever its other events are, its TGT times
    are those of the last valid snapshot of the file that had a TGT for the realm, and the saved ccache is
    the last such snapshot whose times were new.
   */
  lemma AgentFollowsFile(cfg: Settings, xs: seq<CCache>, events: seq<Event>)
    requires AllValid(events) && CCacheUpdates(events) == UpdatesOf(Destutter(xs))
    ensures HandleAll(cfg, events).a.kerberosTGT == SnapshotTGT(cfg, xs)
    ensures HandleAll(cfg, events).a.ccacheUp == SavedSnapshot(cfg, xs)
  {
    KerberosRemembered(cfg, events);
    OnlyCCacheUpdatesCount(cfg, events);
    TGTOfUpdates(cfg, Destutter(xs));
    DestutterKeepsTGT(cfg, xs);
    DestutterKeepsSaved(cfg, xs);
  }

  // ---------------------------------------------------------------- the agent behind the krb5.conf monitor

  /** The config updates among the agent's events. */
  function ConfUpdates(events: seq<Event>): seq<Event> {
    if events == [] then []
    else ConfUpdates(events[..|events| - 1]) + if events[|events| - 1].ConfUp? then [events[|events| - 1]] else []
  }

  function ConfsOf(xs: seq<KrbConf>): seq<Event> {
    seq(|xs|, i requires 0 <= i < |xs| => ConfUp(ConfUpdate(Some(xs[i]))))
  }

  lemma {:induction false} ConfIsUpdate(events: seq<Event>, e: Event)
    requires e in events && e.ConfUp?
    ensures e in ConfUpdates(events)
  {
    if e != events[|events| - 1] {
      ConfIsUpdate(events[..|events| - 1], e);
    }
  }

  /** A monitor of the config file never sends an update without a config. */
  lemma MonitorSendsConfs(events: seq<Event>, xs: seq<KrbConf>)
    requires ConfUpdates(events) == ConfsOf(xs)
    ensures NoNilConf(events)
  {
    forall e | e in events && e.ConfUp?
      ensures e.conf.config.Some?
    {
      ConfIsUpdate(events, e);
    }
  }
}
