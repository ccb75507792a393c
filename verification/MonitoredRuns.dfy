/** Whole runs of the agent with its updates coming from the two file monitors. */
module MonitoredRuns {
  import opened Options
  import opened Kerberos
  import opened Status
  import opened Settings
  import opened Handlers
  import opened System
  import opened KerberosHistory
  import opened Credentials
  import opened RunCondition
  import opened Monitors
  import opened WholeRuns

  /** The agent has taken every ccache update that the monitor has sent for the snapshots xs. */
  ghost predicate CCachesFrom(s: State, xs: seq<CCache>) {
    CCacheUpdates(s.events) == UpdatesOf(Destutter(xs))
  }

  /** The agent has taken n config updates that the monitor has sent for the snapshots xs. */
  ghost predicate ConfsFrom(s: State, xs: seq<KrbConf>, n: nat) {
    ConfUpdates(s.events) == ConfsOf(AtMost(Destutter(xs), n))
  }

  /**
    At every loop head, the running client has the last valid snapshot of the file with a TGT for the realm
    if and only if that snapshot was not passed over: its times were new, or it is the saved one.
   */
  lemma ClientFollowsFile(cfg: Settings, s: State, xs: seq<CCache>, k: nat)
    requires Reachable(cfg, s) && s.pc.AtLoop? && s.a.client.Some? && CCachesFrom(s, xs)
    requires LatestSnapshot(cfg, xs, k)
    ensures s.a.client.value < |s.clients| && k < |xs|
    ensures s.clients[s.a.client.value].ccache == Some(xs[k]) <==> !SnapshotPassedOver(cfg, xs, k)
  {
    LoopIsSequential(cfg, s);
    AgentFollowsFile(cfg, xs, s.events);
    CredentialsAgree(cfg, s);
    LatestIs(cfg, UpdatesOf(xs), k);
  }

  /** Behind the monitors, a client runs exactly on a trusted network with saved credentials, at every loop head. */
  lemma RunConditionHolds(cfg: Settings, s: State, xs: seq<KrbConf>, n: nat)
    requires Reachable(cfg, s) && s.pc.AtLoop? && ConfsFrom(s, xs, n)
    ensures Exact(s.a)
    ensures s.a.client.Some? <==> s.a.trustedNetwork == Trusted && s.a.ccacheUp.Some? && s.a.krbcfgUp.Some?
  {
    MonitorSendsConfs(s.events, AtMost(Destutter(xs), n));
    LoopIsSequential(cfg, s);
    NoShutdownYet(cfg, s);
    NoNilRuns(cfg, s.events);
  }

  /** Behind the monitors no client ever fails a guard of doServiceRequest, and every request carries both credentials. */
  lemma GuardsNeverFail(cfg: Settings, s: State, xs: seq<KrbConf>, n: nat, i: nat)
    requires Reachable(cfg, s) && i < |s.clients| && ConfsFrom(s, xs, n)
    ensures forall act | act in s.clients[i].trace && act.Ended? :: !act.outcome.NoCCache? && !act.outcome.NoConf?
    ensures s.clients[i].pc.Requesting? && s.clients[i].pc.stage.InFlight? ==>
              s.clients[i].pc.stage.ccache.Some? && s.clients[i].pc.stage.conf.Some?
  {
    MonitorSendsConfs(s.events, AtMost(Destutter(xs), n));
    GuardsNeverTaken(cfg, s, i);
  }
}
