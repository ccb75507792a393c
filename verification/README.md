# Verification model of fw-id-agent

The identity agent is an event loop that owns a login client running in a goroutine of its own. It publishes
its state through a D-Bus service goroutine, and remote subscribers rebuild that state from change signals.
This project models those parts and the rendezvous between them, and proves what holds in every run and for
every interleaving. `dafny verify dfyconfig.toml` checks it.

## How the model is built

The agent appears in three forms, each tied to the next by a proof:

1. `AgentObject.IdentityAgent` is the agent as the source has it: a class whose handlers change its fields
   and call the client, the service and the notifier. `Start` is the main loop.
2. `Handlers` gives each handler as a function that runs to completion. The methods of the class are proved
   equal to these functions, in fields and in calls; the loop is proved equal to `HandleAll`.
3. `AgentMachine` cuts the same handlers at their blocking points (the rendezvous in `SetProperty` and the
   wait in `Client.Stop`). `System` runs it next to the goroutines of all clients ever started
   (`ClientMachine`, one program counter per place where the goroutine can be preempted or blocked).
   `LoopIsSequential` shows that in every interleaving the agent at its loop is where the sequential
   handlers bring it, with the same calls in the same order.

`AgentHistory` and `PublishedHistory` define the agent's fields and everything it publishes over again, each by
looking back through the events alone, and prove the handlers equal to that; `HistoryTheorems` reads it off every
run, up to the service's map and a subscriber.

`SystemInvariant` holds the inductive invariant of agent and clients; `LoginStates`, `Sessions`,
`StopTermination`, `Credentials`, `Notices`, `KerberosHistory`, `RunCondition` and `Publication` hold the
properties, and `WholeRuns` reads them off every run. `World` adds the service goroutine and any number of
concurrent `ReLogin` calls; `Handshake`, `ProcessTheorems` and `Progress` are about that process,
`MonitoredRuns` is about runs behind the file monitors, and `Scenarios` holds runs that show what the theorems
leave room for. `ClientObject` and `ServiceObject` are the client and the service as classes; the client's loop
is proved to be a run of `ClientMachine`.

`Subscriber` and `StatusObjects` model the subscribing client with heap objects and real copies,
`Replication` the agreement of its status with the service, and `EndToEnd` the whole way from the agent's
fields to a subscriber. `Monitors` models the two file monitors and `Servers` the parser of the TND servers.

Runs are finite sequences of labels (`Exec`, `Play`); a state is `Reachable` (`Happens`) if some run leads to
it. A label is taken only where its rendezvous or `select` arm is ready, and any ready arm may be taken.
Histories (calls, events, acts of the clients) are part of the state, so that statements about whole runs are
statements about reachable states.

## What the code does that one might not expect

- A login response that is not parseable counts as logged in, but the retry delay is used next
  (`ClientMachine.DelayFollowsLogin`).
- A keep-alive of more than 153722867 minutes overflows, and a positive one can become a negative delay
  (`Durations.MinutesExact`, `Durations.MinutesOverflow`).
- Only the done arm stops the client; when an event source closes its channel, the loop ends with the client
  still running (`WholeRuns.ErrorExitLeavesClient`).
- A ccache update whose TGT has the remembered times is passed over: it is neither saved nor given to the
  client. The saved ccache is the latest one whose times were new (`KerberosHistory.KerberosRemembered`), and it
  is the latest with a TGT if and only if no update brought the remembered times in another ccache
  (`KerberosHistory.SavedIsLatestThroughout`, `KerberosHistory.LatestIs`; `KerberosHistory.RenewedIsPassedOver` is
  an input). As the times start at zero, a first TGT with zero times is not saved.
- A `ReLogin` call that waits while done is closed can return an abort although the agent has restarted the client
  for it and reported success (`Scenarios.AbortedAfterRestart`). A call that returns before done is closed returns
  success if and only if its request was taken on a trusted network (`ProcessTheorems.ResultTellsTrust`).
- The handler of a krb5 config update without a config leaves a running client running, although it could not be
  started that way. This is the only way to break the condition under which a client runs
  (`RunCondition.HandleExact`, `RunCondition.RunsExactly`, `RunCondition.NilConfKeepsRunning`), and the monitor never
  sends such an update (`MonitoredRuns.RunConditionHolds`).
- The subscriber queries before it is registered for signals. A property changed in between keeps its old
  value until it changes again (`Replication.ReplicaAgrees`; `Scenarios.GapIsMissed` is a run in which a login is
  missed).

## Model

| member | source | states |
|---|---|---|
| Durations.MinutesExact | pkg/config/config.go:92-94 | a delay in minutes is exact in 64-bit nanoseconds if and only if it is at most 153722867 minutes either way, and a positive one in that range stays positive |
| Durations.MinutesOverflow | internal/client/client.go:162-164 | one minute more turns a positive keep-alive into a negative delay |
| Durations.SecondsExact | pkg/config/config.go:107-109 | a number of seconds is exact in 64-bit nanoseconds if and only if it is at most 9223372036 either way |
| ClientMachine.ClientStepInv | internal/client/client.go:192-225 | every step of the goroutine or its timer keeps the invariant on channels, timer and trace: done closed before leaving, results closed just before closed, the timer armed or fired at the select, no drain |
| ClientMachine.DeliverInv | internal/client/client.go:54-59 | handing a result over to the agent keeps the same invariant |
| ClientMachine.DelayFollowsLogin | internal/client/client.go:123-176 | every re-arming ends a login; LoggedOut is followed by the retry delay, an unparseable body counts as LoggedIn and is followed by the retry delay, only a parsed body is followed by the keep-alive in force (in numbers: RetryInSeconds, KeepAliveInMinutes, AcceptedInMinutes) |
| ClientMachine.KeepAliveSource | internal/client/client.go:162-171 | the keep-alive in force is the last accepted positive one, and the configured one if none was accepted |
| ClientMachine.RetryInSeconds | internal/client/client.go:200-207 | after a login without a parsed body the timer is re-armed with retryTimer * 1_000_000_000 nanoseconds, for up to 9223372036 seconds either way |
| ClientMachine.KeepAliveInMinutes | internal/client/client.go:162-171 | after a parsed body, with no positive keep-alive received so far, it is re-armed with keepAlive * 60_000_000_000 nanoseconds, for up to 153722867 minutes either way |
| ClientMachine.AcceptedInMinutes | internal/client/client.go:162-171 | after a parsed body it is re-armed with n * 60_000_000_000 nanoseconds for the latest positive keep-alive n received, for up to 153722867 minutes |
| ClientObject.LoginClient.constructor | internal/client/client.go:276-286 | the object starts as the goroutine's initial state |
| ClientObject.LoginClient.SendResult | internal/client/client.go:54-59 | a result is handed over or, only with done closed, skipped |
| ClientObject.LoginClient.DoServiceRequest | internal/client/client.go:70-120 | the request ends by the ccache guard, then the config guard, then with the reply, and is recorded as begun and ended |
| ClientObject.LoginClient.Login | internal/client/client.go:123-176 | both results, keep-alive and reported error for each reply, as the transition system's exchange gives them |
| ClientObject.LoginClient.Logout | internal/client/client.go:179-189 | LoggingOut, one request, LoggedOut, whatever the request ends with, as the transition system's exchange gives them |
| ClientObject.LoginClient.TakeTimerArm | internal/client/client.go:198-208 | the timer arm from select to select: one login, and the timer armed with the delay that goes with its end |
| ClientObject.LoginClient.TakeDoneArm | internal/client/client.go:210-223 | the done arm: one logout, the timer stopped without a drain, results and then closed closed |
| ClientObject.LoginClient.Run | internal/client/client.go:192-225 | the loop on any turns of the environment does each turn in order up to the first done arm, ends exactly if there is one, and is a run of the transition system |
| ClientObject.LoginClient.Stop | internal/client/client.go:233-236 | done closed, then any turns of the goroutine up to its done arm: one logout as its last request, timer stopped, results and closed closed |
| ClientObject.TurnsLead | internal/client/client.go:192-225 | any turns of the loop, with results skipped only once done is closed, are a run of the transition system |
| ClientObject.TurnsKeep | internal/client/client.go:192-225 | the timer is armed or fired at every select, and the goroutine ends exactly if some turn takes the done arm |
| ClientObject.RequestLeads | internal/client/client.go:70-120 | the request with its getters, each under the mutex, amounts to the outcome chosen by the guards and the reply |
| ClientObject.ExchangeLeads | internal/client/client.go:123-189 | login and logout as a whole, from first to second result, are runs of the transition system |
| AgentObject.IdentityAgent.constructor | internal/agent/agent.go:492-514 | a new agent has the zero fields |
| AgentObject.IdentityAgent.SetTrustedNetwork | internal/agent/agent.go:163-179 | field, notice and property as in the handler function; nothing if unchanged |
| AgentObject.IdentityAgent.SetLoginState | internal/agent/agent.go:116-139 | field, session flag, notice and property as in the handler function |
| AgentObject.IdentityAgent.SetLastKeepAlive | internal/agent/agent.go:194-203 | field and property, nothing if unchanged |
| AgentObject.IdentityAgent.SetKerberosTGT | internal/agent/agent.go:149-160 | both times stored and published in order, nothing if both are unchanged |
| AgentObject.IdentityAgent.StartClient | internal/agent/agent.go:220-240 | a new client with the saved credentials exactly if none runs and both are there |
| AgentObject.IdentityAgent.StopClient | internal/agent/agent.go:243-255 | LoggingOut, the client ended and forgotten, LoggedOut, in this order |
| AgentObject.IdentityAgent.HandleTNDResult | internal/agent/agent.go:258-271 | the handler changes fields and makes calls as its function |
| AgentObject.IdentityAgent.HandleLoginResult | internal/agent/agent.go:274-283 | the handler changes fields and makes calls as its function |
| AgentObject.IdentityAgent.HandleCCacheUpdate | internal/agent/agent.go:286-319 | the handler changes fields and makes calls as its function |
| AgentObject.IdentityAgent.HandleKrbConfUpdate | internal/agent/agent.go:322-337 | the handler changes fields and makes calls as its function |
| AgentObject.IdentityAgent.HandleDBusRequest | internal/agent/agent.go:340-358 | the handler changes fields and makes calls as its function; the request is closed last |
| AgentObject.IdentityAgent.HandleSleepEvent | internal/agent/agent.go:361-371 | the handler changes fields and makes calls as its function |
| AgentObject.IdentityAgent.Boot | internal/agent/agent.go:465-473 | the end of Start: not trusted, logged out, config published |
| AgentObject.IdentityAgent.Start | internal/agent/agent.go:374-433 | the loop handles events in order up to the first that ends it; fields and calls are those of the handlers run in a row |
| AgentMachine.BeginTotal | internal/agent/agent.go:374-433 | every handler cut at its blocking points and run through is the sequential handler |
| AgentMachine.AfterJoinTotal | internal/agent/agent.go:249-254 | what follows the return of Client.Stop, run through, is the rest of stopClient and its caller |
| System.LoopIsSequential | internal/agent/agent.go:374-433 | in every run, however interleaved with clients and service, the agent at its loop is where the handlers run one after the other on the events so far bring it, with the same calls |
| SystemInvariant.InvStep | internal/agent/agent.go:220-255 | every step keeps the joint invariant of the agent's references, the login state and the place, channels and timer of every client |
| SystemInvariant.ReachableInv | internal/agent/agent.go:220-255 | the joint invariant holds in every reachable state |
| SystemInvariant.OneLiveClient | internal/agent/agent.go:220-255 | at most one client goroutine is live, the latest, and the agent refers to it |
| SystemInvariant.DoneClosedOnce | internal/client/client.go:233-236 | every done channel is closed at most once, and exactly while or after its client is stopped |
| SystemInvariant.LoginArmIsLive | internal/agent/agent.go:392-397 | the agent never sees the close of a results channel and never takes a result of a client being stopped |
| SystemInvariant.TimerDiscipline | internal/client/client.go:196-224 | a client at its select has its timer armed or fired and not received, so the drain after a failed Stop is never reached; delays and keep-alive follow the trace |
| SystemInvariant.DelaysInRun | internal/client/client.go:196-208 | in every run each delay chosen by a client is, in nanoseconds, the configured seconds, the configured minutes or the latest received minutes, by how the login before it ended |
| SystemInvariant.FirstDelayInRun | internal/client/client.go:196 | in every run a client that has not tried a login has its timer at delay zero or fired |
| LoginStates.LoginTransitions | internal/agent/agent.go:182-191 | in every run each change of the published login state is one of the allowed ones, the first is to LoggedOut, and at the loop head the last is the field |
| AgentHistory.AgentIsItsHistory | internal/agent/agent.go:149-371 | after Start and any history of events every field but the session flag is a function of the events: the network is not trusted until the latest TND result or sleep says otherwise, the keep-alive time is that of the latest LoggedIn result, the config is the latest, a client runs and has been started as the events say, and the login state is the latest result or LoggedOut since a stop |
| AgentHistory.NothingBeforeTrust | internal/agent/agent.go:463-465 | without a TND result that says trusted the network is not trusted, no client runs and none has been started |
| PublishedHistory.AllPublished | internal/agent/agent.go:71-203 | after Start and any history the values published for each property, all of them in order, are determined by the events, in the numbers of the bus; the network notices are the network at the start and at every change, or none if disabled |
| HistoryTheorems.EventsDetermineAgent | internal/agent/agent.go:374-433 | in every run at the loop head the agent's fields, the number of clients created, the published values and the network notices are those its events determine |
| HistoryTheorems.NoClientBeforeTrust | internal/agent/agent.go:258-271 | in every state of every run no client has been created before the first TND result that says trusted |
| HistoryTheorems.ServiceShowsHistory | internal/dbusapi/service.go:182-210 | in every run with nothing under way the service's map holds, for each property, the last value that the events determine, or -1 |
| HistoryTheorems.ServiceNumbers | internal/dbusapi/service.go:36-49 | then the network is 2 or 1 for trusted or not, and the login state the number of the state that the events determine |
| HistoryTheorems.FinalNumbers | internal/dbusapi/service.go:201-206 | when the service has ended its map is the empty text, two zeros and three times -1 |
| HistoryTheorems.SubscriberShowsHistory | pkg/client/client.go:218-276 | in every run with nothing under way a subscriber with all signals and no change in its gap shows the numbers and times that the agent's events determine, and the parsed config text |
| Sessions.SessionsNeverOverlap | internal/client/client.go:192-236 | in every run requests never overlap; they form sessions of one client each, in order, with at most one logout, as last request; every client but the held one has sent its logout |
| StopTermination.StopIsNeverStuck | internal/client/client.go:54-59 | while the agent waits in Client.Stop the client has an enabled move that starts no login, or is gone and Stop can return |
| StopTermination.StopIsBounded | internal/client/client.go:192-236 | with at most k timer arms taken, any stretch inside Client.Stop has at most 24 + 11k client steps, at most k + 1 further login requests and one logout request |
| StopTermination.StopReturnsFrom | internal/agent/agent.go:243-255 | from any point inside Client.Stop a bounded run without another timer arm leads to its return |
| Credentials.CredentialsAgree | internal/agent/agent.go:286-337 | in every state a running client's ccache and krb5 config are the ones saved in the agent |
| Credentials.GuardsNeverTaken | internal/client/client.go:70-79 | no client ever fails the ccache guard, nor the config guard if no update came without a config, and requests in flight carry both |
| Notices.AllNoticed | internal/agent/agent.go:116-139 | after any history, notices alternate, the session flag is the parity of their number and tells whether the latest LoggedIn or LoggedOut was LoggedIn |
| KerberosHistory.KerberosRemembered | internal/agent/agent.go:286-319 | the TGT times are those of the latest update with a TGT for the realm; the saved update is the latest whose times differed from those before it; one is saved exactly if an update had times other than zero, and its TGT has the remembered times |
| KerberosHistory.LatestIs | internal/agent/agent.go:286-309 | the saved update is the latest with a TGT for the realm if and only if that one did not bring the remembered times in a ccache other than the saved one |
| KerberosHistory.SavedIsLatestThroughout | internal/agent/agent.go:286-309 | over any history the saved update is the latest with a TGT after every event, if and only if no event brings the remembered times in a ccache other than the saved one |
| KerberosHistory.RenewedIsPassedOver | internal/agent/agent.go:298-301 | for any times other than zero, of two ccaches with equal times and different content the first stays saved |
| RunCondition.HandleExact | internal/agent/agent.go:322-337 | an event breaks the run condition if and only if it is a config update without a config while a client runs |
| RunCondition.RunsExactly | internal/agent/agent.go:220-371 | over any history before shutdown a client runs exactly on a trusted network with usable credentials at every loop head, if and only if no such update came |
| RunCondition.NilConfKeepsRunning | internal/agent/agent.go:322-337 | an input of the handlers, which the monitor never sends, on which a client keeps running without a usable config |
| Publication.HandleFaithful | internal/agent/agent.go:97-203 | whatever a handler last published for a property is the field afterwards, and a field it did not publish is unchanged |
| Publication.AllMirrored | internal/agent/agent.go:97-203 | after any history what was last published for each property is the field; an unpublished time is still zero |
| WholeRuns.ShutdownStopsClient | internal/agent/agent.go:427-430 | past the loop all clients are gone if and only if the agent refers to none, and then the last published login state is LoggedOut; after the done arm this is so |
| WholeRuns.ErrorExitLeavesClient | internal/agent/agent.go:386-389 | a closed event source ends the loop with every field unchanged and the running client alive, its done channel open |
| WholeRuns.ClientRunsWhenItShould | internal/agent/agent.go:220-371 | in every run at the loop head: a client only on a trusted network with saved credentials, always when they are usable, exactly then if no config was missing; no client means LoggedOut, no session and a nil login channel |
| WholeRuns.NoticesAlternate | internal/agent/agent.go:84-94 | in every run login and logout notices alternate from a login on, none if disabled; at the loop head logins minus logouts is the session flag |
| WholeRuns.PublishedIsCurrent | internal/agent/agent.go:97-203 | in every run at the loop head what was last published for each property is the agent's field |
| WholeRuns.TGTIsRemembered | internal/agent/agent.go:286-319 | in every run at the loop head the TGT times and the saved update are those of the update history |
| WholeRuns.ClientHasLatest | internal/agent/agent.go:286-314 | in every run at the loop head the running client has the ccache of the latest update with a TGT if and only if that update was not passed over |
| PropertyStore.StartedMap | internal/dbusapi/service.go:303-310 | the values after the service's start: not trusted, logged out, times -1, every property present |
| PropertyStore.FlushResets | internal/dbusapi/service.go:201-206 | the final flush gives the exported unknown or invalid values whatever the store held |
| World.MoveKeeps | internal/dbusapi/service.go:182-210 | every step of the process keeps the order of updates (stored, at most one under way, flush last), the state of the service's channels and the callers' places; an update is never dropped through done |
| World.HappensInv | internal/dbusapi/service.go:182-333 | this invariant holds in every run of the process |
| ServiceObject.PropertyService.SetMust | internal/dbusapi/service.go:196 | one update stores the value and emits one signal |
| ServiceObject.PropertyService.Start | internal/dbusapi/service.go:303-310 | the start emits the six initial updates in order |
| ServiceObject.PropertyService.Serve | internal/dbusapi/service.go:182-210 | the loop stores every update in order and ends with the flush and all values invalid |
| Handshake.ReplyIsLast | internal/agent/agent.go:340-358 | a handler closes a request only if it is the one it handles, as its last act, with success exactly on a trusted network |
| Handshake.RepliesMatch | internal/agent/agent.go:340-358 | requests are closed once each in the order they were taken |
| Handshake.EveryReplyAnswers | internal/agent/agent.go:340-358 | every reply in a history belongs to a request event, comes after all its handler did, and tells whether the network was trusted then |
| Handshake.RestartEffects | internal/agent/agent.go:354-356 | on a trusted network a request ends the running client and starts one with the saved credentials if they are usable |
| ProcessTheorems.NoUpdateIsLost | internal/dbusapi/service.go:328-333 | no update is given up, and an agent in SetProperty can always go on after at most one step of the service |
| ProcessTheorems.ServiceMirrorsAgent | internal/dbusapi/service.go:182-210 | with nothing under way at the loop head the service's map holds the agent's network, login state and config, and each time or -1 until it was first published |
| ProcessTheorems.FinalFlush | internal/dbusapi/service.go:198-207 | the service's updates are the start values, all updates of the agent in order and the flush; everything ends unknown or invalid, and after shutdown the last login state before the flush is LoggedOut |
| ProcessTheorems.SuccessMeansRestarted | internal/dbusapi/service.go:117-132 | a call returns success only if its request was taken on a trusted network, the running client ended and a new one started when credentials were usable |
| ProcessTheorems.ResultTellsTrust | internal/dbusapi/service.go:88-132 | every call that has returned while done is open returned success if and only if its request was taken on a trusted network; after that this still holds of every success |
| ProcessTheorems.CallGetsReply | internal/dbusapi/service.go:117-132 | at the loop head a waiting call can return, with success exactly if the network was trusted when its request was taken |
| ProcessTheorems.WaitersAreReleased | internal/dbusapi/service.go:93-99 | once done is closed every call that has not returned can return |
| ProcessTheorems.RequestsAnswered | internal/agent/agent.go:340-342 | at the loop head every request taken has been closed |
| ProcessTheorems.ReplyTellsTrust | internal/agent/agent.go:346-351 | the reply to a request in a run is success exactly if the network was trusted when it was taken |
| ProcessTheorems.RequestsClosedOnce | internal/dbusapi/service.go:88-90 | no request's channel is closed twice |
| Progress.ProcessGoesOn | internal/agent/agent.go:374-433 | from any state of any run the process is, within 42 steps and without a login, back at its loop if no event so far ends it, and otherwise ended with its service |
| Progress.AgentStopReturns | internal/agent/agent.go:480-484 | from any loop head the done arm leads, within 43 steps and without a login, to the end of the agent and its service, with every client gone and every property unknown or invalid |
| Scenarios.ShutdownAborts | internal/dbusapi/service.go:93-99 | any call waiting at a loop head can still return an abort, whatever the reply to its request |
| Scenarios.AbortedAfterRestart | internal/dbusapi/service.go:93-132 | a run in which a request is taken on a trusted network, the client restarted and success reported, and the call returns an abort |
| StatusObjects.Config.Copy | pkg/config/config.go:35-89 | the copy says the same and shares no object with the original |
| StatusObjects.Status.Copy | pkg/status/status.go:93-101 | the copy says the same and shares no object with the original |
| Subscriber.SetKey | pkg/client/client.go:56-83 | one key sets its field to the decoded value, or fails and changes nothing |
| Subscriber.SetAllKeys | pkg/client/client.go:55-84 | one pass in any key order succeeds exactly if all values decode, and then has set every known key and kept the rest |
| Subscriber.UpdateStatus | pkg/client/client.go:48-89 | all or nothing and independent of both iteration orders: an error leaves the status unchanged, success sets every known key and keeps all other fields; a config text that parses is stored, the empty one clears the config, one that does not parse is an error |
| Subscriber.DecodesByName | pkg/client/client.go:58-82 | properties decode if and only if, under the names of the bus, the config is a text that is empty or parses, the two states are unsigned and the three times signed numbers |
| Subscriber.MergedByName | pkg/client/client.go:58-82 | then each property present sets its own field to its value, the config to what parsing gives or none for the empty text, and the other fields are kept |
| Subscriber.InvalidatedByName | pkg/client/client.go:164-179 | invalidating sets the config to none, the states to 0 and the times to -1 for exactly the names given |
| Subscriber.ValidByName | pkg/client/client.go:137-163 | which path, signal name, interface and body make a signal valid |
| Subscriber.InvalidateNames | pkg/client/client.go:164-179 | every invalidated property is reset, in order |
| Subscriber.HandlePropertiesChanged | pkg/client/client.go:135-182 | the given status changed as the signal says, or nil exactly for signals that are not well-formed changes of the agent's properties |
| Subscriber.Round | pkg/client/client.go:258-267 | a valid signal gives an update and a kept status of equal value that share no object; an invalid one leaves the status alone |
| Subscriber.TakenRound | pkg/client/client.go:256-275 | what a consumer writes into an update it received does not reach the kept status |
| Subscriber.Subscription | pkg/client/client.go:245-276 | the stream is the initial status followed by the fold over the valid signals, whatever the consumer writes into the updates; it is a prefix of that when the consumer stops taking |
| Replication.SignalSets | internal/dbusapi/service.go:196 | the signal of an update is valid and sets its property at a subscriber, and no other |
| Replication.ReplicaAgrees | pkg/client/client.go:218-276 | after n signals a property agrees with the service if and only if it was updated since the registration or means the same at both ends of the gap |
| Replication.ReplicaIsExact | pkg/client/client.go:218-276 | with no change in the gap the whole status is what a query would give now |
| EndToEnd.LogTyped | internal/agent/agent.go:97-203 | every signal of the service in every run carries a value of its property's type |
| EndToEnd.SubscriberShowsAgent | pkg/client/client.go:218-276 | in every run with nothing under way a subscriber with all signals and no change in its gap shows the agent's own network, login state and config, and each time or -1 until it was first published |
| EndToEnd.StreamShowsAgent | pkg/client/client.go:218-276 | the stream a subscription sends in such a run, from its query on all signals since its registration, has one status per signal and ends with one that shows the agent |
| EndToEnd.TakeLast | pkg/client/client.go:245-276 | a consumer that takes every update of a subscription ends with the last of the stream, whatever it writes into the updates |
| Replication.StreamOfSignals | pkg/client/client.go:255-275 | the signals of the service have bodies long enough to be read, and each gives the consumer one status, the last of them the fold of all |
| Scenarios.GapIsMissed | pkg/client/client.go:224-243 | a run in which a login takes place between query and registration: the agent is logged in and the subscriber shows logged out |
| Monitors.DestutterRepeats | internal/krbmon/ccachemon.go:133-140 | removing repetitions gives a sequence of which the original repeats each element, with adjacent elements different and the same last element |
| Monitors.DestutterUnique | internal/krbmon/ccachemon.go:133-140 | it is the only such sequence |
| Monitors.DeliverNext | internal/krbmon/ccachemon.go:133-140 | one more snapshot is delivered unless it repeats the one before or the receiver has taken all it will take |
| Monitors.FileMonitor.HandleFileEvent | internal/krbmon/ccachemon.go:98-141 | an event of the file with a valid snapshot is seen, and delivered exactly if it differs from the stored one; other events and invalid snapshots leave no trace |
| Monitors.FileMonitor.Start | internal/krbmon/ccachemon.go:149-182 | from the initial file to the end of the loop the updates delivered are the snapshots without repetitions, as far as the receiver takes them |
| Monitors.InitialIsSeen | internal/krbmon/ccachemon.go:157-158 | the file as it is at the start is the first snapshot, if it can be loaded |
| Monitors.HandlesAll | internal/krbmon/ccachemon.go:161-181 | file events and watcher errors are all handled |
| Monitors.HandlesTo | internal/krbmon/ccachemon.go:161-181 | the first closed channel or done is the last input handled |
| Monitors.ErrorsChangeNothing | internal/krbmon/ccachemon.go:144-146 | watcher errors can be removed without changing the snapshots seen |
| Monitors.InvalidIsIgnored | internal/krbmon/confmon.go:48-74 | an input changes the snapshots seen if and only if it is an event of the file with a snapshot that could be loaded |
| Monitors.ShortFileIsIgnored | internal/krbmon/ccachemon.go:117-125 | a ccache file of 68 bytes or less changes nothing in what is delivered, whatever it would unmarshal to |
| Monitors.LongFileIsSeen | internal/krbmon/ccachemon.go:120-130 | a ccache file of 69 bytes or more that unmarshals is a snapshot with that content |
| Monitors.AgentFollowsFile | internal/agent/agent.go:286-309 | behind the monitor the agent's TGT times are those of the last valid snapshot with a TGT for the realm, and the saved ccache is the last such snapshot whose times were new |
| Monitors.MonitorSendsConfs | internal/krbmon/confmon.go:59-73 | the updates of the config monitor all carry a config |
| MonitoredRuns.ClientFollowsFile | internal/agent/agent.go:286-314 | in every run behind the monitor, at the loop head, the running client has the file's last valid snapshot with a TGT if and only if that snapshot was not passed over |
| MonitoredRuns.RunConditionHolds | internal/agent/agent.go:220-371 | in every run behind the monitor, at the loop head, a client runs exactly on a trusted network with a ccache and a config saved |
| MonitoredRuns.GuardsNeverFail | internal/client/client.go:70-79 | in every run behind the monitor no client fails a guard of doServiceRequest, and requests in flight carry both credentials |
| Servers.ParseTNDServers | internal/agent/cmd.go:48-64 | the loop accepts exactly the non-empty texts all of whose segments have a colon with something after it, and returns the pairs in order with the hashes lowered |
| Servers.AcceptedTextPrints | internal/agent/cmd.go:48-64 | every accepted text is the print of its pairs up to the case of the hashes, and all pairs are plain |
| Servers.RoundTrip | internal/agent/cmd.go:48-64 | parsing the print of a list gives the list back if and only if it is not empty, no URL has a comma and every hash is non-empty, unchanged by lower-casing and without commas and colons |

## Left out

- The HTTP request with TLS, SPNEGO and gokrb5: it ends in one of the outcomes failed, body unreadable, body unparseable, or parsed with a number.
- File watching, reading and parsing: a file event comes with an optional snapshot. The minimum length of a ccache file is in `CCacheSnapshot`. Whether two snapshots are equal is equality of their content.
- The trusted network detector and the sleep monitor: any sequence of their events. The map of servers given to the detector is not modelled.
- The D-Bus connection, introspection and the ownership of names; errors of `Query` and `Subscribe` before the goroutine starts. Signals are taken to arrive in the order in which they are emitted; the buffer between is not modelled.
- Conversions of D-Bus variants and the JSON of the configuration: a variant is known by what storing it in each type gives, and the JSON parser is a parameter.
- Command line flags, the config file, `Config.Valid`, JSON output, logging, error texts, the command line tool.
- Failures during `Agent.Start`: only its end, after the services have started, is modelled.
- The stops of the four event sources when the agent leaves its loop: they are one step before the stop of the service.
- Real time: a timer is armed, fired, received or stopped, and an armed one may fire at any moment. Nothing is claimed about fairness; `StopIsBounded` has the number of timer arms taken as its parameter.
- Desktop notifications: the attempts are recorded, their delivery is not modelled.
- HandleCCacheUpdate: requires a ccache in the update, as the handler looks for the TGT in it without a check; the monitor never sends an update without one.
- HandlePropertiesChanged: requires the body of a matching signal to be as long as it is read; the program panics on a shorter one.
- Stop: `LoginClient.Stop` is called with the goroutine at its select, and the agent waits for any turns that it then makes; a stop in the middle of a login is in `ClientMachine` and `System`.
- ParseTNDServers: texts are sequences of characters, so bytes that are not UTF-8 are not modelled. Lower-casing is a parameter: A to Z on ASCII, and elsewhere any map that is idempotent and gives neither comma nor colon, as `unicode.ToLower` is.
- DoServiceRequest: the object reads each credential once; the separate reads under the mutex are in `ClientMachine`, and `RequestLeads` connects the two.
