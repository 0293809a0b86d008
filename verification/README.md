# Verified model of the storage server's concurrent protocols

This project models the parts of the Oxen storage server that are hardest to get right, and proves what they
promise.  Most of it is the monitor session protocol: clients subscribe to accounts, are notified of new messages
over a connection, lose the connection, resume their session on another, and are replayed what they missed.
The rest are the smaller protocols around it: the swarm fan-out of a request, composed requests, onion requests,
per-connection serialisation, replay pacing, rate limiting, and the parking of HTTP requests.

`dafny verify dfyconfig.toml` checks everything.

## How it is laid out

The monitor protocol is in two layers.

* `MonitorCore` is the protocol without its redundant tables: the monitors, the sessions, their logs, and a
  relation `Next` that says what each of the server's lock sections does to them.  `CoreInvariants` proves that
  every step keeps every invariant, and so that every reachable state has them; `Outcomes` says on the fields of the
  tables what each step comes to for a client; `SessionRuns` and `SessionHistory` prove what whole runs promise of
  tokens, swarm changes, replays, what a session is, and closed connections; `NoLoss` adds the message table, the replays in flight
  between their lock sections, the limits of resumes between theirs, and a history of what each session is owed,
  and proves what becomes of everything owed; `LateLimit` is the run in which a limit comes too late; `ReplaySends` is
  what a replay sends over such runs, and `Resuming` what a resume's replay makes up for;
  `LimitedReplay` is what a limit computes; `ReplayRun` a replay left to finish, or interrupted; `SweepRun` a sweep
  among everything else, and `ForeignRun` a swarm change's pass over the table likewise.
* `Monitors` is the server's own form: a class that keeps the reverse indices, counters and lookups up to date in
  place, with the source's loops.  Each of its public methods is proved to be the step of `MonitorCore` that it
  implements, with every index again exactly what a recount of the tables would give (`MonitorIndex`,
  `SessionIndex`); so everything proved of `Next` holds of the class.

Inputs that the source takes from elsewhere are parameters: the clock (one `now` for each lock section), the
random token, the hash of the table, the rows that a lookup returns, which peers answer and how, the drawn
encryption keys.  A session or a monitor is named by a number that stands for its address.

Where the source orders by something arbitrary, the model allows any order: sessions detached at the same
instant, an IP's sessions detached at the same instant, the entries of a hash table.

## Model

| member | source | states |
|---|---|---|
| `CoreInvariants.RunKeeps` | oxenss/server/monitors.cpp:385-1235 | in every run of the protocol, at every point: a session is bound or detached and never both, a connection has at most one session, tokens are distinct, a closed connection has nothing, a detached session's recent log is empty, no owner has two monitors for one account that agree in namespaces and data, each unprivileged session is within its monitor cap, the detached unprivileged sessions together within theirs, and each IP within its number of sessions |
| `CoreInvariants.NextKeeps` | oxenss/server/monitors.cpp:385-1235 | each lock section, whatever it is, keeps all of those |
| `CoreInvariants.NextKeepsDetachedCap` | oxenss/server/monitors.cpp:505-519 | the monitors of detached unprivileged sessions stay within their limit after every kind of step |
| `CoreInvariants.NextKeepsIpCaps` | oxenss/server/monitors.cpp:657-678 | no IP comes to have more unprivileged sessions than its limit |
| `CoreInvariants.NextKeepsMonitorCaps` | oxenss/server/monitors.cpp:420-424 | no unprivileged session comes to have more monitors than its cap |
| `CoreInvariants.NextKeepsBinding` | oxenss/server/monitors.cpp:489-540 | bound or detached and never both, and one session a connection, though a resume binds before it detaches |
| `CoreInvariants.NextKeepsClosed` | oxenss/server/monitors.cpp:956-986 | a connection known to be closed never again has a session, a monitor or a started mark |
| `CoreInvariants.ResumedIsNeverEvicted` | oxenss/server/monitors.cpp:680-687 | the eviction caused by detaching the connection's previous session never removes the session being resumed (a corollary of eviction taking only detached sessions) |
| `SessionRuns.WithinLimitEvictsNone` | oxenss/server/monitors.cpp:505-519 | nothing is evicted while the detached monitors are within their limit |
| `SessionRuns.TokenResumesOnce` | oxenss/server/monitors.cpp:573-585 | of two resumes in a run with the same token, the token was drawn again in between |
| `SessionRuns.ForeignAccountsForAll` | oxenss/server/monitors.cpp:1126-1148 | a swarm change takes every monitor of a lost account and no other, and an owner with no connection records the account (a corollary of the step's definition, for one monitor) |
| `SessionRuns.EndedIsTold` | oxenss/server/monitors.cpp:680-685 | an account recorded as ended is reported by the session's next resume |
| `SessionRuns.EndedIsToldOnce` | oxenss/server/monitors.cpp:680-685 | and is not reported by a later one unless the session lost the account again |
| `SessionRuns.OnlyTheLatestReplays` | oxenss/server/monitors.cpp:702-706 | once a session has been resumed, a chunk of any earlier replay of it changes nothing for the rest of the run |
| `NoLoss.NothingIsLost` | oxenss/server/monitors.cpp:806-954 | in every interleaving of notifications, reconnections, prunes, sweeps, replay chunks, the three parts of a resume's limit, and changes to the message table, a notification matched for a session, for as long as the session and the message are stored, is covered by an entry of its recent log or by a missed start at or below its id, with data if that was wanted; or it was pruned after the window on a connection still bound; or it is among the rows that a resume's report counts as cut; or a start was raised past it by a limit whose resume was over by then, and since that limit read the starts the pair's was lowered to it, or since it counted the row was stored |
| `NoLoss.SysNextKeeps` | oxenss/server/monitors.cpp:885-954 | every step keeps everything owed covered, with a replay between its lookup and its second lock section having found everything that only the pair's start covers |
| `NoLoss.CutIsReported` | oxenss/server/monitors.cpp:826-872 | in every reachable state, as long as the resume lasts: whatever the limit gives up when it raises the starts was counted for its report, though the starts were read, the rows counted and the starts raised at three different times with anything going on in between |
| `LateLimit.LateRaisePassesOver` | oxenss/server/monitors.cpp:826-872 | the resume need not last: a run in which a resume's limit of one reads, looks up and counts, and raises the start to the cutoff that it computes, after the session has lost its connection; and a stored notification, the start having been lowered to it meanwhile, is then neither covered, nor pruned, nor counted for the report |
| `NoLoss.LateRaiseIsExact` | oxenss/server/monitors.cpp:826-872 | in every run, at every raise, whether or not the resume lasts: an owed notification that it gives up is in its report exactly if it is not below the start that the limit read and its row was stored at the limit's last count of the pair; so of those not stored since, exactly if not below the start read; and each one not reported is below that start, with the pair's start by now at or below it, or was stored since the count |
| `NoLoss.GuardedRaiseReports` | oxenss/server/monitors.cpp:866-871 | a raise at which no pair's start is below the start that was read, which could be tested under the lock, reports everything it gives up but what was stored since the count |
| `NoLoss.CountHistory` | oxenss/server/monitors.cpp:851-857 | in every run, what a limit has counted of a pair are the rows from the start it read up to the cutoff, in the table as it was at its last count of the pair |
| `NoLoss.RaiseLoses` | oxenss/server/monitors.cpp:866-871 | raising starts uncovers exactly what only a start covered that is raised past it |
| `MessageTable.LookupFinds` | oxenss/server/monitors.cpp:49-56 | a lookup finds each row from its start on, or is full and stops before it |
| `SessionLog.FoldedKeeps` | oxenss/server/monitors.cpp:815-819 | folding the recent log into the missed starts uncovers nothing |
| `SessionLog.FoldedIsTight` | oxenss/server/monitors.cpp:806-819 | a start after folding is a start from before or the id of something in the log, so no replay starts earlier than it must |
| `SessionLog.PrunedKeeps` | oxenss/server/monitors.cpp:821-824 | pruning uncovers only what was sent longer ago than the window each time that it was sent |
| `SessionLog.PrunedExactly` | oxenss/server/monitors.cpp:821-824 | pruning takes entries off the front, each sent more than 90 seconds ago, up to the first that was not |
| `SessionLog.RememberedKeeps` | oxenss/server/monitors.cpp:1216-1225 | a matched notification is covered from then on, and nothing else is uncovered |
| `SessionLog.FoldLog` | oxenss/server/monitors.cpp:815-819 | the loop notes every entry, oldest first, and empties the log |
| `MonitorServer.Monitors.constructor` | oxenss/server/monitors.h:285-289 | the empty tables have empty indices and every invariant |
| `MonitorServer.Monitors.HasMonitor` | oxenss/server/monitors.cpp:455-460 | true exactly if the owner has a monitor of the account |
| `MonitorServer.Monitors.EraseMonitor` | oxenss/server/monitors.cpp:462-487 | exactly the monitor goes, and every index and counter is what a recount would give |
| `MonitorServer.Monitors.RemoveSession` | oxenss/server/monitors.cpp:546-571 | the session goes with its monitors, log and token, and every index is what a recount would give |
| `MonitorServer.Monitors.EvictDetached` | oxenss/server/monitors.cpp:505-519 | the loop ends within the limit, having removed the longest detached and no more of them than needed |
| `MonitorServer.Monitors.Detach` | oxenss/server/monitors.cpp:489-520 | the session is detached with its log folded, and then the longest detached are evicted, which may be this one |
| `MonitorServer.Monitors.Bind` | oxenss/server/monitors.cpp:522-540 | the session is bound, its log folded if it was on another connection, and taken off the detached list and count |
| `MonitorServer.Monitors.ConnectionClosed` | oxenss/server/monitors.cpp:956-986 | the step Close of the protocol, with every index exact |
| `MonitorServer.Monitors.FindMonitor` | oxenss/server/monitors.cpp:445-453 | finds the owner's monitor of exactly this subscription, if it has one |
| `MonitorServer.Monitors.UpdateMonitors` | oxenss/server/monitors.cpp:385-443 | the step Subscribe of the protocol, with every index exact, and an answer for each subscription: none exactly if it is new to an unprivileged session that has as many monitors as the limit when the request comes to it |
| `Subscriptions.AnswersHold` | oxenss/server/monitors.cpp:408-441 | whatever else the request asks for, a subscription answered with a time is held for all of that time when the request is done, and one that was refused is not held |
| `Subscriptions.RefusedExactly` | oxenss/server/monitors.cpp:408-424 | of any request, exactly those subscriptions are refused that are new to an unprivileged session which by then has as many monitors as the limit; every other is answered with 65 minutes |
| `Subscriptions.UncappedIsHeld` | oxenss/server/monitors.cpp:408-441 | every subscription of a connection's own, or of a privileged session, is answered with a time and held for it when the request is done |
| `Outcomes.SubscribesOnly` | oxenss/server/monitors.cpp:408-441 | a request takes no monitor away, changes none but by renewing those that it names, and adds none but those that it names, each for 65 minutes |
| `Outcomes.OwnerExactly` | oxenss/server/monitors.cpp:403-406 | what is subscribed on a connection is the session's that is on it, if there is one, and otherwise the connection's |
| `MonitorServer.Monitors.MakeRoom` | oxenss/server/monitors.cpp:657-678 | brings the IP below its limit by removing the session detached earliest, or changes nothing and finds none detached |
| `MonitorServer.Monitors.DrawToken` | oxenss/server/monitors.cpp:573-577 | the loop ends with the first token drawn that no session has, given that the random source yields one |
| `MonitorServer.Monitors.HandleMonitorSession` | oxenss/server/monitors.cpp:625-707 | the step OpenSession of the protocol, with every index exact: started or resumed, bound and given its token all at once, or refused with nothing changed |
| `Outcomes.OpenExactly` | oxenss/server/monitors.cpp:625-707 | on the tables before it: a request on a closed connection comes to nothing, one with the token of a session that is on a connection, or has been off it for less than ten minutes, to a resume, and any other to a refusal if the connection has started one, a refusal if it is unprivileged and its IP has as many as the limit and none detached, and a new session otherwise; a refusal changes nothing |
| `Outcomes.RoomIsMadeFor` | oxenss/server/monitors.cpp:657-678 | a new session takes another's place exactly if its IP is full: that of the IP's session detached the earliest |
| `Outcomes.ReplyTells` | oxenss/server/monitors.cpp:687-707 | the reply has the token that the session then has, whether the session was there before, and for a resume the accounts it had to report and the number of its replay |
| `Outcomes.GoesOnly` | oxenss/server/monitors.cpp:505-519 | a session goes only when it has been without a connection for ten minutes, or, if it is unprivileged and has no connection or is just losing it, to make room |
| `Outcomes.EvictedWentFirst` | oxenss/server/monitors.cpp:505-519 | those evicted lost their connections no later than any unprivileged session left without one |
| `Outcomes.EvictsNoMore` | oxenss/server/monitors.cpp:505-519 | with the monitors of one of those evicted, those of the sessions left without a connection would have been over the limit |
| `Outcomes.DetachesOnly` | oxenss/server/monitors.cpp:489-499 | a session loses its connection only by that closing or by another's being put on it, and is then detached from that moment with its recent log empty |
| `Resuming.ResumeFolds` | oxenss/server/monitors.cpp:522-540 | a session resumed on a connection that it was not on, whether it was on another or on none, has an empty recent log, and a missed start for everything that its log covered; one resumed where it was keeps its log |
| `Resuming.ResumeReplays` | oxenss/server/monitors.cpp:625-954 | in every run, everything that a session's log covered before a resume on another connection, sent lately through the old one or missed, and that stays stored until the resume's replay is past it, is sent by that replay, unless a limit raises the start past it meanwhile |
| `SessionHistory.ResumedExactly` | oxenss/server/monitors.cpp:542-544 | a token resumes its session exactly while the session is on a connection or has been without one for less than ten minutes |
| `SessionHistory.SessionIs` | oxenss/server/monitors.cpp:687-706 | in every run, a session has the token and the body limit of the latest request that started or resumed it, is on that request's connection or none, and is privileged, or counted for its IP, as the request that started it was |
| `SessionHistory.StartsOnce` | oxenss/server/monitors.cpp:647-655 | in every run, no second session is started on a connection that has not closed in between |
| `SessionHistory.ClosedIsIgnored` | oxenss/server/monitors.cpp:1021-1026 | in every run, a request on a connection that has closed changes nothing while no clean-up is more than a minute after that |
| `MonitorServer.Monitors.BeginSweep` | oxenss/server/monitors.cpp:1019-1033 | the step Housekeep of the protocol, and exactly the sessions that have been without a connection for ten minutes |
| `MonitorServer.Monitors.SweepSessions` | oxenss/server/monitors.cpp:1042-1053 | removes those of the ended sessions it comes to that have not been resumed since, with every index exact; it stops short of the last only after a batch's worth of sessions and monitors has gone, and the last to go went before that |
| `MonitorServer.Monitors.SweepMonitors` | oxenss/server/monitors.cpp:1054-1066 | erases exactly the monitors of the accounts that have expired and are a connection's own or of a session on one, and counts them |
| `MonitorServer.Monitors.ExtractForeign` | oxenss/server/monitors.cpp:1128-1148 | the step Foreign of the protocol, with every index exact; and for each account exactly the connections to tell that have a monitor of it, their own or of the session on them |
| `MonitorServer.Monitors.GatherMatches` | oxenss/server/monitors.cpp:1197-1215 | the connections that a matching monitor resolves to, each with the join of their limits, and the sessions with whether any of their monitors wants data |
| `MonitorServer.Monitors.NotifyMessage` | oxenss/server/monitors.cpp:1187-1235 | the step Notify of the protocol, and the connections in groups, each with the one notification that applies to it: exactly those that have an unexpired monitor of the account with the namespace, their own or of the session on them |
| `Notifying.ToldExactly` | oxenss/server/monitors.cpp:1197-1215 | the same, of whatever the loop over the account's monitors gathers |
| `Notifying.ShownExactly` | oxenss/server/monitors.cpp:1209-1212 | a connection is shown as much of the start of the body as the most that any of those monitors is for: nothing without data, all of it for a connection's own, and for a session's no more than the maximum that the session gave |
| `Notifying.NotedExactly` | oxenss/server/monitors.cpp:1213-1225 | a session's log changes only if a monitor of it has the account and namespace, and is unexpired or the session without a connection; then it has one more recent entry, or without a connection the pair's start at the lower of what it was and the message, wanting data if one of those monitors does |
| `MonitorServer.Monitors.LimitReplay` | oxenss/server/monitors.cpp:866-871 | the step CutReplay of the protocol, with every index exact |
| `MonitorServer.Monitors.TakeStart` | oxenss/server/monitors.cpp:901-910 | the first of the session's starts, by account and then namespace, unless the replay is superseded or nothing is left |
| `MonitorServer.Monitors.ApplyRows` | oxenss/server/monitors.cpp:924-946 | the step ReplayChunk of the protocol, with every index exact, and which rows are sent |
| `Notifying.EachIsToldOnce` | oxenss/server/monitors.cpp:1187-1235 | a connection is sent one notification if some matching monitor resolves to it and none otherwise; the body is the longest that any of those monitors alone would get, with the full size given exactly if data was wanted and none of them would get all of it |
| `Notifying.GroupByBody` | oxenss/server/monitors.cpp:1228-1234 | each connection is in the one group of what applies to it |
| `BodyLimits.MergeJoins` | oxenss/server/monitors.cpp:67-76 | merging limits one after another gives their least upper bound |
| `BodyLimits.JoinIsUnique` | oxenss/server/monitors.cpp:67-76 | which is one and the same in whatever order they are merged |
| `BodyLimits.JoinShowsLongest` | oxenss/server/monitors.cpp:342-374 | the merged limit's notification is that of one of the limits, shows at least as much as each of them, and gives a full size exactly if some want data and none would get all of it |
| `BodyLimits.BodyIsPrefix` | oxenss/server/monitors.cpp:342-374 | what is shown is a prefix within the limit, and the full size is there exactly if data was wanted and cut or left out |
| `BodyLimits.SameBodySameGroup` | oxenss/server/monitors.cpp:78-84 | two limits make the same notification exactly if they are grouped together |
| `BodyLimits.AppliedIsEnough` | oxenss/server/monitors.cpp:78-84 | applying is idempotent, and a notification built from what applies is the one built from the limit |
| `LimitedReplay.LimitAccount` | oxenss/server/monitors.cpp:840-865 | what is left of the account are its newest rows over all its namespaces, as many as the limit or all there are, though only one more than the limit is looked up in each; and each count is the rows dropped there |
| `LimitedReplay.LimitAll` | oxenss/server/monitors.cpp:826-872 | the same of every account of the session |
| `LimitedReplay.LimitLeavesNewest` | oxenss/server/monitors.cpp:866-872 | the session's starts, once raised, leave exactly those rows to be replayed, and what is reported is what was dropped |
| `LimitedReplay.TopWasLookedUp` | oxenss/server/monitors.cpp:843-852 | every row not below the cutoff is among those that were looked up |
| `Sweeping.RaiseStarts` | oxenss/server/monitors.cpp:866-871 | the loop raises each listed start that is lower, and no other |
| `Sweeping.Advance` | oxenss/server/monitors.cpp:933-946 | sends and records the rows not below where the pair now starts, and moves or removes the start |
| `ReplaySends.ReplaySendsEach` | oxenss/server/monitors.cpp:881-954 | in every run, whatever changes between its chunks: a row of a pair, from its start on and stored from before the replay takes the pair until it is past the row or done with the pair, is sent by that replay, unless a resume's limit raises the start past it meanwhile |
| `ReplaySends.ReplayAscends` | oxenss/server/monitors.cpp:911-946 | in every run, what a replay sends of a pair strictly ascends from each of its chunks to any later one, so that it sends no row twice |
| `ReplaySends.SentWasStored` | oxenss/server/monitors.cpp:911-946 | in every run, each chunk is ascending, of rows of the pair that were stored when the replay looked them up |
| `ReplaySends.ChunksOf64` | oxenss/server/monitors.cpp:911-945 | in every run, a replay sends at most 64 rows of a pair in a step, and is done with the pair by it exactly if it found fewer than 64 |
| `ReplayRun.Replay` | oxenss/server/monitors.cpp:881-954 | of a table that stays as it is, a replay that nothing interrupts ends with nothing missed, having sent of each pair exactly the stored rows from its start on, in their order and each once, in chunks of at most 64, all of it in the recent log with the pair's data flag |
| `ReplayRun.InterruptedIsCovered` | oxenss/server/monitors.cpp:881-954 | wherever a replay is interrupted, each row that it was to send, sent or not, is from its pair's start on in the folded log, so that the next resume's replay has it to send, with data if it was wanted, if it is stored then |
| `ReplayRun.IdsFromAfter` | oxenss/server/monitors.cpp:942-945 | looking a pair up again from after the last row of a chunk finds exactly the rest |
| `SweepRun.AccountsInBuckets` | oxenss/server/monitors.cpp:1084-1097 | exactly the accounts with entries in the next buckets, each once, starting over if the table was rehashed |
| `SweepRun.BatchOf4096` | oxenss/server/monitors.cpp:1084-1097 | a batch is of 4096 buckets, or of those that are left |
| `SweepRun.SweepErasesExpired` | oxenss/server/monitors.cpp:1037-1082 | whatever happens between its batches and however often the table grows, by the end of a sweep every monitor that was there at its start, stayed expired and kept a connection is erased |
| `SweepRun.SweepSparesOthers` | oxenss/server/monitors.cpp:1037-1082 | however long a sweep takes and whatever happens between its batches, a monitor that is never found both expired and with a connection by a batch, nor of a session that has ended, is still there, unless its connection closed, its session was evicted, or its account left the swarm |
| `ForeignRun.ForeignIsDropped` | oxenss/server/monitors.cpp:1099-1152 | whatever happens while the accounts are sampled, tested and dropped, and however often the table grows, no monitor that was there when the pass began, of an account that is not ours, is there when it ends |
| `ForeignRun.OursIsSpared` | oxenss/server/monitors.cpp:1099-1152 | the pass drops no monitor of an account that is ours |
| `SwarmFanOut.SwarmResponse.OnPeerReply` | oxenss/rpc/request_handler.cpp:473-532 | a peer's reply, under the lock: counted, recorded as failed if there was none or if the peer's own dict says so, queued for retrying if it never arrived, and the client answered if it is the last |
| `SwarmFanOut.SwarmResponse.FinishLocally` | oxenss/rpc/request_handler.cpp:628-697 | the local part: what could not be delivered is queued if the store succeeded, the result recorded, and the client answered if it is the last |
| `SwarmFanOut.SwarmResponse.ReplyOrFail` | oxenss/rpc/request_handler.cpp:410-424 | the reply is a success exactly if some node did not fail |
| `SwarmFanOut.FanRunKeeps` | oxenss/rpc/request_handler.cpp:448-553 | in every interleaving the count is what is still waited for, the results are what has come in, and failed forwards wait, are queued or are retried as they should |
| `SwarmFanOut.RepliesOnce` | oxenss/rpc/request_handler.cpp:374-424 | in every interleaving there is no reply until the local result and that of every contacted peer are in, and then exactly one, with all of them, successful exactly if the local part succeeded or some peer's own dict came back without "failed" in it |
| `SwarmFanOut.InterpretedExactly` | oxenss/rpc/request_handler.cpp:426-447 | a forward is worth sending again exactly if there was no reply, and a success exactly if the reply is one dict that does not say it failed |
| `SwarmFanOut.FailedExactly` | oxenss/rpc/request_handler.cpp:456-521 | in every interleaving, the forwards taken as failed are exactly those to peers that could not be contacted, or whose outcome was a timeout or a full stream |
| `SwarmFanOut.DeliversOnce` | oxenss/rpc/request_handler.cpp:394-404 | each such peer, and no other, has a store's message queued exactly once if the store succeeded locally and never otherwise, and any other request retried exactly once |
| `SwarmFanOut.EveryPeerAccounted` | oxenss/rpc/request_handler.cpp:448-468 | no peer is left out: each is still to come, waited for, answered or failed |
| `Composition.RepliesOnce` | oxenss/rpc/request_handler.cpp:1563-1707 | for any nesting of batches, sequences and conditionals, any order of completion and any interleaving with the starting of a batch, there is no reply while anything is left to happen and then exactly one, which is what the request means: a batch's i-th result that of its i-th request, a sequence's results those up to and including the first failure |
| `Composition.ActKeeps` | oxenss/rpc/request_handler.cpp:1586-1668 | every completion keeps a batch's count equal to its empty slots and each slot its own request's reply, and a sequence's next request started only after the one before it succeeded |
| `Composition.BatchState.Handle` | oxenss/rpc/request_handler.cpp:1587-1600 | fills the request's own slot, counts it, and replies when none is missing |
| `BatchRace.RaceRefines` | oxenss/rpc/request_handler.cpp:1586-1600 | the handlers racing, each writing its element's code and body, decrementing and sending as separate steps: every decrement is the one step of the handler on the batch, exactly the one that then replies goes on to send, and no other step changes what the batch has counted |
| `BatchRace.RaceRepliesOnce` | oxenss/rpc/request_handler.cpp:1586-1600 | however they race, no element is written after the results are moved into the reply, there is at most one reply, with every response complete and in its request's place, and there is one when no handler has anything left to do |
| `NestedRaces.NestedRepliesOnce` | oxenss/rpc/request_handler.cpp:1563-1609 | for batches nested to any depth, the handlers of all of them racing step by step and each nested reply calling the handler of its place around it: nothing is written after a reply, until the whole has replied something is left to happen, and then every batch in it has replied once with what it means |
| `Composition.SequenceManager.Handle` | oxenss/rpc/request_handler.cpp:1643-1668 | appends the result, and goes on to the next request exactly if the code is from 200 to 299 and there is one, and otherwise replies with all the results |
| `Composition.SequencesStop` | oxenss/rpc/request_handler.cpp:1643-1668 | in every run, every sequence at whatever depth has started its next request exactly if the one before was answered with a code from 200 to 299, and when it replies all its results but the last have such codes, and the last has not or is of the last request |
| `Composition.SequenceMeans` | oxenss/rpc/request_handler.cpp:1643-1668 | and that is what a sequence is to be answered |
| `Composition.ConditionalMeans` | oxenss/rpc/request_handler.cpp:1677-1707 | a conditional is to be answered with the answer of its first request if the condition holds, of its second if not, and with none where it has none |
| `Onion.Build` | contrib/onion-request.cpp:275-317 | the reverse loop builds the nested layers, each naming the next hop |
| `Onion.PeelAll` | oxenss/rpc/onion_processing.cpp:16-97 | a request built for any number of hops, every part of which fits its size field, visits exactly those hops in order, each with its own key and encryption, and at the last of them is what was put in |
| `Onion.PacketsVisit` | contrib/onion-request.cpp:293-312 | the packets on the way name the given nodes, ephemeral keys and encryptions, in order |
| `Onion.FrameRoundTrip` | oxenss/rpc/onion_processing.cpp:131-163 | a framed blob is parsed back exactly if its size is under 2^32 |
| `Onion.SizeIsLittleEndian` | oxenss/rpc/onion_processing.cpp:131-163 | a size is four bytes, the lowest first |
| `Onion.BuiltArrives` | oxenss/server/https.cpp:328-336 | the request that is built is received by its first hop as that hop's packet, and from there visits the others and ends as what was put in |
| `Onion.LastHopGets` | oxenss/rpc/onion_processing.cpp:25-78 | the last hop gets the payload unchanged, or passes on the whole plaintext if a host is named |
| `Onion.ServerIsNamed` | oxenss/rpc/onion_processing.cpp:34-78 | the last hop passes a request with a host on exactly if host and target are texts and port and protocol are a number and a text if given: the whole plaintext, to those, with port 443 and https where they are not given |
| `Onion.NodeIsNamed` | oxenss/rpc/onion_processing.cpp:79-90 | a hop passes a request with neither headers nor a host on exactly if destination and ephemeral key decode and the encryption is known by one of its names or not given: to that node, with that key and encryption, AES-GCM if not given |
| `Onion.FlagsAreRead` | oxenss/rpc/onion_processing.cpp:25-33 | the last hop takes a request with headers exactly if its flags are flags: as JSON only if asked, in base64 unless asked not to |
| `SerialRuns.SerialRuns.Add` | oxenss/server/serial_runs.h:31-39 | starts a run, queues behind it, or refuses at the limit, and touches no other key |
| `SerialRuns.SerialRuns.Next` | oxenss/server/serial_runs.h:44-53 | hands out what waits, or ends the run, and touches no other key |
| `SerialRuns.RunsInOrder` | oxenss/server/serial_runs.h:31-53 | in every run, what was handed out and what waits are what was accepted in the order it arrived, nothing more is handed out while something runs, nothing waits while nothing runs, and no more than the limit waits |
| `SerialRuns.EventsExactly` | oxenss/server/serial_runs.h:31-53 | in every run, an arrival is handed out at once if nothing runs, refused exactly if 64 are waiting, and otherwise waits; and the end of a run hands out everything that waits |
| `ReplayOwners.ReplayOwners.Claim` | oxenss/server/replay_owners.h:27-34 | refused exactly if a newer replay has come to the key, and otherwise paces it |
| `ReplayOwners.ReplayOwners.Release` | oxenss/server/replay_owners.h:38-44 | true exactly if the replay is the one pacing the key, which then is not paced |
| `ReplayOwners.SupersededStops` | oxenss/server/replay_owners.h:27-44 | after a newer replay has claimed a key, an older one never claims or releases it again |
| `ReplayOwners.ReleasedOnce` | oxenss/server/replay_owners.h:38-44 | a release that succeeds follows a claim of the same replay, and a second one a second claim |
| `ReplayOwners.ClaimedExactly` | oxenss/server/replay_owners.h:27-34 | in every run, a claim is refused exactly if a replay with a higher number has claimed the key |
| `ReplayOwners.ReleasedExactly` | oxenss/server/replay_owners.h:38-44 | in every run, a release succeeds exactly if the replay has claimed the key and since then neither released it nor lost it |
| `ParkedRequests.MhdConn.Deliver` | oxenss/server/https_mhd.cpp:53-62 | the first delivery before the request is over is kept and wakes a parked connection; any other does nothing |
| `ParkedRequests.MhdConn.TakePending` | oxenss/server/https_mhd.cpp:301-307 | takes the response that waits, and leaves none |
| `ParkedRequests.FirstIsDelivered` | oxenss/server/https_mhd.cpp:50-62 | whatever is delivered to a request, however often, it has the first response and no other and is woken exactly once if parked, and nothing comes of any once it is over |
| `ParkedRequests.AnsweredOnce` | oxenss/server/https_mhd.cpp:218-340 | in every interleaving, a request is answered at most once, never woken without its response, twice, or after it is over; a parked one has no response pending; and its first reply, or the loss of its call, wakes it with the response that is queued |
| `ParkedRequests.BodyDoneExactly` | oxenss/server/https_mhd.cpp:218-340 | in every run, at the end of its body a request is answered as its headers were, or as too large without coming to a worker if its body went over, or is parked for a worker to answer |
| `ParkedRequests.NeverStranded` | oxenss/server/https_mhd.cpp:37-92 | a request whose body is in has its response, is about to, or waits for a worker that has still to reply, unless the client has gone |
| `RateLimiter.TakenIsBounded` | oxenss/rpc/rate_limiter.cpp:37-110 | in every run of requests and clean-ups with times that do not go back, of any requests in a row at most the bucket's size and the whole periods from the first to the last are taken, if each clean-up among them finds the bucket full by then or less than a whole period after its last request taken |
| `RateLimiter.CleanupBoundIsExact` | oxenss/rpc/rate_limiter.cpp:94-110 | for any number of requests taken at once from a full bucket and a clean-up any time later, the bound holds however the requests go on exactly if the clean-up meets that condition |
| `RateLimiter.CleanupBreaksBound` | oxenss/rpc/rate_limiter.cpp:94-110 | otherwise it fails: 600 requests taken at once, a clean-up a second later, and 600 more taken, where the bound is 900 |
| `RateLimiter.FillIsIdeal` | oxenss/rpc/rate_limiter.cpp:37-54 | clamping the time and 32-bit counting make no difference: a token for each whole period, up to the bucket's size |
| `RateLimiter.RefusedExactly` | oxenss/rpc/rate_limiter.cpp:37-64 | a request is refused exactly if the bucket is empty and less than a period, of 3333 or 1666 microseconds, has passed since its last request taken |
| `RateLimiter.RefusedIfSpent` | oxenss/rpc/rate_limiter.cpp:37-110 | in every run from the first request on, whatever clean-ups there are, a request is refused only after at least 600 of those before it were taken since some point |
| `RateLimiter.CleanupIsExact` | oxenss/rpc/rate_limiter.cpp:94-110 | a clean-up changes no later answer exactly if the bucket is full by then, and so deleted, or no whole period has passed since its last request taken |
| `RateLimiter.Limiter.ShouldRateLimit` | oxenss/rpc/rate_limiter.cpp:66-73 | a service node's request is taken as its own bucket says, and no other bucket changes |
| `RateLimiter.Limiter.ShouldRateLimitClient` | oxenss/rpc/rate_limiter.cpp:75-92 | a client's request likewise; a new client beyond the most is refused unless a clean-up makes room |
| `RateLimiter.Limiter.CleanBuckets` | oxenss/rpc/rate_limiter.cpp:94-110 | every bucket is filled and exactly the full ones deleted |

## Notes on the source

* The rate limiter does not meet the classical bound of a token bucket across its own clean-ups: a clean-up fills a
  bucket without moving the time that filling counts from, so the same time is credited again by the next
  request.  `RateLimiter.CleanupBreaksBound` is an instance, `RateLimiter.CleanupBoundIsExact` says exactly which
  clean-ups break the bound, and `RateLimiter.CleanupIsExact` which ones make any difference at all.
* A resume's limit raises the session's starts without looking whether the connection that asked for it still has the
  session.  If the session has lost it by then, notifications folded into the starts meanwhile can be passed
  over without being replayed or reported.  `LateLimit.LateRaisePassesOver` is such a run; `NoLoss.CutIsReported` is
  the promise that holds while the resume lasts, `NoLoss.LateRaiseIsExact` says exactly what a raise reports in any
  run, and `NoLoss.GuardedRaiseReports` what a test of the starts before raising them would be enough for.
* A size over 2^32 - 1 is truncated when a layer of an onion request is framed, and the frame then does not parse back to
  what was put in; `Onion.FrameRoundTrip` is an equivalence.
* Row ids can be used again after the newest row is deleted, since the table's key is not declared to grow for
  ever.  The model does not assume that they are not.

## Left out

- Signatures, key exchange, encryption and the derivation of account ids: given functions at most.
- The bt and JSON encodings of requests and replies; replies are values.  The list of live monitors in the reply to a resume is not modelled.
- The message database itself: a sequence of rows with ascending ids; a row that expires is one that is deleted.
- Parsing and validating a `monitor` request, and whether an account is ours: the model starts from valid subscriptions.
- MonitorServer.Monitors.HandleMonitorSession: the random source must yield some token that no session has, as the source's loop needs to end.
- MonitorServer.Monitors.constructor: the limit of sessions for each IP must be at least one.
- Index wrap-around of a session's table of accounts after 2^32 of them.
- A single `now` for each lock section, where closing a connection reads the clock twice.
- A second binding of a resumed session to the same connection, which changes nothing.
- Conditionals, and how the handlers of composed requests call each other, are modelled on values: the closure of a sequence that owns itself, and when it is freed, are not.
- Sequences and conditionals in the racing of batches: in `BatchRace` and `NestedRaces` the parts of a batch are leaves and batches, and in `Composition`, which has all of them, the handlers run in the step of the request that completes.
- An account in the table that does not parse, which a swarm change's pass ignores; what the pass is answered about an account is one answer for the whole pass.
- Leaves of composed requests, and peers, that call back more than once or throw.
- The hop limit of onion requests, and hops that a node takes to itself.
- Requests refused from their headers with the connection closed, the shutdown of the HTTP server, and its other backend.
- The transport of notifications and its pacing, which are only told which replay owns them.
- Forgetting a connection in the middle of a run of its requests or of its replays.
- The other endpoints, service node testing, and everything that is only plumbing.
