# A model of the node's control plane and of the link pipeline

The repository manages proxy servers. A manager pushes a configuration to its nodes; a node turns it into
running engines and accounts for their traffic; a registry serves subscription links. This project models the
parts of that chain that keep state or exist twice, and proves what they promise.

| module | component |
|---|---|
| `Hourly` | at most 168 hour buckets, normalised after every sample, and the window query over them |
| `Ledger` | raw engine counters become deltas, per-source aggregates, totals and hourly samples |
| `XrayAccounts`, `XrayEngine` | the Xray engine: a cold restart against a hot sync of the accounts that changed |
| `Routing` | source rules become Xray rules |
| `Groups` | how a configuration's inbounds are grouped by engine key, and which kind of engine a group gets |
| `Engines` | the running engines, the sockets they hold, and what visiting the groups in some order does to them |
| `Reconcile` | the engine manager: updates, restores and runs of one manager, and what they make of a configuration |
| `Outbounds` | the TrustTunnel client processes, one for each desired tag |
| `Supervisor` | a child process under a lock, with monitors and restart timers |
| `Acme` | certificates, renewal timers and renewals that give up the lock half-way |
| `GrpcWeb` | gRPC-Web frames: writing them and parsing a reply |
| `Placeholders`, `Subscriptions` | link templates: the manager's preview against the registry's service |
| `Configs` | the parts of a configuration that several components read |
| `Common` | options, addition modulo 2^64, sums over maps, trimming, string order |

Where the source updates fields, there is a class whose methods follow it statement by statement and are proved
equal to a function of the old state. The theorems are about that function, over every state, run or input.
What the environment decides (clocks, dialling, starting processes, obtaining certificates) is a parameter or an
arbitrary choice. In an update that includes the schedule: the order in which Go visits the groups of its map, and the
moments at which spawned children take their sockets.

## What the proofs bring to light

Each of these is a lemma here: an exact condition, or a concrete input.

- **Crash recovery is never armed** (`Supervisor.RecoveryIsNeverArmed`, `Supervisor.CrashRecoveredExactly`).
  `restart` clears `stopping` before it calls `stopLocked`, which sets it again
  (node/internal/engine/subprocess.go:33-36 and :115), so the delayed restart at lines 83-99 is dead code. A
  program that clears the flag after `stopLocked` does recover; both programs keep at most one live child.
- **A failed Xray restart can be reported as success later** (`XrayAccounts.DeadInstanceReportsSuccess`). The
  closed instance stays in `e.instance` (node/internal/engine/xray.go:125-150), so the last good configuration,
  sent again, takes the hot path and succeeds while nothing runs.
- **A hot sync is not always a restart** (`XrayAccounts.HotRefinesCold`). It is exactly when tokens carry no outer
  white space, no portal user is added or changed, no blank Hysteria2 token falls back to a password, and the
  inbounds that a sync skips come with the credentials they had before. Inbounds whose name has outer white space
  are never synced at all, so they agree with a restart exactly if they already did, and the cache forgets them
  (`XrayAccounts.UntrimmedNeverSynced`, `XrayAccounts.UntrimmedForgotten`).
- **"Same config in, same behavior out"** (README.md:7-8) holds for a configuration, over all runs of a manager and all
  schedules, exactly if no manager could ever apply it, or none could fail to: nothing is refused, all outbounds can be
  started, and a shared Xray group starts on a fresh engine, can be dialled by every engine that might keep its instance,
  and needs no socket (`Reconcile.OutcomeIndependentOfHistory`, `Reconcile.AlwaysAppliedExactly`,
  `Reconcile.NeverAppliedExactly`). So of the configurations that can be applied it fails for every one with an Xray
  inbound that listens.
- **Changing the core of an inbound can wedge a node** (`Reconcile.CoreSwitchFails`, `Reconcile.StaleEngineBlocks`). An
  update starts engines first (node/internal/engine/engine.go:244-268) and stops the unwanted ones only after every
  group has succeeded (lines 270-275). An Xray instance needs its ports when it starts
  (node/internal/engine/xray.go:125-150), so while a sing-box child listens on one of them the update fails, the child is
  not stopped, and every retry fails as well. A fresh manager applies the same configuration.
- **Whether an update succeeds can depend on Go's map order.** `Engines.SucceedsAlwaysExactly` says when it succeeds in
  every schedule and `Engines.SucceedsSometimesExactly` when in some: the first needs the sockets of the Xray group to be
  free at the start and safe from every child that comes to listen meanwhile, the second only that no stale engine holds
  one.
- **A successful update can leave an inbound unserved.** A child that finds its socket taken exits and is not restarted.
  A renamed sing-box inbound that keeps its port is an example (`Reconcile.RenameMayGoUnserved`), and
  `Engines.ServesAlwaysExactly` is the exact condition for an update that succeeds and serves every inbound in every
  schedule.
- **Other histories that change the outcome.** A shared Xray group that begins with a transparent-proxy or reverse-proxy
  inbound which does not name the Xray core is sent to Xray by the key function and to sing-box by the constructor
  (`Reconcile.TProxyDependsOnHistory`). An input that no fresh Xray instance accepts, such as a portal user without an
  account or a duplicate account, is accepted on the hot path (`XrayAccounts.UnservedPortalDependsOnHistory`,
  `XrayAccounts.OutcomeIndependentOfHistory`). A TrustTunnel client that cannot be started is accepted where one with the
  same signature already runs (`Outbounds.OutcomeIndependentOfHistory`).
- **Traffic is counted again after a failed read of Xray's statistics.** `querySingleStatPair` answers zero when
  `GetStats` fails (node/internal/engine/xray.go:1499-1518), the ledger takes that for a restart, and the next good
  reading is credited whole (`Ledger.FailedReadCountsTwice`). `Ledger.OverCountsExactly` says when the credit of a
  run exceeds the truth, `Ledger.NeverOverCounts` that it never does without such reads, and
  `Ledger.AggregateIsBounded` carries both over to the aggregates in the ledger, each fed by any number of engines.
- **The user list of a routing rule is dropped** (`Routing.UsersAreDropped`): a rule that names users and
  something else matches everybody's connections.
- **The outbound total drifts when the exclusion flag of an outbound with traffic flips**, and only then
  (`Ledger.OutboundBalanceExactly`, `Ledger.OutboundTotalConserved`).
- **An inbound on a node without groups that names none itself** is served by the registry to everybody and
  previewed by the manager to nobody (`Subscriptions.OfferAgreesExactly`, `Subscriptions.UngroupedOfferDiffers`).
- **An account with an empty name** is shown by its id in the registry only (`Placeholders.RenderingsAgreeExactly`),
  and a value that contains a placeholder of a later pass is rewritten by the manager only. A name in `{{name}}`, for
  instance, is safe by itself exactly if it contains none of `{token}`, `{name}` and `{id}`, or is `{name}` itself
  (`Placeholders.OneHoleExactly`), and safe in every template exactly if none of them even begins in it, or again it is
  `{name}` itself (`Placeholders.SafeExactly`).
- **Two TrustTunnel configurations can share a signature** if a field contains the separator
  (`Outbounds.SignaturesCollide`); then a changed user or password restarts nothing. Otherwise signatures tell
  configurations apart (`Outbounds.SignatureTells`, `Outbounds.SignaturesTellApart`).
- **A change of certificate settings is undone by a renewal on its way** (`Acme.RenewalUsesSettings`): the renewal gives
  the lock up after reading its entry, and a new certificate writes the settings it read back into the entry
  (node/internal/acme/acme.go:331-348).
- **A history window of more than 2562047 hours** overflows a 64-bit duration (`Hourly.HoursHonoured`).
- **A failed save may destroy the record of the last good configuration**, because the file is written in place
  (node/internal/engine/engine.go:509): `Reconcile.Manager.Update` promises the file only if the save succeeds.
- **The end of a history window inside the first hour after the epoch** means no end (`Hourly.UpperBoundHonoured`).
- **The bounds check of the reply parser can wrap on 32-bit machines**, and then it panics
  (`GrpcWeb.PanicsExactly`). A message of 2^32 bytes or more is framed with a truncated length and does not come
  back (`GrpcWeb.OneMessageExactly`).

## Model

| member | source | states |
|---|---|---|
| `Hourly.StreamingEqualsBatch` | node/internal/engine/metrics.go:318-383 | any samples, arriving in any order and trimmed at every step, leave the history that grouping all of them and trimming once would leave |
| `Hourly.StreamedIsNormal` | node/internal/engine/metrics.go:318-344 | sample by sample, the stored list is the normal form of all entries so far, including those of hours dropped in between |
| `Hourly.NormalAppends` | node/internal/engine/metrics.go:318-344 | normalising before an entry is appended changes nothing once the result is normalised again |
| `Hourly.TopThenMore` | node/internal/engine/metrics.go:379-382 | hours dropped early are never among the latest 168 after more hours arrive |
| `Hourly.LastAreLatest` | node/internal/engine/metrics.go:376-382 | cutting the sorted list at its end keeps the latest hours |
| `Hourly.NormalIdempotent` | node/internal/engine/metrics.go:346-383 | normalising twice is normalising once |
| `Hourly.NormalShape` | node/internal/engine/metrics.go:346-383 | a normal form is strictly ascending, without nulls, and holds the buckets of exactly those positive hours that have less than 168 later ones |
| `Hourly.NormalIgnoresOrder` | node/internal/engine/metrics.go:346-383 | lists with the same entries, in any order and multiplicity for multiplicity, have the same normal form |
| `Hourly.GroupMeaning` | node/internal/engine/metrics.go:350-371 | a positive hour has a bucket exactly if it has an entry; the bucket holds the sum of the traffic and the attained maximum of speed, users and inbounds over exactly its entries |
| `Hourly.HistoryConserves` | node/internal/engine/metrics.go:346-383 | traffic in the retained buckets plus traffic of evicted hours is all traffic, modulo 2^64 |
| `Hourly.SelectMeaning` | node/internal/engine/metrics.go:600-623 | a window answers with exactly the buckets inside it, still strictly ascending |
| `Hourly.WindowMeaning` | node/internal/engine/metrics.go:591-623 | what the bounds of a query let through, from its arguments alone |
| `Hourly.UpperBoundHonoured` | node/internal/engine/metrics.go:591-613 | a positive end bounds every answer if and only if it is at least one hour after the epoch |
| `Hourly.HoursHonoured` | node/internal/engine/metrics.go:614-615 | a window of some hours begins that many hours ago if and only if there are at most 2562047 of them |
| `Hourly.InsertByHour` | node/internal/engine/metrics.go:376-378 | one insertion of a sort by hour |
| `Hourly.SortByHour` | node/internal/engine/metrics.go:376-378 | sorting buckets of distinct hours lists the grouped hours from the earliest to the latest |
| `Hourly.AbsorbEntry` | node/internal/engine/metrics.go:355-370 | raising and adding field by field is one step of the grouping |
| `Hourly.CollectBuckets` | node/internal/engine/metrics.go:372-375 | the map is listed in an arbitrary order without loss or repetition |
| `Hourly.Normalize` | node/internal/engine/metrics.go:346-383 | the loops compute the normal form |
| `Hourly.History.constructor` | node/internal/engine/metrics.go:75-97 | loading normalises the persisted buckets |
| `Hourly.History.Record` | node/internal/engine/metrics.go:318-344 | normalise, find or append, update in place, normalise: together, one more entry, at the hour the sample falls into and with its figures |
| `Hourly.History.Query` | node/internal/engine/metrics.go:588-629 | the answer holds, in order, exactly the stored buckets from the hour of the start to the hour of the end, where a bound before one hour after the epoch is none; without either those of the last hours, or all; the stored list changes only up to normalisation |
| `Hourly.FilterInPlace` | node/internal/engine/metrics.go:600-613 | overwriting the array that is being read still keeps exactly the selected entries, in order |
| `Hourly.Filtered` | node/internal/engine/metrics.go:600-623 | the filter over the reused backing array returns the window |
| `Ledger.InboundTotalConserved` | node/internal/engine/metrics.go:149-276 | over every run the inbound totals are the sums over all inbound aggregates, per direction |
| `Ledger.OutboundTotalConserved` | node/internal/engine/metrics.go:233-248 | over every run the outbound totals are the sums over the aggregates that are not excluded, after every report, if and only if no report flips the flag of an outbound that has traffic |
| `Ledger.OutboundBalanceExactly` | node/internal/engine/metrics.go:233-248 | one report keeps that sum if and only if its flag is the recorded one or the outbound has no traffic yet |
| `Ledger.StaysBalancedExactly` | node/internal/engine/metrics.go:233-248 | the same for all reports of one pass |
| `Ledger.LedgerMatchesHistory` | node/internal/engine/metrics.go:149-276 | over every run, from any totals and any buckets, retained hourly traffic plus that of evicted hours grows by what the inbound total of both directions grows by |
| `Ledger.BaselineAfterPass` | node/internal/engine/metrics.go:251-255 | after a pass a source is remembered by its last reading, and only if this pass mentioned it |
| `Ledger.PassRecords` | node/internal/engine/metrics.go:182-273 | from any books, the sample of a pass has as speed half the bytes credited to inbounds and counted outbounds, as traffic the growth of the two totals, as users the ids that some report shows online or credits, and as inbounds the names credited or connected |
| `Ledger.OnlineAfterPass` | node/internal/engine/metrics.go:211-231 | after a pass an account shows the connections reported for it, and one more if it was credited while none had been reported |
| `Ledger.OutboundAfterPass` | node/internal/engine/metrics.go:233-241 | after a pass an outbound has type and flag of its last report, and is as before if there was none |
| `Ledger.SourcesApart` | node/internal/engine/metrics.go:200-240 | sources are told apart by kind and, within an engine, by name or trimmed id; across engines unless one engine name with its colon begins the other |
| `Ledger.AlwaysCoherent` | node/internal/engine/metrics.go:385-410 | under any interleaving of traffic, restarts, good and failed reads and missed polls, baseline, counter and open traffic fit together |
| `Ledger.NeverOverCounts` | node/internal/engine/metrics.go:251-255 | without a poll after a failed read of a counter that stood above zero, a source is never credited with more than it carried since it was first looked at |
| `Ledger.PollOverCreditsExactly` | node/internal/engine/xray.go:1499-1518 | a poll credits more than what moved since the last one if and only if it follows a failed read, the counter has not restarted since, and it stood above zero |
| `Ledger.CreditsBalance` | node/internal/engine/metrics.go:385-410 | over every run, credit plus what was lost plus what is still open is the truth plus what was credited twice |
| `Ledger.OverCountsExactly` | node/internal/engine/metrics.go:385-410 | over every run, the credit is within the truth if and only if not more was credited twice than was lost or is still open |
| `Ledger.FailedReadCountsTwice` | node/internal/engine/xray.go:1499-1518 | after any run, a good poll, a failed read and another good poll credit the whole counter again |
| `Ledger.ExactlyCounted` | node/internal/engine/metrics.go:385-410 | at a poll the credit is exact if and only if as much was credited twice as was lost; where nothing was credited twice, if and only if no poll so far came after a gap with traffic or a restart that hid some |
| `Ledger.SteadyCounting` | node/internal/engine/metrics.go:385-410 | without restarts, failed reads and gaps nothing is lost and the credit is the last reading minus the first |
| `Ledger.LedgerFollowsSources` | node/internal/engine/metrics.go:149-276 | over every run of passes that read counters or fail to, with other sources beside them, the aggregate of an inbound, account or outbound that any number of engines feed grows, modulo 2^64, by exactly the sum of what the counter models of its sources credit, and the baselines agree |
| `Ledger.AggregateIsBounded` | node/internal/engine/metrics.go:385-410 | so, without wrap-around, the aggregate in the ledger grows by at most the true traffic of all its sources if and only if not more was credited twice than was lost or is open, all sources together, and always if no source was polled after a failed read of a standing counter |
| `Ledger.ModelIsTraffic` | node/internal/engine/metrics.go:385-410 | the counter of that model stands at the traffic since the last restart, and its truth is the traffic since the source was first looked at |
| `Ledger.Manager.constructor` | node/internal/engine/metrics.go:48-59 | empty books are balanced |
| `Ledger.Manager.ApplyTrafficDelta` | node/internal/engine/metrics.go:385-420 | the first reading only sets the baseline, a decrease counts from zero, both directions are judged apart |
| `Ledger.Manager.SampleInbound` | node/internal/engine/metrics.go:195-209 | one inbound report moves aggregate, total, baseline and tally together |
| `Ledger.Manager.SampleAccount` | node/internal/engine/metrics.go:211-231 | one account report; blank ids are skipped |
| `Ledger.Manager.SampleOutbound` | node/internal/engine/metrics.go:233-248 | one outbound report; excluded ones stay out of the total |
| `Ledger.Manager.SampleEngine` | node/internal/engine/metrics.go:194-249 | all reports of one engine, in order |
| `Ledger.Manager.SampleEngines` | node/internal/engine/metrics.go:194-249 | all engines that answered |
| `Ledger.Manager.PollConnections` | node/internal/engine/metrics.go:257-263 | polled connections, in any order, create only zero aggregates |
| `Ledger.Manager.Sample` | node/internal/engine/metrics.go:149-276 | a whole pass: reports, forgetting of unseen sources, connections, and one more entry in the history with the credited bytes per second, the growth of both totals, the users shown and the inbounds credited or connected |
| `XrayAccounts.HotRefinesCold` | node/internal/engine/xray.go:76-353 | on every coherent live engine and every bootable input, the hot path leaves an inbound that has its name for itself with the user table of a full restart if and only if it meets a condition on its accounts, the cache and the running users, and one whose name has outer white space if and only if its table already was that; with clean names all tables agree if and only if all inbounds meet the condition |
| `XrayAccounts.TagRefines` | node/internal/engine/xray.go:261-353 | the same for one VLESS or Hysteria2 inbound |
| `XrayAccounts.SkippedRefines` | node/internal/engine/xray.go:246-248 | an inbound that a sync skips agrees with a restart if and only if its accounts have the credentials recorded when the instance started, or it does not look at accounts |
| `XrayAccounts.UntrimmedNeverSynced` | node/internal/engine/xray.go:241-251 | the table of a tag with outer white space never changes in a hot sync |
| `XrayAccounts.UntrimmedForgotten` | node/internal/engine/xray.go:238-259 | a successful hot update drops the cache entry of a tag with outer white space and leaves its table alone |
| `XrayAccounts.AlwaysCoherent` | node/internal/engine/xray.go:76-353 | over every run of updates and stops, including syncs that stop at a dial error, the live server has the tables of its tagged inbounds, and `lastAccounts` agrees with it on every inbound whose name is trimmed and shared with no other after trimming |
| `XrayAccounts.UpdateCoherent` | node/internal/engine/xray.go:76-89 | every single update keeps that agreement |
| `XrayAccounts.UsersAfterSync` | node/internal/engine/xray.go:297-345 | against an agreeing table a sync leaves exactly the wanted users: the unchanged ones as they are, the others fresh |
| `XrayAccounts.SyncRemembers` | node/internal/engine/xray.go:261-353 | a sync remembers under the trimmed name, unless no account has an id, for each id the trimmed token of its last account with the Hysteria2 fallback, and leaves other names alone |
| `XrayAccounts.SuccessMeansLive` | node/internal/engine/xray.go:76-89 | a successful update leaves a running instance if and only if it restarted or one was running before |
| `XrayAccounts.UpdateSucceedsExactly` | node/internal/engine/xray.go:76-150 | on the hot path an update succeeds if and only if it can dial, on the cold path if and only if an instance starts with the input |
| `XrayAccounts.UpdateInstance` | node/internal/engine/xray.go:76-150 | the hot path leaves the instance as it is, dead or alive, a successful restart leaves a live one with the new configuration, and a failed one a closed one with the old |
| `XrayAccounts.OutcomeIndependentOfHistory` | node/internal/engine/xray.go:76-150 | success does not depend on the runs before if and only if no engine can take the hot path with these inbounds, or dialling succeeds just when a fresh instance would start |
| `XrayAccounts.UnservedPortalDependsOnHistory` | node/internal/engine/xray.go:1097-1101 | where a portal user has no account, a fresh engine fails and one that ran the same inbounds with the account succeeds |
| `XrayAccounts.RestartableBoots` | node/internal/engine/xray.go:118-187 | inbounds that some engine can have started with do start once they come with suitable accounts |
| `XrayAccounts.RestartsExactly` | node/internal/engine/xray.go:118-187 | a restart succeeds if and only if nothing outside prevents it and the inbounds meet seven conditions, said from their fields |
| `XrayAccounts.RestartServes` | node/internal/engine/xray.go:583-713 | after a successful restart there is a table for every named inbound that is no portal, holding exactly the accounts that have an id with the credentials of their protocol: VLESS token, flow and reverse tag; Hysteria2 trimmed token; Shadowsocks trimmed token or else trimmed inbound password; WireGuard and SOCKS token |
| `XrayAccounts.RestartRemembers` | node/internal/engine/xray.go:157-174 | a restart remembers, for a name that is not blank and no other inbound has, the token of the last account of each id |
| `XrayAccounts.PortalsExactly` | node/internal/engine/xray.go:796-826 | portals are accepted if and only if each has a tag and a user and no user has two tags; then each user has the tag of its portals |
| `XrayAccounts.SuccessRecords` | node/internal/engine/xray.go:80-86 | after a successful update the engine remembers exactly this configuration |
| `XrayAccounts.DeadInstanceReportsSuccess` | node/internal/engine/xray.go:125-150 | after any good and any failing configuration, the good one sent again succeeds with no instance running |
| `XrayEngine.XrayEngine.constructor` | node/internal/engine/xray.go:68-74 | a new engine is coherent |
| `XrayEngine.XrayEngine.AlterInbound` | node/internal/engine/xray.go:302-331 | adding an existing user, removing a missing one and an unknown tag change nothing |
| `XrayEngine.XrayEngine.AddAccounts` | node/internal/engine/xray.go:297-333 | in any order of the emails, the requests bring new and changed users up to date, and none concerns an unchanged credential |
| `XrayEngine.XrayEngine.RemoveAccounts` | node/internal/engine/xray.go:335-345 | in any order, the vanished users go, and only they |
| `XrayEngine.XrayEngine.ReadCredentials` | node/internal/engine/xray.go:275-286 | trimmed tokens by id, with the Hysteria2 fallback; blank ids are skipped and the last of two wins |
| `XrayEngine.XrayEngine.SyncAccounts` | node/internal/engine/xray.go:261-353 | table and cache of one tag after a sync, and no request about an unchanged credential |
| `XrayEngine.XrayEngine.SyncInboundAccounts` | node/internal/engine/xray.go:238-259 | the inbounds in order up to the first dial error, and on success the cache of vanished tags is dropped |
| `XrayEngine.XrayEngine.CheckRestart` | node/internal/engine/xray.go:91-116 | when the hot path is not allowed |
| `XrayEngine.XrayEngine.BuildReverse` | node/internal/engine/xray.go:796-826 | which user is the portal of which tag, or an error |
| `XrayEngine.XrayEngine.Restart` | node/internal/engine/xray.go:118-187 | the whole state after a restart, and after a failed one; a started instance serves every inbound with its accounts and their credentials |
| `XrayEngine.XrayEngine.RecordAll` | node/internal/engine/xray.go:157-174 | what a restart remembers of all inbounds |
| `XrayEngine.XrayEngine.RecordAccounts` | node/internal/engine/xray.go:163-170 | the untrimmed tokens that a restart records |
| `XrayEngine.XrayEngine.UpdateConfig` | node/internal/engine/xray.go:76-89 | the whole new state, and coherence is kept; success without an instance, with a WireGuard inbound or with changed settings or inbounds means an instance that serves every inbound with its accounts and their credentials |
| `XrayEngine.XrayEngine.Stop` | node/internal/engine/xray.go:1520-1530 | stopping keeps coherence |
| `Routing.RoutingKeepsMeaning` | node/internal/engine/xray.go:1302-1348 | for every connection not from `api-in`, first match over the emitted rules is first match over the source rules that have a tag and a list with an entry or a transport, unknown tags read as `direct` |
| `Routing.UsableExactly` | node/internal/engine/xray.go:751-766 | a rule is emitted if and only if its tag is not blank and some domain, inbound tag, address, port or protocol is not blank or tcp or udp is mentioned |
| `Routing.EmitKeepsMeaning` | node/internal/engine/xray.go:760-794 | an emitted rule matches exactly the connections that the lists of its source rule describe, network lists included |
| `Routing.ApiComesFirst` | node/internal/engine/xray.go:1342-1348 | connections from `api-in` go to `api` whatever the rules |
| `Routing.UsersAreDropped` | node/internal/engine/xray.go:760-794 | the emitted rule keeps the full description if and only if the rule names no user |
| `Routing.EveryTagHandled` | node/internal/engine/xray.go:1103-1348 | every emitted tag names a handler if and only if no emitted rule has an unknown tag, or `direct` is allowed, or no outbound is emitted |
| `Routing.HandlersMeaning` | node/internal/engine/xray.go:1103-1334 | which tags are allowed and which have a handler, from the outbounds alone |
| `Routing.SplitJoin` | node/internal/engine/xray.go:389-416 | Xray splits the joined network list back into the same tokens |
| `Routing.TransportsMeaning` | node/internal/engine/xray.go:389-416 | the transports of a list are exactly the tcp and udp that some comma-separated part says in any case, each once |
| `Routing.NormalizeValues` | node/internal/engine/xray.go:374-387 | trimmed, without blanks, in order |
| `Routing.NormalizeTransports` | node/internal/engine/xray.go:389-416 | the tcp and udp tokens of all comma-separated parts, each once, in order of occurrence |
| `Routing.Convert` | node/internal/engine/xray.go:760-794 | one rule becomes one emitted rule, or none without a tag or a matcher |
| `Routing.BuildRoutingRules` | node/internal/engine/xray.go:760-794 | the list of emitted rules |
| `Routing.CollectTags` | node/internal/engine/xray.go:1103-1292 | the allowed tags, and the handlers of the instance |
| `Routing.ConvertRules` | node/internal/engine/xray.go:1302-1348 | the list of the redirected rules behind the API rule; every connection goes where the first matching source rule says, and those from `api-in` to the API |
| `Groups.GroupMembers` | node/internal/engine/engine.go:220-235 | every enabled inbound is in the group of its key, once, at the place its order gives it, and groups have no other members |
| `Groups.SharesEngineExactly` | node/internal/engine/engine.go:363-388 | two inbounds share an engine if and only if both run in Xray, both run in sing-box under one name, or both are of TrustTunnel and differ in none of name, address and port alone |
| `Groups.ActiveIsUnexpired` | node/internal/engine/engine.go:209-218 | the active accounts are those without expiry or with a later one, in order and as often as configured |
| `Engines.SucceedsAlwaysExactly` | node/internal/engine/engine.go:244-275 | for any running engines, an update of the groups succeeds in every schedule if and only if every other group can be spawned, and the shared Xray group keeps an instance that can be dialled, or starts on sockets that nobody holds now and no child can take meanwhile |
| `Engines.SucceedsSometimesExactly` | node/internal/engine/engine.go:244-275 | it succeeds in some schedule if and only if the same holds with no socket held by a stale engine, whatever the others hold |
| `Engines.ServesAlwaysExactly` | node/internal/engine/engine.go:244-275 | from engines at rest it succeeds in every schedule and leaves every inbound served once all children have settled, if and only if it succeeds in every schedule, the groups that need a child have their sockets for themselves before and after, and a kept Xray instance is alive |
| `Engines.VisitElsewhere` | node/internal/engine/engine.go:244-268 | at every other key the outcome depends on the group and the environment only, and on success a child of the right kind is starting for its inbound |
| `Engines.VisitShared` | node/internal/engine/engine.go:244-268 | at the shared key an engine that keeps its instance needs to be dialled, any other needs to start on free sockets, and without an Xray engine there the first inbound must name one; a failed start leaves nothing running |
| `Engines.PlayRuns` | node/internal/engine/engine.go:244-268 | after a whole schedule every key holds the kind that belongs to it, which has accepted its whole group; sing-box and TrustTunnel groups are single inbounds |
| `Engines.PlayExclusive` | node/internal/engine/engine.go:244-268 | in every schedule, and also when it fails half-way, no two engines come to hold the same socket |
| `Engines.PlayTracked` | node/internal/engine/engine.go:244-268 | and no engine object is lost: each is in the map under one key or was stopped |
| `Engines.PlayStuck` | node/internal/engine/engine.go:244-275 | while a stale engine holds a socket of the shared group and no Xray engine is kept, no schedule succeeds, and this stays so afterwards |
| `Reconcile.AlwaysSound` | node/internal/engine/engine.go:205-285 | over every run of one manager, failed updates and crashing children included, no engine and no outbound process is lost, no two engines hold the same socket, and every engine is of a kind that is possible for its key |
| `Reconcile.AppliesAlwaysExactly` | node/internal/engine/engine.go:205-285 | whatever a manager runs, an update gets as far as saving in every schedule if and only if its keys and certificates are fine, its outbounds can be synchronised, and its groups succeed in every schedule |
| `Reconcile.AppliesSometimesExactly` | node/internal/engine/engine.go:205-285 | the same for some schedule |
| `Reconcile.AlwaysAppliedExactly` | node/internal/engine/engine.go:205-285 | after every run and in every schedule an update applies if and only if a condition on the configuration and the environment alone holds |
| `Reconcile.NeverAppliedExactly` | node/internal/engine/engine.go:205-285 | after no run and in no schedule does it apply if and only if another such condition fails |
| `Reconcile.OutcomeIndependentOfHistory` | node/internal/engine/engine.go:205-285 | all runs and all schedules agree on a configuration if and only if it is guaranteed by the first condition or excluded by the second |
| `Reconcile.SameConfigSameOutcome` | README.md:7-8 | a configuration that a fresh manager applies in every schedule is applied in every schedule by a manager with a history if and only if no engine that it runs is in the way of the shared Xray group |
| `Reconcile.RefusedUntouched` | node/internal/engine/engine.go:224-239 | with an enabled inbound that no engine takes, or without its certificates, an update fails and touches nothing |
| `Reconcile.ConvergedServes` | node/internal/engine/engine.go:205-275 | converged engines serve every enabled inbound at its place in the group of its engine, with its own accounts or exactly those that have not expired |
| `Reconcile.AppliesSomewhere` | node/internal/engine/engine.go:205-285 | where a configuration could be applied, a run of at most two updates and a schedule are constructed that apply it |
| `Reconcile.FailsSomewhere` | node/internal/engine/engine.go:205-285 | where it is not guaranteed, a run and a schedule are constructed that do not |
| `Reconcile.StaleEngineBlocks` | node/internal/engine/engine.go:244-275 | while a stale engine holds a socket of the shared group, no number of retries at any times, in any environments and schedules, applies the configuration |
| `Reconcile.CoreSwitchFails` | node/internal/engine/engine.go:244-275 | a VLESS inbound that moves from sing-box to Xray at its port: a fresh manager applies it in every schedule, one that serves it never does, retries included |
| `Reconcile.RenameMayGoUnserved` | node/internal/engine/engine.go:244-275 | a sing-box inbound renamed at its port: the update succeeds in every schedule and in some leaves the inbound unserved |
| `Reconcile.TProxyDependsOnHistory` | node/internal/engine/engine.go:370-407 | a lone transparent-proxy inbound with the sing-box core fails on a fresh manager in every schedule and succeeds in every schedule after a run that leaves an Xray engine |
| `Reconcile.Manager.Update` | node/internal/engine/engine.go:205-285 | the whole new state as a function of the old one and the schedule; success follows from the condition for every schedule and implies the one for some schedule; on success the keys are those of the enabled inbounds, and every enabled inbound stands, at its place, in the accepted group of an engine of its kind, with its own accounts or, if it has none, with exactly the configured accounts that have no expiry or a later one, in order; the outbounds have converged and the file holds the configuration; on failure the record in memory is the old one, and the file too unless saving failed |
| `Reconcile.Manager.RestoreLastConfig` | node/internal/engine/engine.go:287-302 | nothing without a file, an error for an unreadable one, and otherwise an update with its configuration: on success its inbounds are served like after an update |
| `Reconcile.Manager.constructor` | node/internal/engine/engine.go:67-84 | a new manager has no engines and finds the persisted file |
| `Reconcile.Manager.ActiveAccounts` | node/internal/engine/engine.go:209-218 | exactly the accounts without an expiry time or with one in the future, in order and as often as configured |
| `Reconcile.Manager.GroupInbounds` | node/internal/engine/engine.go:220-235 | the groups by key, or an error if a key is empty |
| `Reconcile.Manager.StopEngine` | node/internal/engine/engine.go:247-251 | the key is deleted and its engine stopped |
| `Reconcile.Manager.ProvideEngine` | node/internal/engine/engine.go:244-258 | a matching engine is kept, a mismatch is stopped and replaced, and no other key is touched |
| `Reconcile.Manager.UpdateEngine` | node/internal/engine/engine.go:265-267 | the engine at the key goes through its own update, also when that fails |
| `Reconcile.Manager.VisitGroup` | node/internal/engine/engine.go:244-268 | the body of the loop over groups |
| `Reconcile.Manager.SettleChild` | node/internal/engine/subprocess.go:39-68 | a spawned child listens if its sockets are free, and exits otherwise |
| `Reconcile.Manager.ApplyGroups` | node/internal/engine/engine.go:244-268 | the loop over groups computes the schedule up to its first failure |
| `Reconcile.Manager.DropEngines` | node/internal/engine/engine.go:270-275 | in any order, exactly the engines of unwanted keys are stopped |
| `Reconcile.Manager.ApplyConfig` | node/internal/engine/engine.go:205-275 | an update as far as saving |
| `Reconcile.Manager.SaveConfig` | node/internal/engine/engine.go:478-510 | the file holds the configuration without its master key, or anything after a failure |
| `Outbounds.SyncConverges` | node/internal/engine/trusttunnel_outbound.go:37-85 | a successful sync leaves exactly the desired tags with matching signatures and keeps the very process of every tag that already matched |
| `Outbounds.FailureChangesSmallerTags` | node/internal/engine/trusttunnel_outbound.go:37-85 | a failed sync fails at a tag that is out of date and cannot be started; exactly the smaller desired tags are up to date and everything else is as it was |
| `Outbounds.SecondSyncDoesNothing` | node/internal/engine/trusttunnel_outbound.go:37-85 | an identical second sync starts and stops nothing and succeeds whatever could fail |
| `Outbounds.SyncSucceedsExactly` | node/internal/engine/trusttunnel_outbound.go:37-85 | a sync succeeds if and only if every desired tag has a matching process or can get one |
| `Outbounds.SyncReflects` | node/internal/engine/trusttunnel_outbound.go:37-118 | a sync succeeds if and only if for every tag the last TrustTunnel outbound with a client has a process with its signature, or has hostname, address, user and password and can be started; then the processes are exactly those, and matching ones are kept |
| `Outbounds.DesiredMeaning` | node/internal/engine/trusttunnel_outbound.go:41-52 | of several outbounds with one trimmed tag the last TrustTunnel outbound with a client is in force |
| `Outbounds.SignatureTells` | node/internal/engine/trusttunnel_outbound.go:193-208 | a new value of any one field changes the signature if and only if it differs by more than outer white space or the case of the protocol |
| `Outbounds.SignaturesTellApart` | node/internal/engine/trusttunnel_outbound.go:193-208 | without the separator inside a field, equal signatures mean equal configurations up to that |
| `Outbounds.SignaturesCollide` | node/internal/engine/trusttunnel_outbound.go:193-208 | with the separator inside, different users can share a signature |
| `Outbounds.OutcomeIndependentOfHistory` | node/internal/engine/trusttunnel_outbound.go:37-85 | success does not depend on the runs before if and only if a fresh manager could start every desired process, or some desired signature is one that no startable configuration has |
| `Outbounds.RunningAlready` | node/internal/engine/trusttunnel_outbound.go:62-65 | some run makes every desired tag up to date if each signature is that of a startable configuration |
| `Outbounds.SyncTracked` | node/internal/engine/trusttunnel_outbound.go:37-85 | after any sync the running processes are exactly those in the map, each under one tag |
| `Outbounds.Manager.constructor` | node/internal/engine/trusttunnel_outbound.go:27-29 | a new manager runs nothing |
| `Outbounds.Manager.CollectDesired` | node/internal/engine/trusttunnel_outbound.go:41-52 | the desired configurations by trimmed tag, the last duplicate wins |
| `Outbounds.Manager.SyncOne` | node/internal/engine/trusttunnel_outbound.go:60-74 | keep on equal signature, otherwise start the new process and then stop the old one |
| `Outbounds.Manager.SyncOutbounds` | node/internal/engine/trusttunnel_outbound.go:37-85 | the loop computes the sync, success leaves exactly the processes of the outbounds in force with their signatures, and every process stays tracked |
| `Outbounds.Manager.DropOthers` | node/internal/engine/trusttunnel_outbound.go:76-82 | in any order, exactly the undesired processes are stopped |
| `Outbounds.Manager.StopAll` | node/internal/engine/trusttunnel_outbound.go:87-94 | afterwards nothing runs |
| `Supervisor.AtMostOneChild` | node/internal/engine/subprocess.go:28-125 | over every interleaving, a child neither killed nor exited is the current `cmd`, so there is at most one |
| `Supervisor.OldGenerationIsHarmless` | node/internal/engine/subprocess.go:70-100 | a monitor or timer of an older generation neither clears nor replaces nor starts a child |
| `Supervisor.NoResurrection` | node/internal/engine/subprocess.go:108-125 | after a stop nothing is alive and nothing is started until the next restart, whatever was pending |
| `Supervisor.RecoveryIsNeverArmed` | node/internal/engine/subprocess.go:33-36 | in every reachable state of the code `stopping` holds once a child was started, and no timer is armed |
| `Supervisor.OnlyRestartStarts` | node/internal/engine/subprocess.go:83-99 | an event starts a child if and only if it is a restart with a command that the system can start |
| `Supervisor.CrashRecoveredExactly` | node/internal/engine/subprocess.go:28-100 | from any reachable state, a crashed child is replaced after the delay exactly in the program that clears the flag after `stopLocked` |
| `Supervisor.SupervisedProcess.constructor` | node/internal/engine/subprocess.go:24-26 | a new supervisor is safe |
| `Supervisor.SupervisedProcess.StartProcess` | node/internal/engine/subprocess.go:39-68 | the whole state after starting, and when it fails |
| `Supervisor.SupervisedProcess.StopProcess` | node/internal/engine/subprocess.go:114-125 | the whole state after stopping |
| `Supervisor.SupervisedProcess.RestartProcess` | node/internal/engine/subprocess.go:28-37 | a restart in the order of the code; safety is kept |
| `Supervisor.SupervisedProcess.Shutdown` | node/internal/engine/subprocess.go:108-112 | stop; safety is kept |
| `Supervisor.SupervisedProcess.MonitorProcess` | node/internal/engine/subprocess.go:70-100 | what a monitor does when its child is gone; safety is kept |
| `Supervisor.SupervisedProcess.FireTimer` | node/internal/engine/subprocess.go:86-98 | what a restart timer does; safety is kept |
| `Acme.RenewalNeverLost` | node/internal/acme/acme.go:123-385 | under any interleaving every managed domain has an armed timer or a renewal on its way, no domain has two armed timers, and every armed delay is positive |
| `Acme.ManagedForever` | node/internal/acme/acme.go:123-385 | a managed domain stays managed |
| `Acme.FinishArms` | node/internal/acme/acme.go:350-385 | the last section of a renewal leaves its domain with a timer at the renewal time of the new certificate, or in an hour and marked as failed without one or with an unknown expiry; the entry keeps its settings, and other domains their entries and timers |
| `Acme.RenewalTimeExactly` | node/internal/acme/acme.go:447-453 | the renewal time is thirty days before expiry if thirty days and a minute are left and otherwise in a minute |
| `Acme.ReadableCertificateScheduled` | node/internal/acme/acme.go:144-172 | a readable certificate is scheduled at its renewal time without a request, expired or not, with the settings of the call; other domains are as before |
| `Acme.RequestedCertificateScheduled` | node/internal/acme/acme.go:154-172 | entry and timer after a request, for each of its outcomes: the settings are those of the call, and only a failure marks the entry as failed |
| `Acme.IssuedCertificateScheduled` | node/internal/acme/acme.go:175-304 | a certificate issued by request is scheduled at its renewal time with the settings of the request; a failure and an unknown expiry change nothing |
| `Acme.RenewalUsesSettings` | node/internal/acme/acme.go:331-348 | a renewal requests with the settings its entry had when it began, and a new certificate puts them back into the entry whatever was changed meanwhile |
| `Acme.Manager.constructor` | node/internal/acme/acme.go:100-116 | every persisted domain has a timer for its renewal time |
| `Acme.Manager.RestoreSchedules` | node/internal/acme/acme.go:306-313 | the same, in any order of the domains |
| `Acme.Manager.ScheduleLocked` | node/internal/acme/acme.go:315-329 | the old timer is disarmed and the new one armed with a delay of at least a minute |
| `Acme.Manager.IssueLocked` | node/internal/acme/acme.go:189-304 | the effect of a request on entries and timers |
| `Acme.Manager.EnsureManagedCertificate` | node/internal/acme/acme.go:123-173 | the whole new state; soundness is kept |
| `Acme.Manager.IssueWithLogs` | node/internal/acme/acme.go:175-187 | the whole new state; soundness is kept |
| `Acme.Manager.BeginRenewal` | node/internal/acme/acme.go:331-337 | the first section of a renewal reads its entry and gives the lock up |
| `Acme.Manager.RequestRenewal` | node/internal/acme/acme.go:339-348 | the request, with the entry that was read |
| `Acme.Manager.FinishRenewal` | node/internal/acme/acme.go:350-385 | the last section schedules the entry as it is by then |
| `GrpcWeb.FramingRoundTrip` | manager/src/services/node_api.rs:23-87 | any payloads shorter than 2^32 followed by any trailer frame come back as their concatenation, with the status and error that the trailer says |
| `GrpcWeb.StatusRoundTrip` | manager/src/services/node_api.rs:23-87 | a trailer that is a status line comes back as that status |
| `GrpcWeb.OneMessageExactly` | manager/src/services/node_api.rs:23-29 | a message survives framing if and only if it is shorter than 2^32 |
| `GrpcWeb.MalformedExactly` | manager/src/services/node_api.rs:44-56 | on a wide machine the reply is malformed if and only if it is not whole frames followed by fewer than five bytes, and the parser never panics |
| `GrpcWeb.PanicsExactly` | manager/src/services/node_api.rs:44-58 | with 32-bit words the first overrunning frame makes the parser panic exactly if it would end at or beyond 2^32, and report a malformed reply otherwise |
| `GrpcWeb.ReplyMeaning` | manager/src/services/node_api.rs:38-87 | a parsed reply is the concatenation of the data frames, the last status and the error of all trailer lines |
| `GrpcWeb.LinesMeaning` | manager/src/services/node_api.rs:63-75 | the last message line wins over every status line in any order; without one the first failing status speaks |
| `GrpcWeb.MessageLine` | manager/src/services/node_api.rs:64-66 | a line `grpc-message:` sets the error to its trimmed, decoded text |
| `GrpcWeb.StatusLine` | manager/src/services/node_api.rs:67-74 | a line `grpc-status:` with a number below 2^32 and any white space around it sets the status, and the error `gRPC status` with the number unless that is zero or there is an error |
| `GrpcWeb.OtherLine` | manager/src/services/node_api.rs:64-75 | every other line changes nothing |
| `GrpcWeb.LinesSplit` | manager/src/services/node_api.rs:63 | the lines of a trailer joined with line breaks are its text, and none contains one |
| `GrpcWeb.DecimalRoundTrip` | manager/src/services/node_api.rs:67-69 | a printed number is read back |
| `GrpcWeb.FrameMessage` | manager/src/services/node_api.rs:23-29 | the frame on the wire, byte by byte |
| `GrpcWeb.ReadOneLine` | manager/src/services/node_api.rs:64-74 | the effect of one trailer line |
| `GrpcWeb.ReadTrailer` | manager/src/services/node_api.rs:61-76 | the effect of one trailer frame |
| `GrpcWeb.ReadOneFrame` | manager/src/services/node_api.rs:58-79 | the effect of one frame |
| `GrpcWeb.ParseResponse` | manager/src/services/node_api.rs:38-87 | the loop ends on all bytes, stays in bounds unless it reports a panic, and computes the scan followed by the reading of its frames |
| `Placeholders.ChainedRenders` | manager/src/services/registry_deploy.rs:289-297 | six passes give the intended rendering although `{token}` occurs inside `{{token}}`, for any template and any values that are safe in the placeholders it shows |
| `Placeholders.SafeExactly` | manager/src/services/registry_deploy.rs:289-297 | a value in one form of its placeholder renders as intended in every template, among any inert values, if and only if no placeholder of a later pass begins in it, even one that the text behind it would complete, or it is the single form of its own |
| `Placeholders.PassFills` | manager/src/services/registry_deploy.rs:289-297 | one pass fills exactly the holes of its kind |
| `Placeholders.ChainKeepsMargins` | manager/src/services/registry_deploy.rs:289-297 | the chain leaves white space around a template alone, whatever the values |
| `Placeholders.AtOnceRenders` | registry/cmd/registry/main.go:381-395 | one simultaneous pass gives the intended rendering, whatever the values |
| `Placeholders.RenderingsAgreeExactly` | registry/cmd/registry/main.go:381-395 | both sides render alike if and only if the name is not empty, or the id is, or the template does not show the name |
| `Placeholders.OneHoleExactly` | manager/src/services/registry_deploy.rs:289-297 | the chain shows a value in its placeholder as it is, whatever the other values, if and only if the value contains no placeholder of a later pass or is the single form of its own; the single pass always does |
| `Subscriptions.PreviewAgreesWithService` | manager/src/services/registry_deploy.rs:105-217 | the registry finds the account by its token and serves, in order and without repetitions, the links that the manager previews: the templates of the inbounds visible to its groups with its token, name and id in their places |
| `Subscriptions.ListsAgree` | registry/cmd/registry/main.go:318-346 | the lists agree for one account over the deployed template links |
| `Subscriptions.PreviewMeaning` | manager/src/services/registry_deploy.rs:105-155 | for an account with showable values, the preview is the list of the templates of the visible inbounds, each with token, name and id in their places, once and in order |
| `Subscriptions.ServedMeaning` | registry/cmd/registry/main.go:318-395 | for every account, the served list is that of the links for its groups, each with token, name or else id, and id in their places, once and in order |
| `Subscriptions.OffersInOrder` | manager/src/services/registry_deploy.rs:112-119 | inbounds are offered node by node, each with the groups of its node |
| `Subscriptions.OfferAgreesExactly` | registry/cmd/registry/main.go:318-346 | for one offered inbound both sides show the same link, or none, if and only if some group is named or no link would show |
| `Subscriptions.UngroupedOfferDiffers` | registry/cmd/registry/main.go:348-362 | an inbound without any group is served to everybody and previewed to nobody |
| `Subscriptions.IntersectionsAgreeExactly` | manager/src/services/registry_deploy.rs:281-287 | the two group tests agree for an account if and only if the template names a group |
| `Subscriptions.FirstGroupsMeaning` | registry/cmd/registry/main.go:364-379 | the registry's list names exactly the trimmed, non-blank groups, each once |
| `Subscriptions.SortedGroupsMeaning` | manager/src/state/mod.rs:128-138 | normalising groups again names the same groups |
| `Subscriptions.SortList` | manager/src/state/mod.rs:135 | an ordered list of the same strings |
| `Subscriptions.DedupSorted` | manager/src/state/mod.rs:136 | dropping equal neighbours of an ordered list leaves each string once |
| `Subscriptions.NormalizeGroups` | manager/src/state/mod.rs:128-138 | the sorted list of the trimmed, non-blank groups, each once |
| `Subscriptions.EffectiveGroups` | manager/src/state/mod.rs:140-150 | the node's groups, or those of them that the inbound names |
| `Subscriptions.IntersectGroups` | manager/src/services/registry_deploy.rs:281-287 | the search decides whether two lists share a group |
| `Subscriptions.PreviewOffer` | manager/src/services/registry_deploy.rs:116-150 | the link of one inbound in the preview |
| `Subscriptions.CollectLinks` | manager/src/services/registry_deploy.rs:105-155 | the previewed links, each once, in order, with the values of the account in their places |
| `Subscriptions.DeployOffer` | manager/src/services/registry_deploy.rs:173-206 | the template link that one inbound is deployed as |
| `Subscriptions.BuildTemplateLinks` | manager/src/services/registry_deploy.rs:164-217 | all template links, in order |
| `Subscriptions.BuildRegistryConfig` | manager/src/services/registry_deploy.rs:164-270 | accounts and template links of the deployed configuration |
| `Subscriptions.NormalizeInOrder` | registry/cmd/registry/main.go:364-379 | the groups in order of first occurrence |
| `Subscriptions.Intersects` | registry/cmd/registry/main.go:348-362 | shared group, or a template without groups |
| `Subscriptions.BuildSubscriptionLinks` | registry/cmd/registry/main.go:318-346 | the served links, each once, in order, with the values of the account in their places |

## Left out

Contracts that say less than the source could be read to promise:

- Ledger.NeverOverCounts: counts one direction of one source in unbounded numbers; `Ledger.LedgerFollowsSources` carries it over to the ledger modulo 2^64.
- Ledger.AggregateIsBounded: the credit is assumed not to wrap around; `Ledger.LedgerFollowsSources` speaks about all runs modulo 2^64.
- Ledger.LedgerMatchesHistory: samples are taken after the first hour of 1970, because the history drops the hour that begins at 0.
- XrayAccounts.AlwaysCoherent: says nothing about the cache of an inbound whose trimmed name is shared; `XrayAccounts.UntrimmedForgotten` shows what a hot update does to names with outer white space.
- Reconcile.OutcomeIndependentOfHistory: whether certificates can be synchronised and resolved is part of the environment, including what the path cache of custom certificates remembers.
- Engines.SucceedsAlwaysExactly: a killed child and a closed instance free their sockets at once, an instance that fails to start holds none, and children exit by themselves during an update only if a socket is taken. Sockets of other programs, of outbound clients, and clashes inside the Xray group are part of whether the environment lets an instance start.
- Engines.ServesAlwaysExactly: starts from engines whose children have all settled; `Engines.SucceedsAlwaysExactly` does not.
- Reconcile.Manager.RestoreLastConfig: that reading the file gives back the configuration that was written is assumed, except for the master key.
- XrayAccounts.HotRefinesCold: says nothing about a trimmed name that another name equals after trimming, since such a table is synced twice, and nothing about inputs that a restart refuses. What the proxy library does with a request (an existing user is refused, duplicate tags and duplicate VLESS or Hysteria2 users do not start) is assumed.
- Placeholders.SafeExactly: the other values are inert, that is, no placeholder begins in them; two values that are each unsafe could hide one another.
- Subscriptions.PreviewAgreesWithService: goes one way over whole lists, since a link that differs for one inbound may be repeated by another; inbound by inbound `Subscriptions.OfferAgreesExactly` goes both ways.
- Routing.EveryTagHandled: a custom outbound counts as a handler as soon as it names one; whether its registration succeeds is part of starting the instance.
- Ledger.OnlineAfterPass: an account has fewer than 2^32 - 1 connections reported in one pass; beyond that the count wraps around.
- Outbounds.SignaturesTellApart: address lists are compared joined with commas, since a comma inside an address looks like two addresses.
- Hourly.History.Query: for a window of more than 2562047 hours only the stated selection is promised; `Hourly.HoursHonoured` says that it does not begin where it should.
- GrpcWeb.StatusRoundTrip: UTF-8 decoding and URI decoding are parameters; the trailer's bytes are those that decode to its text.

Simplifications of the data:

- The sockets of an inbound are given with it; in the program they follow from its address, port and transport on the host.
- Buckets, engine objects, child processes and timers are values or numbered tokens, so aliasing and cloning are not modelled; nil inbounds, nil rules and nil outbounds do not occur.
- Speeds are non-negative reals; transfer rates, sessions and the current-sample fields are not modelled. Users and inbounds of a sample are counted without the limit of 32 bits.
- Generations and timer numbers do not overflow, and a reply is at least five bytes shorter than the range of a machine word.
- Trimming follows Unicode white space; lower-casing is that of ASCII, which decides tcp and udp alike.
- WireGuard peers are keyed by account id, those of accounts without one are left out, and their allowed addresses are not modelled; such inbounds always restart.
- Rules and DNS settings of an Xray engine, outbounds other than TrustTunnel, transports and TLS fields are opaque and only compared. E-mails are not lower-cased by the modelled server.
- The clock stands still within one critical section of the certificate manager.
- The manager's effective node configuration and the built template of an inbound are given, not computed.

Parts of the repository that are not modelled:

- Rendering of engine configurations, and the per-protocol fields of sing-box, TrustTunnel and Xray inbounds.
- File and JSON errors, other than that saving a configuration may fail.
- Connection counting, session lists, hardware statistics and logging.
- The custom-certificate path cache, which is keyed by name and not by content.
- Building of concrete links, the profile title and the usage header of a subscription.
- manager/src/services/registry_api.rs, which repeats the framing modelled here.
- The user interface, browser storage and the desktop shell.
