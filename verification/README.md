# Sapphire bridge: a verified model

This project models the parts of the sapphire bridge whose behaviour is hardest to see from one
function at a time, and proves what they promise over every input and every run:

- **the role election** (`Election`, `Elector`, `ElectorRuns`, `Network`, `ColdStart`, `Convergence`,
  `Succession`, `FairSchedules`, with the Hello bookkeeping in `HelloProtocol`): a ranking function,
  the stateful elector that runs it, and any number of electors hearing each other's latest Hellos;
- **the settings migration** (`Documents`, `EmbedSettings`, `ConfigFile`, `ConfigStore`,
  `MigrationSafety`, `MigrationTogether`, `MigrationMeaning`): folding format-1 files into one
  document, one file operation at a time, with a stop after any of them, judged by what the settings
  mean, and by what the old files meant;
- **the bridge's tables and protocols**: parked streams and app servers (`Tickets`, `Owners`,
  `Streams`, `Inbound`), invites and pairing (`Invitations`, `Pairing`), routes and registrations
  (`Routes`, `Registrations`), the rotating log (`RotatingLog`), the embedding worker (`EmbedWorker`);
- **arithmetic and batching**: uptime accounting (`Availability`), requests to an embedding endpoint
  (`RequestGroups`, `Rest`), and the text form of settings (`SettingsText`).

Where the program updates an object in place there is a class with its fields, and each method is
proved to compute a function of the old state; the run-level results are lemmas about those
functions. Clocks, random draws, disks that fail, HTTP answers and model outputs are parameters.
Device and workspace ids are integers (only their order matters); times are integers, in nanoseconds
where a constant matters; availability thresholds are compared as exact ratios.

## Where the program does not do what is said of it

- "The old secondary takes over when the primary goes" holds in every schedule exactly when no
  eligible host outranks it (`Succession.OldSecondaryTakesOverIffTop`, with `AUsurper`).
- Without any primary claim the election may never end: exactly when the hosts are trapped, the best
  one waiting for an heir that waits for it (`Succession.LeaderReachableIffNotTrapped`, with `ATrap`).
  Electors that heard different hosts before their primary went do get there (`TheTrapIsReached`).
  Hosts that keep stepping are sure of a primary exactly when no trap is open to them
  (`FairSchedules.AlwaysLedIff`).
- Running the migration again after a stop is harmless (config_file.rs:193, 208-209) except in one
  family, whose exact condition on the files and the stop is `MigrationSafety.LosesModels`: a host with
  models to give to a workgroup whose root has an old, well-typed `net.toml` and neither a `config.toml`
  nor an old `embedding.toml`, stopped between the root's own migration and the promotion
  (`StopAndRerun`, with `AStopThatLosesModels`; `PromotesExactlyWhatIsOffered` ties the files to what
  the migration does). Two runs at once lose nothing (`MigrationTogether.TwoRunsAreOne`).
- A failed registration is said to leave no route (control.rs:449-453). Once it has replaced the routes, a
  failure leaves them replaced. They are as they were exactly when the host is in no workgroup, a listed
  workspace is another app's, the routes could not be written, or the app's rows were already the ones asked
  for (`Registrations.AFailedRegistrationKeepsTheRoutesIff`, with `AFailedRegistrationLeavesARoute`).
- A joiner told to "pick another name" (pairing.rs:191-193) has lost its invite, which was for that name:
  a rejected attempt leaves an invite usable exactly when it gave another name or the invite file failed
  it (`Pairing.ARejectedInviteStillWorksIff`, with `ATakenNameSpendsTheInvite`), and one spent in vain is
  spent for good (`Pairing.SpentInVainIsSpentForGood`).
- An app is online only while its control connection is open (control.rs:154-158), except when a
  registration outlives its connection: handlers run on tasks of their own, and one that is past its last
  await when the connection closes still connects the app. The handle held is a closed connection's exactly
  when a registration on it came after the close (`Streams.ClosedHandleIffRegisteredLate`, with
  `AClosedHandleIsKept`).
- If two connections register one app, closing either takes it offline
  (`Streams.ClosingDropsWhatItRegistered`, with `ASecondConnectionIsDropped`); `Streams.OnlineIff` says
  exactly when an app is online, whatever the connections do.
- A registration naming a workspace twice is accepted and stored twice: one row per workspace is kept
  exactly when it names none twice (`Routes.ReplacingKeepsUnique`, with `AWorkspaceNamedTwice`).
- A list setting reads back as printed exactly when its items are plain (`SettingsText.ListRoundTripIffPlain`).

One more limit is out of the program's reach: a log told to keep no rotated file would keep one
(`RotatingLog.KeepsNoMoreThanAskedIff`, with `KeepingNoneKeepsOne`), and the only caller asks for three
(logging.rs:36, 108).

## Model

| member | source | states |
|---|---|---|
| `Election.Best` | crates/sapphire-framework-bridge/src/election.rs:33-43 | it names the device of a candidate that is picked and that no picked candidate outranks, and nothing exactly when nobody is picked |
| `Election.ElectIgnoresOrder` | crates/sapphire-framework-bridge/src/election.rs:54-72 | the outcome depends only on which candidates there are, not on their order or repetition |
| `Election.ElectIsFirstFit` | crates/sapphire-framework-bridge/src/election.rs:45-72 | over candidates sorted by rank the outcome is the first that fits each rule in turn, an independent reference definition |
| `Election.ThePrimaryByFields` | crates/sapphire-framework-bridge/src/election.rs:33-64 | among the candidates that contend (eligible primary claimants, else promoted standbys, else all eligible) the elected one has the highest priority, at equal priority the highest availability with unknown below known, at equal availability the highest id |
| `Election.TheSecondaryByFields` | crates/sapphire-framework-bridge/src/election.rs:33-72 | the same of the secondary, among the other eligible secondary claimants or, without any, the other eligible candidates |
| `Election.ElectedAreEligible` | crates/sapphire-framework-bridge/src/election.rs:54-72 | a primary exists exactly when a candidate has a nonzero priority, a secondary exactly when another one has; both are eligible candidates, and never the same device |
| `Election.ActingDoesNotChangeTheOutcome` | crates/sapphire-framework-bridge/src/election.rs:45-72 | with an eligible primary claim, any set of candidates taking up the outcome as their claims leaves the outcome as it is, whatever the rest claim |
| `Election.ElectIsAFixpoint` | crates/sapphire-framework-bridge/src/election.rs:54-72 | fed back as the claims of all, the outcome elects itself, promotion or not |
| `HelloProtocol.Neighbours.Heard` | crates/sapphire-framework-bridge/src/hello.rs:49-54 | the latest Hello of each device is kept under the device it names |
| `HelloProtocol.Neighbours.Reachable` | crates/sapphire-framework-bridge/src/hello.rs:60-68 | exactly the Hellos younger than the dead interval, at most one per device, in no promised order |
| `HelloProtocol.Neighbours.Track` | crates/sapphire-framework-bridge/src/hello.rs:86-92 | a link's task is remembered, and those of the same device that finished are dropped |
| `HelloProtocol.Neighbours.Cut` | crates/sapphire-framework-bridge/src/hello.rs:94-104 | every task of the device is ended and the device forgotten and unlinked; without a task nothing changes |
| `HelloProtocol.Neighbours.CutRetired` | crates/sapphire-framework-bridge/src/hello.rs:269-273 | one pass takes exactly the retired devices with links out of the heard, the linked and the tasks, and touches no other |
| `HelloProtocol.Neighbours.Dial` | crates/sapphire-framework-bridge/src/hello.rs:292-301 | exactly the active, announced devices of higher id that are not linked are dialed, each once, and become linked |
| `HelloProtocol.ToDial` | crates/sapphire-framework-bridge/src/hello.rs:292-301 | whom to dial, characterised by membership, without repetition |
| `HelloProtocol.Electable` | crates/sapphire-framework-bridge/src/hello.rs:216-230 | exactly the heard Hellos whose devices are active in the ledger |
| `Elector.Elector.constructor` | crates/sapphire-framework-bridge/src/election.rs:93-102 | a new elector claims nothing, has seen nothing and hosts nothing |
| `Elector.Elector.Open` | crates/sapphire-framework-bridge/src/election.rs:120-126 | what is no longer hosted is forgotten, what newly is gets dated, the rest is unchanged |
| `Elector.Elector.Vote` | crates/sapphire-framework-bridge/src/election.rs:129-173 | one workspace's election changes that workspace's seat as `Turn` says and no other |
| `Elector.Elector.Step` | crates/sapphire-framework-bridge/src/election.rs:114-185 | every workspace's seat, the Hello and the reported roles after a round, for every hosting list, repeated workspaces included |
| `ElectorRuns.NeverBothRoles` | crates/sapphire-framework-bridge/src/election.rs:114-185 | against arbitrary Hellos an elector never claims both roles of one workspace |
| `ElectorRuns.NeverTakesAHeldRole` | crates/sapphire-framework-bridge/src/election.rs:114-185 | it never newly takes the primary role while it hears another eligible claimant |
| `ElectorRuns.SinceIsContinuous` | crates/sapphire-framework-bridge/src/election.rs:120-123 | the remembered start is the round since which the workspace has been hosted without a break |
| `ElectorRuns.ClaimsOnlyAfterTheWait` | crates/sapphire-framework-bridge/src/election.rs:107-158 | with a monotone clock it claims a role only when it has hosted the workspace continuously for the wait |
| `ElectorRuns.KeepsThePrimaryRole` | crates/sapphire-framework-bridge/src/election.rs:142-158 | a primary claim survives a round exactly when the workspace is still hosted, the priority is nonzero and no higher-ranked eligible claimant is heard |
| `ElectorRuns.ReportsNameTheLedgerOnly` | crates/sapphire-framework-bridge/src/hello.rs:216-230 | behind the ledger's filter the reported roles name only this host or an active device heard hosting the workspace |
| `Network.RoundIsAct` | crates/sapphire-framework-bridge/src/election.rs:114-185 | a real elector's round, hearing the latest Hellos of the hosts of a workspace, is a step of the network the run-level results are about |
| `ColdStart.ColdStartIsSafe` | crates/sapphire-framework-bridge/src/election.rs:346-444 | any hosts, ranks, start times and step orders from nothing: never two primary claimants, and every reported star is around the one claimant, which reports itself primary |
| `ColdStart.NoStarBeforeAClaim` | crates/sapphire-framework-bridge/src/election.rs:111-113 | no host reports a star before it has heard a primary claim or made one |
| `ColdStart.ColdStartConverges` | crates/sapphire-framework-bridge/src/election.rs:346-444 | once every host has stepped past its wait exactly one claims, if any priority is nonzero; it keeps the claim for ever and every later step reports it |
| `Convergence.TheBestClaimantLeads` | crates/sapphire-framework-bridge/src/election.rs:56-64 | while an eligible host claims the role, the best-ranked of those that do is elected |
| `Convergence.Converges` | crates/sapphire-framework-bridge/src/election.rs:128-158 | hosts past their wait, from any claims with one eligible primary claim: every step of every run elects the same pair, and who has stepped claims exactly its part, then and ever after |
| `Convergence.EveryoneAgrees` | crates/sapphire-framework-bridge/src/election.rs:54-72 | once each has stepped, the best-ranked eligible claimant and, if another eligible host exists, one secondary are exactly what is claimed, and all report them |
| `Convergence.AColdStartFillsBothRoles` | crates/sapphire-framework-bridge/src/election.rs:346-444 | from nothing: once every host has stepped past its wait and then again, all claim and report one pair of eligible hosts |
| `Succession.LeaderReachableIffNotTrapped` | crates/sapphire-framework-bridge/src/election.rs:50-64 | with no primary claim, some schedule leads to one if and only if the hosts are not trapped |
| `Succession.TrappedForEver` | crates/sapphire-framework-bridge/src/election.rs:50-64 | trapped hosts never get a primary, in any schedule |
| `Succession.UntrappedCanBeLed` | crates/sapphire-framework-bridge/src/election.rs:50-64 | hosts that are not trapped have a schedule that ends with a primary claim |
| `Succession.ATrap` | crates/sapphire-framework-bridge/src/election.rs:50-64 | three hosts of which none can ever become primary |
| `Succession.TheTrapIsReached` | crates/sapphire-framework-bridge/src/election.rs:114-185 | one round of each of three electors, hearing different hosts, leaves exactly the seats of that trap |
| `Succession.TopHeirLeads` | crates/sapphire-framework-bridge/src/election.rs:47-64 | after the primary goes, an old secondary nobody outranks takes over as soon as it steps, and nobody else ever does |
| `Succession.OldSecondaryTakesOverIffTop` | crates/sapphire-framework-bridge/src/election.rs:47-64 | the old secondary is the only one to take over in every schedule if and only if no eligible host outranks it |
| `Succession.AUsurper` | crates/sapphire-framework-bridge/src/election.rs:47-64 | two hosts and a schedule in which the old secondary does not take over |
| `Succession.ThePrimaryLeaves` | crates/sapphire-framework-bridge/src/election.rs:47-64 | when the primary of a converged network goes, the hosts left have all seen it and its secondary is their only heir |
| `Succession.TakeoverAfterConvergence` | crates/sapphire-framework-bridge/src/election.rs:47-64 | from any claims with an eligible one: after convergence and the loss of the primary, its secondary alone takes over in every schedule if and only if no eligible host left outranks it |
| `FairSchedules.AlwaysLedIff` | crates/sapphire-framework-bridge/src/election.rs:50-64 | for any three or more rounds of steps by every host: each such schedule, in whatever order, ends with a primary claim if and only if it is not so that the best host has seen a claim and is no heir, the best heir has seen none, and another heir has |
| `MigrationSafety.PromotesExactlyWhatIsOffered` | crates/sapphire-framework-bridge/src/config_file.rs:308-369 | a run that ends well gives this host's models to its workgroup if and only if it has some and the root has neither a `config.toml` nor models nor an unreadable or ill-typed `net.toml` |
| `MigrationSafety.StopAndRerun` | crates/sapphire-framework-bridge/src/config_file.rs:200-306 | stopped after any one file operation and run again, the resolved settings equal an uninterrupted run's, `shadowed` aside, if and only if it is not so that the files offer models that configure something, or are invalid, to a root with an old `net.toml` and the stop comes after the first or the second operation |
| `MigrationSafety.AnyNumberOfStops` | crates/sapphire-framework-bridge/src/config_file.rs:200-306 | after any stops, however many, the resolved settings equal an uninterrupted run's, `shadowed` aside, if and only if the first effective one does not lose models; so always without a workgroup or with a root that has no old `net.toml` |
| `MigrationSafety.AStopThatLosesModels` | crates/sapphire-framework-bridge/src/config_file.rs:308-369 | the excluded case is real: a concrete host that embeds after an uninterrupted run and not after a stop and a rerun |
| `MigrationSafety.StoppedCanRunAgain` | crates/sapphire-framework-bridge/src/config_file.rs:207-209 | what any stop leaves is again a directory the migration succeeds on, and it promotes nothing more |
| `MigrationSafety.UnderAWorkgroup` | crates/sapphire-framework-bridge/src/embed_settings.rs:118-201 | two directories of a workgroup with the same device keys mean the same when the shared models agree, and not when one has none and the other has some or a broken file |
| `MigrationSafety.NeverReplaces` | crates/sapphire-framework-bridge/src/config_file.rs:191-193 | wherever it stops, and even if it fails, every table the device's `config.toml` had, and every entry of its `[embed]`, is there as it was |
| `MigrationSafety.NeverReplacesInTheRoot` | crates/sapphire-framework-bridge/src/config_file.rs:308-369 | the same of the workgroup root's document between any two operations of a run, the promotion included |
| `MigrationSafety.RootMigrationNeverReplaces` | crates/sapphire-framework-bridge/src/config_file.rs:371-446 | the same of a root migrated on its own |
| `MigrationSafety.OldFilesAreKept` | crates/sapphire-framework-bridge/src/config_file.rs:297-305 | a finished migration has put each old file aside with its content |
| `MigrationTogether.TwoRunsAreOne` | crates/sapphire-framework-bridge/src/dir.rs:73-79 | two runs, one begun after any of the other's operations, their remaining operations interleaved in any way: every file but the device's `config.toml` ends as after one run, and the settings mean the same |
| `MigrationMeaning.TheSettingsSurvive` | crates/sapphire-framework-bridge/src/config_file.rs:200-306 | for a host without a workgroup, or giving its models to one, and with no `[embed]` before: the models in effect are those of the old `[models]` with the default local name, or none and a note exactly when these are invalid; switches, cache and quantization are those of the old tables, and which slot serves follows |
| `MigrationMeaning.TheDeviceSays` | crates/sapphire-framework-bridge/src/config_file.rs:200-306 | any finished migration: each entry of the device's `[embed]` is the one it had, or else what the old switch and model tables say together, without the models exactly when they were offered to the workgroup |
| `MigrationMeaning.TheOtherTables` | crates/sapphire-framework-bridge/src/config_file.rs:210-225 | `[net]` is the one there was, or else the old `net.toml`, and no other table comes, goes or changes |
| `MigrationMeaning.DeviceMigratesIff` | crates/sapphire-framework-bridge/src/config_file.rs:210-306 | a device's migration succeeds if and only if its files can be read, the old slots are tables, models it offers its workgroup are well typed, and the document it ends with is |
| `MigrationMeaning.TheWorkgroupSays` | crates/sapphire-framework-bridge/src/config_file.rs:308-369 | a host that offers its models: the workgroup's root then says exactly what the old model tables said |
| `MigrationMeaning.TheRootSays` | crates/sapphire-framework-bridge/src/config_file.rs:371-446 | a root whose migration succeeds says what its `config.toml` did, or else what its old files did, and these are gone |
| `MigrationMeaning.RootMigratesIff` | crates/sapphire-framework-bridge/src/config_file.rs:380-446 | a root's migration succeeds if and only if what it takes something from can be read, with tables for slots, and the document it would write is well typed |
| `MigrationMeaning.MalformedIsLeftAlone` | crates/sapphire-framework-bridge/src/config_file.rs:286-296 | a device whose `config.toml` holds an unknown table or key, or one of the wrong type, is not migrated, and every file of the device is as it was |
| `MigrationMeaning.WithoutRootSettings` | crates/sapphire-framework-bridge/src/embed_settings.rs:213-221 | a workgroup's unreadable `config.toml` is invalid models and a missing one none; a device's is no switches |
| `EmbedSettings.TheModelsInEffect` | crates/sapphire-framework-bridge/src/embed_settings.rs:118-201 | the workgroup's models, or without one the device's, are in effect exactly when valid; the note says so otherwise |
| `EmbedSettings.WhichSlotServes` | crates/sapphire-framework-bridge/src/embed_settings.rs:118-201 | the remote slot serves when configured and not switched off, also when both are on; else the local one when configured and on by its switch or, without one, by AVX2; and what the note says of it |
| `EmbedSettings.LocalReadsBack` | crates/sapphire-framework-bridge/src/config_file.rs:62-77 | a local slot written down key by key reads back as it was, and is well typed if and only if its numbers are in range and its quantization is one of the four |
| `EmbedSettings.RemoteReadsBack` | crates/sapphire-framework-bridge/src/config_file.rs:79-92 | the same of a remote slot |
| `ConfigStore.Store.MigrateDevice` | crates/sapphire-framework-bridge/src/config_file.rs:210-306 | editing the document in place and doing file operations until the power goes does exactly the planned operations in order, as many as the power allows, and ends well, with an error or stopped accordingly |
| `ConfigStore.Store.PromoteModels` | crates/sapphire-framework-bridge/src/config_file.rs:323-369 | the same for giving a host's models to its workgroup, and whether they moved |
| `ConfigStore.Store.MigrateWorkgroup` | crates/sapphire-framework-bridge/src/config_file.rs:380-446 | the same for a workgroup's root |
| `ConfigStore.Store.FoldDevice` | crates/sapphire-framework-bridge/src/config_file.rs:258-286 | the in-place edit of `[embed]` adds the old entries exactly where there were none, and leaves no empty table it created |
| `Availability.Credit` | crates/sapphire-framework-bridge/src/availability.rs:48-57 | never more than the monotonic clock, the wall clock or two ticks, and equal to one of them |
| `Availability.Recorder.Add` | crates/sapphire-framework-bridge/src/availability.rs:110-121 | the whole record after a credit |
| `Availability.Recorder.Tier` | crates/sapphire-framework-bridge/src/availability.rs:127-159 | the announced tier, summed over whatever days the record holds, and by its bounds on the minutes up |
| `Availability.Recorder.Run` | crates/sapphire-framework-bridge/src/availability.rs:178-197 | the record after every tick of a process, and the tier announced after each |
| `Availability.TierByMinutes` | crates/sapphire-framework-bridge/src/availability.rs:36-46 | for every record and instant: no tier under an hour; tier 3, 2 or 1 exactly when the minutes up reach 99, 95 or 80 per cent of the window's, one lower and never below 0 with less than a week of history |
| `Availability.MoreMinutesNeverLower` | crates/sapphire-framework-bridge/src/availability.rs:127-169 | more minutes on any days never lower the tier |
| `Availability.ARestartTakesUpWhatWasSaved` | crates/sapphire-framework-bridge/src/availability.rs:83-108 | over any run, a process that starts takes up the record of the last tick that was saved, without its remainder, or begins a history when nothing was saved or can be read |
| `Availability.NeverOvercounts` | crates/sapphire-framework-bridge/src/availability.rs:54-57 | over any run with restarts, unreadable histories, failed saves and sleeps, a wall clock that never goes backward leaves fewer minutes in the window than its span plus three; the carry stays under a minute and a day under 1440 |
| `Availability.CreditIsConserved` | crates/sapphire-framework-bridge/src/availability.rs:110-118 | time credited equals sixty seconds per whole minute credited plus the carry |
| `Availability.CreditIsRealTime` | crates/sapphire-framework-bridge/src/availability.rs:48-57 | time credited over a run is at most what each clock saw pass, and at most two ticks' worth a tick |
| `Availability.DaysHoldTheirCredit` | crates/sapphire-framework-bridge/src/availability.rs:110-121 | after any ticks each day of the window holds exactly the minutes credited on it, up to 1440, and no older day is left |
| `Availability.AlwaysUpReachesTheTopTier` | crates/sapphire-framework-bridge/src/availability.rs:123-159 | a host always up and ticking once a minute, started at any instant, has a share of exactly all the window's minutes at every tick with an hour of history, across every midnight and window: no tier for an hour, tier 2 until a week and tier 3 ever after |
| `RequestGroups.CapChars` | crates/sapphire-framework-bridge-embed/src/rest.rs:24-30 | a prefix, whole when short enough and of exactly the cap otherwise |
| `RequestGroups.GroupRequests` | crates/sapphire-framework-bridge-embed/src/rest.rs:36-53 | the loop computes the groups that each reach as far as they can |
| `RequestGroups.GreedyCovers` | crates/sapphire-framework-bridge-embed/src/rest.rs:32-53 | the groups are nonempty consecutive ranges that cover every input once in order, each within the limit or a single input |
| `RequestGroups.GreedyIsOptimal` | crates/sapphire-framework-bridge-embed/src/rest.rs:32-53 | no grouping that obeys that rule has fewer groups |
| `RequestGroups.RequestsStayWithinTheLimit` | crates/sapphire-framework-bridge-embed/src/rest.rs:12-22 | with inputs capped first no request is over the limit |
| `Rest.ParseResponse` | crates/sapphire-framework-bridge-embed/src/rest.rs:55-91 | the slot-filling loop computes the vectors, or the error of the first object at fault |
| `Rest.ResponsesAreReassembled` | crates/sapphire-framework-bridge-embed/src/rest.rs:55-91 | a response is accepted if and only if it has one embedding for each index; each then stands at its own index and none is missing, whatever their order |
| `Rest.AcceptedResponses` | crates/sapphire-framework-bridge-embed/src/rest.rs:55-91 | in terms of the JSON: accepted if and only if `data` is an array of as many entries as inputs, with distinct indices below that and numbers for an embedding; the vector at an index is its entry's numbers in order |
| `Rest.WhyAResponseIsRefused` | crates/sapphire-framework-bridge-embed/src/rest.rs:55-91 | which error a refused response gives: not a list, the wrong length, or the fault of its first item in disorder |
| `Rest.EachEntryIsCutToSize` | crates/sapphire-framework-bridge-embed/src/rest.rs:202-223 | whatever the endpoint answers, a success gives each entry's numbers at its index, as they are when as many as configured, else the first of them normalized again |
| `Rest.EmbedTexts` | crates/sapphire-framework-bridge-embed/src/rest.rs:195-223 | the nested loops compute the vectors of all requests in order, or the first error |
| `Rest.OneVectorPerText` | crates/sapphire-framework-bridge-embed/src/rest.rs:189-223 | whatever the endpoint answers, a success has one vector per text, each of the configured dimension |
| `Rest.ResultsFollowTheTexts` | crates/sapphire-framework-bridge-embed/src/rest.rs:189-223 | against an endpoint that embeds each input by one function, in any response order, the call fails only for a short vector, and result i is the vector of capped text i, or its first coordinates normalized again when it is longer than configured, however the texts were grouped |
| `RotatingLog.Rotating.Rotate` | crates/sapphire-framework-bridge/src/logging.rs:360-374 | the renaming loop shifts every rotated file, from any files at all |
| `RotatingLog.Rotating.Write` | crates/sapphire-framework-bridge/src/logging.rs:397-416 | the files and the counter after one write, and the counter is the current file's length |
| `RotatingLog.FilesHoldTheLastParts` | crates/sapphire-framework-bridge/src/logging.rs:347-416 | after any writes and restarts the files are the last parts of a plain account of which write begins a new file |
| `RotatingLog.TheFilesAreTheTail` | crates/sapphire-framework-bridge/src/logging.rs:347-416 | from an empty directory: numbered without gaps, exactly as many as were ever begun up to `keep` and one (two when none is to be kept), and read oldest first they are the last writes, whole, in order and nothing else |
| `RotatingLog.KeepsNoMoreThanAskedIff` | crates/sapphire-framework-bridge/src/logging.rs:347-374 | at most `keep` rotated files are left if and only if `keep` is not zero or everything written fits one file |
| `RotatingLog.KeepingNoneKeepsOne` | crates/sapphire-framework-bridge/src/logging.rs:360-374 | two writes to a log that keeps none, and the rotated file they leave |
| `RotatingLog.NoWriteIsSplit` | crates/sapphire-framework-bridge/src/logging.rs:397-416 | each file is a run of whole writes, within the limit or a single write, and was left only for a write it had no room for |
| `Tickets.Tickets.Park` | crates/sapphire-framework-bridge/src/data.rs:52-67 | expired streams are dropped and the new one is parked, unannounced |
| `Tickets.Tickets.Hold` | crates/sapphire-framework-bridge/src/data.rs:71-76 | the announcement is kept with its own stream, or nothing happens |
| `Tickets.Tickets.Unannounced` | crates/sapphire-framework-bridge/src/data.rs:80-92 | exactly the announcements held for the app whose streams are still parked are handed out, each once, and no other changes |
| `Tickets.Tickets.Claim` | crates/sapphire-framework-bridge/src/data.rs:95-99 | the stream parked under the ticket, if its minute is not over, and the ticket is gone |
| `Owners.CloseConnection` | crates/sapphire-framework-bridge/src/control.rs:163-168 | a closing connection takes offline what it registered and nothing else |
| `Owners.Wakes.Claim` | crates/sapphire-framework-bridge/src/control.rs:93-103 | the decision to start an app, and the time remembered when it is granted |
| `Owners.GrantedExactlyWhenQuiet` | crates/sapphire-framework-bridge/src/control.rs:87-103 | an ask starts its app if and only if no start of that app was granted in the five seconds before |
| `Owners.NoForkBomb` | crates/sapphire-framework-bridge/src/control.rs:71-76 | however often peers ask, and whatever the clock does, a span of time T holds at most T/5s + 1 starts of an app |
| `Streams.Bridge.Arrived` | crates/sapphire-framework-bridge/src/data.rs:504-520 | parking a stream, then announcing it to a connected owner or holding the announcement, is one step of the run |
| `Streams.Bridge.Registered` | crates/sapphire-framework-bridge/src/control.rs:494-503 | connecting, recording and draining what is held is one step of the run |
| `Streams.ATicketWorksOnceAndInTime` | crates/sapphire-framework-bridge/src/data.rs:94-98 | over any run with fresh tickets, presenting one yields a stream if and only if that stream arrived under it less than 60 s ago and was not handed out before |
| `Streams.AnnouncedOnceToItsApp` | crates/sapphire-framework-bridge/src/data.rs:69-92 | an announcement is made at most once, on the connection its own app registered, while its stream is parked and in its minute |
| `Streams.OnlineAppsHaveHeardOfEveryStream` | crates/sapphire-framework-bridge/src/control.rs:498-503 | in every reachable state each parked stream of an online app has been announced and none of its announcements is still held |
| `Streams.OwnersStand` | crates/sapphire-framework-bridge/src/control.rs:43-69 | in every run, an app is reached only on a connection that registered it and has not closed since |
| `Streams.SessionsStand` | crates/sapphire-framework-bridge/src/control.rs:106-130 | a connection's list holds exactly the apps it registered since it last closed |
| `Streams.SessionsListOnce` | crates/sapphire-framework-bridge/src/control.rs:117-124 | however often an app registers on a connection, its list has it once |
| `Streams.ClosedHandleIffRegisteredLate` | crates/sapphire-framework-bridge/src/control.rs:154-169 | the handle held for an app is a closed connection's if and only if a registration on that connection came after its close |
| `Streams.AClosedHandleIsKept` | crates/sapphire-framework-bridge/src/control.rs:438-496 | a run in which a late registration leaves an app online on a closed connection |
| `Streams.ClosingDropsWhatItRegistered` | crates/sapphire-framework-bridge/src/control.rs:112-169 | over any run, a close takes an online app offline if and only if the closing connection registered it and has not closed since, whoever the app is reached by |
| `Streams.ASecondConnectionIsDropped` | crates/sapphire-framework-bridge/src/control.rs:43-69 | a run in which an app whose connection is open goes offline with an older one |
| `Streams.OnlineIff` | crates/sapphire-framework-bridge/src/control.rs:152-169 | over any run, an app is online if and only if some registration of it was not followed by the close of a connection that stood for it |
| `Streams.OnlineWhileRegistered` | crates/sapphire-framework-bridge/src/control.rs:152-169 | if no app registers while another connection stands for it, it is online exactly while some connection has registered it and not closed since, and only one has |
| `Inbound.Answer` | crates/sapphire-framework-bridge/src/data.rs:441-566 | the early exits of the inbound loop change nothing; otherwise the stream is parked and announced or held as a step of the run, and its app is started exactly when it is offline, the bridge starts such apps and the interval allows it |
| `Inbound.ParkedForItsOwner` | crates/sapphire-framework-bridge/src/data.rs:463-510 | a stream is taken for a device and a route if and only if the ledger's first record under the sender's node id is that device and active, and the first route for the workspace is that one and not the bridge's own; served here in that last case |
| `Invitations.Invites.Create` | crates/sapphire-framework-bridge/src/invite.rs:117-134 | the file gains the invite, whoever changed it meanwhile, as a step of the run, and the handle then equals the file |
| `Invitations.Invites.Take` | crates/sapphire-framework-bridge/src/invite.rs:154-200 | which invite an attempt uses up, or why none, as a step of the run; a refusal leaves the file as it was |
| `Invitations.Invites.Prune` | crates/sapphire-framework-bridge/src/invite.rs:208-222 | exactly the live invites are kept, as a step of the run, and how many went |
| `Invitations.RedemptionsAreIssued` | crates/sapphire-framework-bridge/src/invite.rs:117-222 | over any operations of any handles, redemptions of a secret and unused entries under it never exceed how often it was issued |
| `Invitations.RedeemedAtMostOnce` | crates/sapphire-framework-bridge/src/invite.rs:136-200 | each invite is redeemed at most once ever |
| `Invitations.LiveInvitesStay` | crates/sapphire-framework-bridge/src/invite.rs:117-222 | no operation of any handle loses an invite that is neither redeemed nor expired |
| `Invitations.AnInviteWorksOnceInTimeForItsName` | crates/sapphire-framework-bridge/src/invite.rs:144-200 | after any run, with any disk failures, a secret works under a name if and only if an invite was issued with it for that name, is in time and was never redeemed |
| `Invitations.AnotherNameChangesNothing` | crates/sapphire-framework-bridge/src/invite.rs:144-149 | an attempt under another name changes nothing, and the right name works after it |
| `Pairing.Admit` | crates/sapphire-framework-bridge/src/pairing.rs:131-210 | spending the invite, adding the record and replying happen in this order with these early exits |
| `Pairing.AdmittedIff` | crates/sapphire-framework-bridge/src/pairing.rs:131-210 | a joiner is admitted if and only if its invite is good for its name, the files work, and the ledger has neither its name nor its node id nor the drawn id; the record is its own |
| `Pairing.WhatIsAnswered` | crates/sapphire-framework-bridge/src/pairing.rs:131-210 | what anyone else is answered, the reasons in the order they are looked at, and what the inviter is told |
| `Pairing.ARejectedInviteStillWorksIff` | crates/sapphire-framework-bridge/src/pairing.rs:168-197 | an invite good for a name until some time still is after a rejected attempt before it, if and only if the attempt gave another name or the invite file failed it |
| `Pairing.ATakenNameSpendsTheInvite` | crates/sapphire-framework-bridge/src/pairing.rs:191-197 | a joiner whose name the ledger has already: rejected, the ledger unchanged, the invite used |
| `Pairing.SpentInVainIsSpentForGood` | crates/sapphire-framework-bridge/src/pairing.rs:118-125 | after an attempt that spent its invite and was turned away, no later event of a run admits anyone with that secret, under any name |
| `Pairing.AWrongNameCanBeCorrected` | crates/sapphire-framework-bridge/src/pairing.rs:171-177 | an attempt under a wrong name changes nothing, and the right one is then admitted as it would have been |
| `Pairing.OneRecordPerInvite` | crates/sapphire-framework-bridge/src/pairing.rs:118-125 | over any run an invite puts at most one record in the ledger |
| `Pairing.TheInviterKnowsTheName` | crates/sapphire-framework-bridge/src/pairing.rs:171-177 | a record that joins has the name an invite was issued for with that secret |
| `Pairing.TheLedgerStaysDistinct` | crates/sapphire-framework-bridge/src/pairing.rs:179-197 | names, ids and node ids in the ledger stay distinct, and no record is lost |
| `Routes.RouteTable.Load` | crates/sapphire-framework-bridge/src/routes.rs:51-67 | memory is the file's rows in order, none without a file |
| `Routes.RouteTable.ReplaceApp` | crates/sapphire-framework-bridge/src/routes.rs:73-105 | a refusal or a failed write changes neither memory nor file; otherwise both hold the new rows |
| `Routes.RouteTable.Put` | crates/sapphire-framework-bridge/src/routes.rs:112-121 | the same for one row |
| `Routes.RouteTable.Remove` | crates/sapphire-framework-bridge/src/routes.rs:124-136 | the same for forgetting a workspace; an unknown one writes nothing |
| `Routes.RefusedIff` | crates/sapphire-framework-bridge/src/routes.rs:80-89 | a registration is refused if and only if a workspace of its list is another app's |
| `Routes.ReplacingKeepsUnique` | crates/sapphire-framework-bridge/src/routes.rs:91-104 | an accepted registration keeps one row per workspace if and only if its list names none twice |
| `Routes.OpRefinesAMap` | crates/sapphire-framework-bridge/src/routes.rs:73-141 | the table is a map from workspace to row: a registration leaves exactly its list as that app's rows and every other app's rows untouched, and put and remove change one workspace |
| `Routes.WhatARegistrationLeaves` | crates/sapphire-framework-bridge/src/routes.rs:73-105 | after an accepted registration each listed workspace has a row with its own root and the registration's app, program and management; this app's other rows are gone and other apps' rows unchanged |
| `Routes.RowsByAppThenWorkspace` | crates/sapphire-framework-bridge/src/routes.rs:143-169 | after any operations rows go by app name, character by character, then by workspace |
| `Routes.RunsKeepTheTable` | crates/sapphire-framework-bridge/src/routes.rs:143-169 | after any operations rows are in order and no workspace has two |
| `Routes.NothingToReplaceIff` | crates/sapphire-framework-bridge/src/routes.rs:91-104 | accepting a registration leaves the table as it was if and only if the app's rows are already exactly those of the list |
| `Routes.AWorkspaceNamedTwice` | crates/sapphire-framework-bridge/src/routes.rs:97-104 | a list naming a workspace twice is accepted and leaves two rows for it |
| `Registrations.Register` | crates/sapphire-framework-bridge/src/control.rs:441-510 | the checks, the routes, the publications and only then the connection, ending at the first failure: what each exit leaves in the table, its file, the workspace list, the owners, the session and the parked streams |
| `Registrations.PublishAll` | crates/sapphire-framework-bridge/src/control.rs:477-491 | the workspaces before the first that cannot be published are published, in order |
| `Registrations.RegisteredIff` | crates/sapphire-framework-bridge/src/control.rs:441-492 | a registration succeeds if and only if the host is in a workgroup, no listed workspace is another app's, the routes can be written, and the workgroup can be read again with every publication written, or is gone |
| `Registrations.WhatIsListed` | crates/sapphire-framework-bridge/src/control.rs:465-492 | the workspaces announced are those up to the first that cannot be written, each under the app and its own name, and no other entry changes, whatever becomes of the registration |
| `Registrations.AFailedRegistrationKeepsTheRoutesIff` | crates/sapphire-framework-bridge/src/control.rs:449-492 | a registration that fails leaves the routes as they were if and only if the host is in no workgroup, a listed workspace is another app's, the routes are not written, or the app's rows are already the ones asked for |
| `Registrations.WhatAFailureLeaves` | crates/sapphire-framework-bridge/src/control.rs:465-492 | what a later failure leaves behind is the registration's own change to every workspace's row, and nothing else |
| `Registrations.AFailedRegistrationLeavesARoute` | crates/sapphire-framework-bridge/src/control.rs:465-492 | a first registration whose publication fails: it ends in an error and its route stays |
| `SettingsText.OnePieceRoundTrip` | crates/sapphire-framework-bridge-api/src/settings.rs:240-325 | every valid value of a kind that is neither a list nor a secret parses back from its printed form, every 64-bit integer included |
| `SettingsText.IntRoundTrip` | crates/sapphire-framework-bridge-api/src/settings.rs:247-251 | every 64-bit integer, the least one included, reads back from its digits |
| `SettingsText.PrintedPlainly` | crates/sapphire-framework-bridge-api/src/settings.rs:115-132 | integers are printed with a sign only below zero and without leading zeros |
| `SettingsText.IntegersAreRead` | crates/sapphire-framework-bridge-api/src/settings.rs:247-251 | digits, with leading zeros and with or without one sign, read as their number if it fits 64 bits |
| `SettingsText.SwitchWords` | crates/sapphire-framework-bridge-api/src/settings.rs:241-246 | `true` and `on`, `false` and `off`, and nothing else, are booleans |
| `SettingsText.ParsedItemsAreChecked` | crates/sapphire-framework-bridge-api/src/settings.rs:255-269 | every item of a list that parses satisfies the item kind's check |
| `SettingsText.ListsSplitBackIffPlain` | crates/sapphire-framework-bridge-api/src/settings.rs:344-362 | joined texts split back into themselves if and only if none has a comma, white space around it or quotes around it, the whole has no brackets around it, and they are not one empty text |
| `SettingsText.ListRoundTripIffPlain` | crates/sapphire-framework-bridge-api/src/settings.rs:115-132 | a valid list of any one-piece kind parses back from its printed form if and only if its printed items are plain |
| `SettingsText.NumbersArePlain` | crates/sapphire-framework-bridge-api/src/settings.rs:115-132 | so lists of booleans and integers always do |
| `SettingsText.UrlListRoundTrip` | crates/sapphire-framework-bridge-api/src/settings.rs:296-304 | a list of URLs does if and only if no URL has a comma or ends in white space |
| `SettingsText.ListsThatDoNotReadBack` | crates/sapphire-framework-bridge-api/src/settings.rs:344-362 | two valid lists that do not |
| `SettingsText.QuotedListsReadBack` | crates/sapphire-framework-bridge-api/src/settings.rs:343-362 | a list written by hand with quotes, in brackets or not and spaced in any way, reads as exactly the quoted texts if they have no comma |
| `SettingsText.TrimCuts` | crates/sapphire-framework-bridge-api/src/settings.rs:344-362 | trimming cuts white space from both ends and all of it |
| `EmbedWorker.Worker.EnsureLoaded` | crates/sapphire-framework-bridge-embed/src/service.rs:268-302 | the state after making sure of a model: kept, refused within the backoff, loaded, or failed and remembered |
| `EmbedWorker.EnsuringTries` | crates/sapphire-framework-bridge-embed/src/service.rs:268-302 | an attempt to load is the next one, dated by the readings made for it, a failure by the last; no earlier attempt is forgotten |
| `EmbedWorker.Worker.Call` | crates/sapphire-framework-bridge-embed/src/service.rs:241-266 | one batch: a panic drops the model, a refusal or a wrong count keeps it |
| `EmbedWorker.Worker.Serve` | crates/sapphire-framework-bridge-embed/src/service.rs:223-238 | the batch loop computes the vectors of all batches in order, or the first error |
| `EmbedWorker.Worker.Idle` | crates/sapphire-framework-bridge-embed/src/service.rs:212-217 | an idle worker has no model and clears its flag; the failure, the readings and the attempts are as they were |
| `EmbedWorker.TheFlagAndTheBackoff` | crates/sapphire-framework-bridge-embed/src/service.rs:205-302 | over any requests, timeouts, panics and failed loads: the flag is the model's presence, a model means no failure remembered, and no load begins within the backoff of a failed one |
| `EmbedWorker.ATimeoutUnloads` | crates/sapphire-framework-bridge-embed/src/service.rs:205-238 | after any run, a timeout leaves no model and a flag that says so, and nothing else changed; the next request for something outside the backoff calls the loader again |
| `EmbedWorker.WhatARequestLeaves` | crates/sapphire-framework-bridge-embed/src/service.rs:241-266 | after any run, a request that ends in a panic or without a model leaves none; one that is answered, refused or answered with the wrong count leaves the model |
| `EmbedWorker.WhyARequestFails` | crates/sapphire-framework-bridge-embed/src/service.rs:241-266 | a request that fails with a model there fails by its last call, for a run of its own inputs, and reports that call's panic, refusal or two counts |
| `EmbedWorker.RefusedThroughoutTheBackoff` | crates/sapphire-framework-bridge-embed/src/service.rs:268-276 | after any run that ends with a failed load, while the clock stays within the backoff every request for something is refused with that failure's message and neither loader nor model is called |
| `EmbedWorker.EmptyRequestsLeaveNoTrace` | crates/sapphire-framework-bridge-embed/src/service.rs:223-238 | any run ends as it would without its empty requests: they load nothing, call nothing and change nothing |
| `EmbedWorker.BatchedIsUnbatched` | crates/sapphire-framework-bridge-embed/src/service.rs:223-266 | a success has one vector per input, from the fewest calls the batch size allows, and from a model that embeds by a function exactly that function of each input in order |

## Left out

- Transport, IPC, TLS, relays and HTTP itself: Hellos, streams and responses are values, and each step's effects happen at once.
- Command line, GUI, packaging, status printing and the backend crate: dispatch and formatting.
- The text form of pairing tickets and TOML syntax, comments and layout: documents are maps of tables.
- Model inference and float arithmetic: vectors are sequences, renormalizing is a given function of which only the length is assumed, and an availability share is an exact ratio.
- 32-bit hosts: an `index` of a response is taken to fit a machine word as it is, and byte counters and lengths do not overflow.
- Leap seconds in the calendar: a UTC day has 86,400 seconds.
- TheSettingsSurvive: assumes the old switch tables hold only switches and the model tables none (`SwitchesOnly`), as format 1 had it; `TheDeviceSays` does not.
- `ConfigFile` and `MigrationSafety` assume of format-1 model tables (`FormatOne`) that they hold models' keys only, no switch and no quantization, which that format kept elsewhere; and take which `[net]` tables are well typed as given.
- MigrateDevice: reading is not interrupted and files change only by its own operations; a write is atomic, as write_atomic makes it.
- StopAndRerun: says nothing of a run that would fail even uninterrupted, because what it fails on may be gone at the rerun (the root then being in format 2, its models are not offered again); `NeverReplaces` and `NeverReplacesInTheRoot` hold of such runs too.
- TwoRunsAreOne: each run reads all its files at one moment, the root's `config.toml` included, which a promotion reads again.
- `EmbedSettings.Resolve` is given the key's presence and the CPU's abilities; the configuration handed to the provider is not modelled beyond the active slot.
- RoundIsAct: assumes every host hears every other's latest Hello and that hosts' ranks do not change; the run-level election results are about such networks, while those of `ElectorRuns` assume nothing of the Hellos.
- Convergence and Succession start from hosts that are all past their wait; a host that leaves is gone from everyone's Hellos at once.
- Streams: the owner check and the hold are one step, and so are connecting an app and draining its announcements; between them a held announcement could wait for the next registration. A connection that closes inside a registration counts as closing before it.
- Register: the text of a workspace's name, which is its directory's or its id, is given.
- Registered: whether a notification reaches its app server is the transport's.
- Answer: a workgroup that cannot be read, which ends the inbound loop, and the pairing and Hello streams it passes on.
- AlwaysUpReachesTheTopTier: takes the first reading to come within a minute of the history's start, as the loop's immediate first tick makes it.
- Wakes: the process that is started.
- Invites: a file that changes between an operation's read and its write; operations are taken whole.
- The order in which the ledger lists devices, and device records other than id, name and node id.
- OnePieceRoundTrip: which texts are socket addresses is a given predicate; lists of lists are not covered by the list results.
- TheFilesAreTheTail: a directory that fails an operation or already holds files with gaps; `Rotate` itself is proved for any files.
- Following a log file and instance locking: what they promise does not hold under interleaving.
- Merging relay lists, workspace locators and setting definitions: only easy members.
