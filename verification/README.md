# Chord hot reload, relays and state; the agent loop; model refresh and pricing

A model, in Dafny, of the parts of this repository whose correctness depends on many functions at once, with proofs of
what those parts are for. `dafny verify dfyconfig.toml` checks everything.

**Cluster reload** (`Cluster`, `ClusterInvariant`, `ClusterSafety`, `ClusterVotes`, `ClusterRuns`, `CommitFrames`,
`ChildReload`, `ChildHost`). A server and its child
hosts are a state with one queue of frames per link and direction. Every step ends where the source awaits: the server
loads, asks participants to prepare, counts votes, misses deadlines, commits or aborts; it fences and reconciles children
that connect behind it; children load, prepare, roll back and vote; either end of a link closes at any time.
`ChildReload` holds the functions on one child, `ChildHost.ChildReloads` is the object that performs them in place, and
the cluster steps use the same functions. `CommitFrames` takes the commit itself apart, act by act, on the publication
queue.

**Reload on one host** (`HotReload`, `HotReloadInvariant`, `HotReloadSafety`, `HotReloadOrderly`, `HotReloadRuns`,
`ReloadHost`). Records keep code by epoch; a reload prepares candidates, blocks, cuts gates, drains, migrates, and commits
in one step, while activations, calls, listeners, tasks, writes and disposals go on. A rollback unwinds, reopens gates,
disposes records one after the other and only then clears what is pending; the rollback of a cancelled reload may go on
beside the next reload. Theorems hold for all such runs and say exactly when; `HotReloadOrderly` proves what holds without
exception when reloads do not overlap, and `HotReloadRuns` exhibits the runs in which it does not.
`ReloadHost.ReloadingHost` does it field by field.

**Roots and leases** (`Roots`, `HostRoots`). What a host counts about roots, next to a ledger of what the counting is
for: calls in flight and links that brought a root. The counting is proved to compute the ledger.

**Holds** (`HoldGraph`). The graph of holds between records, the cycle check, and forced disposal in waves.

**Listener events at a gate** (`GateQueue`), **reactive state** (`Cells`, `CellHost`, `Publications`, `Fanouts`,
`StateStreams`). Derivations over cells with all-or-nothing writes, the re-entrant publication queue, fan-out to
listeners, and bounded subscribers of a replicated state.

**Relays** (`Relays`, `RelayInvariant`, `RelayOpening`, `RelayClosing`, `RelaySafety`, `RelayTheorems`, `RelayFrames`,
`RelayRevocation`, `RelayHost`). The id tables of links as one value, each operation of the source as a function on it,
runs of such operations, and `RelayHost.RelayTables`, which performs the closing side in place with its loops.
`RelayFrames` proves that what is sent is exactly what changes in the tables, under the ids they find it by.

**Schemas and contracts** (`Schemas`, `SchemaSoundness`, `SchemaExactness`, `Contracts`). Validity, stripping and `fits`:
what it implies, where it is exact, and what a direct binding means for values that cross. Validity follows JSON Schema Validation draft-07, sections 6.1 to 6.5 and 6.7.2.

**Agent loop** (`ToolDeclarations`, `AgentEvents`, `AgentLoops`). The loop, its tool batches and the two message queues as
an object that plays a script of what provider, tools, hooks and user do, together with the agent that follows its events.

**Model collection** (`ModelRefresh`, `Pricing`). Generations and publication chains of providers; price brackets compiled
to tiers.

## Where the code is weaker than its documentation

The code is modelled as it is; each of these has a concrete input or run, and a lemma that says exactly when it happens.

- A commit can fail a child host: `Reload.rollback` returns at once when it already runs, so a cancelled prepare's slow
  rollback can still be running when the next prepare announces its epoch, and clears it when it ends
  (`ChildReload.CommitInstallsIff`, `SlowRollbackLosesTheCommit`).
- An operation cancelled before it announced its epoch announces it after its rollback, and ends without clearing it
  (`ChildReload.PendingIsLeft`, `PendingIsOwnedIff`).
- A synced child is not always in step: one that connects while a reload prepares is not a participant and stays behind
  (`ClusterSafety.SyncedChildLeftBehind`, `InStepAfterCommitIff`).
- The rollback of a cancelled reload goes on beside the next reload. It opens gates the next reload put up, so that calls
  and writes are admitted on a record whose state is already migrated, and a commit loses those writes
  (`HotReloadRuns.RollbackOpensForeignGate`, `HotReloadSafety.GateStaysUpIff`, `DrainedGateAdmitsNothingIff`,
  `OpenGateLosesWrites`); a gate opened before it drained never drains, and the reload waits for it until it is aborted
  (`HotReloadSafety.OpenedGateNeverDrains`); and a gate cut over another loses the events set aside (`GateQueue.OverlapLosesEvents`,
  `StepLosesIff`).
- A rollback disposes the records it finds at its beginning, awaiting each, and until it ends types of the abandoned epoch
  are still served. A record acquired meanwhile stays, live and of a type nobody serves, or fails as superseded
  (`HotReloadRuns.OrphanIsLeft`, `ActivationIsSuperseded`, `HotReloadSafety.NoOrphansIff`, `IdleHostIsOpenIff`,
  `CommitLeavesNoRecordBehindIff`, `HotReloadInvariant.ActivationIsSupersededIff`).
- A reload cancelled while it waits for retirement announces its epoch after its rollback, and nobody clears it
  (`HotReloadRuns.PendingIsLeft`, `HotReloadSafety.PendingOwnedIff`).
- A record activated while a reload is pending keeps its behavior for that epoch when the reload is rolled back; the next
  reload may commit the same id, and code that was never committed can then be called
  (`HotReloadRuns.AbandonedEpochKeepsItsBehavior`, `AbandonedCodeIsCalled`, `HotReloadSafety.BehaviorsStayTidyIff`,
  `ServedStaysIff`).
- A record of an added type that becomes live between the end of prepare and the commit never starts its listeners and
  tasks (`HotReloadRuns.LateRecordStaysDeferred`, `HotReloadSafety.CommitStartsRuntimeIff`).
- When a retirement deadline drops an epoch whose roots still run, the leases of a foreign root end while its call is in
  flight (`Roots.ForcedRetirementEndsLeasesEarly`, `ForcedRetirementReached`); the next gate does not wait for the call,
  and the commit migrates the state it runs over (`HotReloadRuns.OldCallOverNewState`, `HotReloadSafety.CallsMatchIff`).
- A resource that emits while a commit runs is heard out of order by a listener whose gate the commit then reopens
  (`GateQueue.DirectEventsOvertake`, `ReopeningKeepsOrderIff`).
- A cancel that arrives after a relayed call's route is known and before the call is forwarded has no effect
  (`RelayTheorems.CancelIsLost`, `CancelSettlesIffNotReady`).
- `minProperties`, `uniqueItems` over objects, and `minItems` on open tuples are not preserved by stripping, so even equal
  schemas can refuse a valid value (`SchemaSoundness.MinPropertiesBreaks`, `UniqueItemsBreaks`,
  `StrippingKeepsValidityExactly`).
- The input of a hold is stripped with the provider's schema only, unlike the arguments of a call, so a consumer's valid
  input can be refused (`Contracts.UnknownInputMayBeRefused`, `InputIsAcceptedIff`).
- A derivation attached with its dry-run value may not match its sources, if a cell it derives from was written meanwhile
  (`Cells.DryRunGoesStale`, `DryRunIsConsistentIff`).
- The same listener function subscribed again while a delivery to it is queued hears that revision twice
  (`Fanouts.ResubscriptionOverlaps`, `ResubscriptionIsCleanIff`).
- A provider that starts a response twice leaves a partial message in the loop's context (`AgentEvents.TwoStartsLeaveAPartial`,
  `OneStartOneMessage`).
- A flat price that differs from the first bracket's overrides that bracket (`Pricing.FlatRateIgnoresTheBracket`,
  `FlatRateWinsBelowTheFirstStart`).

## Model

| member | source | states |
|---|---|---|
| ClusterSafety.StepKeepsInv | packages/chord/src/cluster.ts:39-150 | every step of server, children and links keeps the protocol invariant: frames in flight agree with the decisions taken, a child a commit may still reach waits for exactly that commit, epochs of open ids are undecided |
| ClusterSafety.SoundAlways | packages/chord/src/cluster.ts:39-234 | the invariant holds after every run, of any length, from a state that has it |
| ClusterSafety.ChildrenFollowTheServer | packages/chord/src/cluster.ts:39-141 | in every run a child runs an epoch the server installed and not a newer one; each of its installs belongs to a reload the server committed and did not abort; its epochs rise strictly |
| ClusterSafety.EpochMovesByCommit | packages/chord/src/cluster.ts:165-190 | a child's epoch changes only when it processes a commit frame, and then rises to an epoch the server already runs |
| ClusterSafety.CommitsFindTheirChild | packages/chord/src/cluster.ts:180-190 | a commit frame at the head of a link finds its child prepared for that very reload; the epoch is installed unless a slower rollback cleared it, in which case the host fails |
| CommitFrames.PublishEpoch | packages/chord/src/reload.ts:519-533 | run as acts on the publication queue, a commit sends what publishing sends, then the commit frames, then what starts and the held notifications send, and nothing in between |
| CommitFrames.CommitPrecedesCalls | packages/chord/src/reload.ts:519-536 | on the link of every participant the commit frame goes before each call of the new epoch, whatever the epoch starts and whatever held notifications lead to |
| CommitFrames.CommitIsARun | packages/chord/src/cluster.ts:92-97 | the whole synchronous commit is a run of the protocol, the step that installs and tells and then calls: afterwards each open link carries exactly the frames that were sent on it, in order |
| ClusterSafety.InStepAfterCommitIff | packages/chord/src/cluster.ts:44-97 | after a commit the server takes a link to run the new epoch if and only if it was a participant; any other link is unchanged |
| ClusterSafety.CallsFindTheirEpoch | packages/chord/src/reload.ts:519-536 | a call of a root of epoch e that arrives over a link told to run e finds the child in e or later, unless its host failed |
| ClusterSafety.PeerEpochIsTrue | packages/chord/src/host.ts:765-781 | on a link open at both ends the server's belief about the child's epoch is the child's epoch, or what the commit frame in flight installs |
| ClusterSafety.SyncedChildLeftBehind | packages/chord/src/cluster.ts:44-48 | a legal run ends with a synced child in epoch 1, the server in epoch 2, and nothing in flight |
| ClusterSafety.LoadedEpochsAreNotReused | packages/chord/src/host.ts:254-259 | an epoch the server loaded, whatever became of that reload, is taken by no later reload, in every run |
| ClusterSafety.AbortFreesTheSlotIff | packages/chord/src/cluster.ts:83-90 | after an abort the next reload may start at once if and only if the server's own prepare failed and has nothing to roll back |
| ClusterVotes.NoVoteIsForgotten | packages/chord/src/cluster.ts:52-72 | in every run a vote awaited on an open link is on its way: its prepare is in flight, or the child's operation for it goes on uncancelled, or the vote is in flight |
| ClusterVotes.StepKeepsVotes | packages/chord/src/cluster.ts:39-234 | every step of server, children and links keeps that |
| ClusterRuns.CommitsHaveEveryVote | packages/chord/src/cluster.ts:73-97 | in every run, when the server may commit, every participant whose end of the link is open has prepared that very reload and waits |
| ClusterRuns.ParticipantCommits | packages/chord/src/cluster.ts:39-97 | a run with one participant, asked, prepared, voting yes and committed, after which server and child run epoch 2 and nothing is in flight |
| ClusterRuns.RefusalAborts | packages/chord/src/cluster.ts:83-90 | a run in which the child votes no and the reload aborts; both are as before and the next reload may start |
| ClusterRuns.LateChildIsReconciled | packages/chord/src/cluster.ts:116-142 | a run in which a child connects behind and is prepared, committed and in step with the server |
| ChildReload.CommitInstallsIff | packages/chord/src/cluster.ts:180-190 | a commit of a prepared operation installs its epoch if and only if every rollback running when the epoch was announced still runs; otherwise the host fails and nothing is installed |
| ChildReload.SlowRollbackLosesTheCommit | packages/chord/src/reload.ts:476-511 | a state in which the end of an earlier rollback turns a commit that would install into one that fails the host |
| ChildReload.VotesSay | packages/chord/src/cluster.ts:211-234 | a step of the child votes yes if and only if its prepare is done, and no if and only if an operation that nobody cancelled ends on its own |
| ChildReload.PendingIsOwnedIff | packages/chord/src/cluster.ts:197-234 | an epoch stays pending with nobody to commit or clear it if and only if an operation announced it after its own rollback was over and then ends; no frame of the parent leaves one |
| ChildReload.PendingIsLeft | packages/chord/src/reload.ts:476-511 | a composed run after which an idle child has an epoch pending |
| ChildReload.InstallsRise | packages/chord/src/host.ts:254-259 | the epochs a child installed rise strictly, above the first and up to the one it runs |
| ChildReload.FramesKeepOk | packages/chord/src/cluster.ts:165-209 | prepare, abort and the loss of the parent keep the child's invariant in every phase of an operation: the slot is taken exactly while an operation that owns it goes on or a prepared one closes |
| ChildReload.OwnStepsKeepOk | packages/chord/src/cluster.ts:211-234 | so does every step of the child between two awaits |
| ChildHost.ChildReloads.Handle | packages/chord/src/cluster.ts:165-190 | a prepare registers an operation, which owns the slot if it was free, or is voted down during another one; a commit installs what is pending if the operation it names is prepared, and fails the host if nothing is; an abort cancels the operation it names; any other frame changes nothing |
| ChildHost.ChildReloads.CancelOperation | packages/chord/src/cluster.ts:197-209 | cancelling gives a prepared operation up at once and keeps the slot while it closes; while preparing it starts a rollback beside the operation; while loading it only marks it |
| ChildHost.ChildReloads.LoseParent | packages/chord/src/cluster.ts:193-195 | losing the parent cancels the operation and forgets the link, and sends nothing |
| ChildHost.ChildReloads.Advance | packages/chord/src/cluster.ts:211-234 | each continuation is the protocol's step: the end of prepare sends exactly a yes for the operation on its link, the end of an uncancelled operation exactly a no, and nothing else sends; ends of rollbacks clear what is pending, ends of operations free the slot |
| ChildHost.ChildReloads.End | packages/chord/src/cluster.ts:226-232 | an operation that ends without a commit votes no unless it was cancelled |
| HoldGraph.AcceptedHoldKeepsAcyclic | packages/chord/src/host.ts:396-398 | a hold whose target does not reach its holder closes no cycle |
| HoldGraph.RefusedHoldWouldCycle | packages/chord/src/host.ts:396-398 | a hold that is refused would have closed one |
| HoldGraph.FewerHoldsStayAcyclic | packages/chord/src/record.ts:929-941 | dropping holds, in any amount, keeps the graph acyclic |
| HoldGraph.PathsAreSimple | packages/chord/src/host.ts:996-1010 | in an acyclic graph no path of holds visits a record twice |
| HoldGraph.ClimbToFreeRecord | packages/chord/src/host.ts:952-975 | in every set of records with a path in it some record is held by none of the set: a wave is never empty |
| HoldGraph.Reaches | packages/chord/src/host.ts:996-1010 | the worklist terminates and answers reachability, both ways, on any closed graph, cyclic or not |
| HoldGraph.DisposeHoldersFirst | packages/chord/src/host.ts:952-975 | every record is disposed in exactly one wave, holders in earlier waves than what they hold, and the fallback for cycles is not taken |
| HoldGraph.Records.Create | packages/chord/src/host.ts:399-418 | a new record holds nothing and the graph stays acyclic |
| HoldGraph.Records.Acquire | packages/chord/src/host.ts:394-418 | a hold is accepted if and only if the graph with it is acyclic, and only then added |
| HoldGraph.Records.Keep | packages/chord/src/host.ts:558-581 | giving up some holds of a record keeps the graph acyclic and the other records' holds |
| Roots.LeasesAreOfLivingRoots | packages/chord/src/host.ts:451-522 | in every run of structured calls leases are exactly the ledger's, a root with leases or links to tell is alive (a call here, or a link that brought it), and each announcement is sent as the ledger owes it |
| Roots.StepTracks | packages/chord/src/host.ts:458-522 | each operation on roots keeps the host's counting equal to the ledger |
| Roots.OnlyACarrierEndsARoot | packages/chord/src/host.ts:511-522 | a link that never brought a root, or names a local one, changes nothing |
| Roots.ReentryStaysLocal | packages/chord/src/host.ts:451-490 | a local root that comes back over a link stays local and ends with its last call |
| Roots.ClosedLinkLetsGo | packages/chord/src/host.ts:783-793 | after a link closed, in whatever order its roots were visited, it keeps no root alive and is told of none |
| Roots.ForcedRetirementEndsLeasesEarly | packages/chord/src/reload.ts:228-242 | without the premise on dropped epochs: leases end early if and only if the root's calls all run in epochs that are no longer retained |
| Roots.ForcedRetirementReached | packages/chord/src/reload.ts:228-242 | such a state is reached |
| HostRoots.RootTable.JoinRoot | packages/chord/src/host.ts:451-470 | joining counts the root in a retained epoch, notes the link unless the root is local, and refuses other epochs |
| HostRoots.RootTable.StartRoot | packages/chord/src/host.ts:438-460 | a root started here is local, and is not left behind when its epoch is refused |
| HostRoots.RootTable.CallSettled | packages/chord/src/host.ts:477-489 | the end of a call uncounts it, and the last one of a root no link keeps ends the root |
| HostRoots.RootTable.EndRoot | packages/chord/src/host.ts:502-509 | a root's end removes its leases and entries and tells each link it went out on once |
| HostRoots.RootTable.ForeignRootEnded | packages/chord/src/host.ts:515-522 | an announcement counts only from a link that brought the root, and the last such link ends it unless calls run |
| HostRoots.RootTable.ConnectionClosed | packages/chord/src/host.ts:783-793 | closing a link lets go of every root it brought and drops it from the links to tell |
| RelayTheorems.AlwaysSafe | packages/chord/src/connection.ts:55-190 | in every run the tables of both links are inverse to the relays, subscriptions and calls they find |
| RelayTheorems.HostsAreSafe | packages/chord/src/connection.ts:683-783 | a host that starts with no links has such tables ever after, whatever connects, relays, revokes and closes |
| RelaySafety.StepKeepsSafe | packages/chord/src/connection.ts:502-783 | holding, routing, subscribing, calling, forwarding, settling, cancelling, closing relays and links keep that invariant |
| RelayClosing.CloseKeepsInverse | packages/chord/src/connection.ts:142-156 | closing a relay, in whatever order its calls and subscriptions are visited, keeps the tables inverse |
| RelayTheorems.SettlesOnce | packages/chord/src/connection.ts:159-190 | in every run a relayed call settles at most once and its first outcome stands |
| RelayTheorems.OpenRelayIsFound | packages/chord/src/connection.ts:96-111 | an open relay is found under its origin's id and its downstream id, and under no other |
| RelayTheorems.SubscriptionIsFound | packages/chord/src/connection.ts:113-125 | a forwarded subscription is found under one downstream id, which leads back to the origin's id, and under one origin id |
| RelayTheorems.CallIsFound | packages/chord/src/connection.ts:756-783 | a forwarded call is found under one downstream id and under one origin id of an open relay |
| RelayTheorems.ClosedRelayLeavesNothing | packages/chord/src/connection.ts:142-156 | no table of either link has an entry that leads to a closed relay |
| RelayTheorems.CloseFailsItsCalls | packages/chord/src/connection.ts:142-156 | closing a relay settles every call that waits for it or was forwarded through it |
| RelayTheorems.CancelSettlesIffNotReady | packages/chord/src/connection.ts:756-783 | a cancel settles its call if and only if the call is not between route known and forwarding, where it changes nothing |
| RelayTheorems.CancelIsLost | packages/chord/src/connection.ts:756-783 | a run to a state in which a cancel of a call changes nothing and the call is forwarded |
| RelayFrames.StepIsExact | packages/chord/src/connection.ts:96-190 | whatever happens, a hold, subscription or call goes out on a link under an id if and only if it is entered under it; a release, unsub or cancel names an id if and only if its entry goes, on a cancel, an unsub or a closing that releases, and is not sent otherwise; an origin hears of a lost hold under its own id if and only if it held a relay under it and is to be told; each once, and under ids never used before |
| RelayFrames.SentAgreesWithTables | packages/chord/src/connection.ts:96-190 | in every run of a host every entry was announced under its id and none that was withdrawn is left; an id is announced for one thing; a withdrawal comes after its announcement; nothing but a lost hold is said twice |
| RelayFrames.ForwardedUnderTheirIds | packages/chord/src/connection.ts:756-783 | in every run each forwarded call, forwarded subscription and routed open relay went out, once, on the link and under the id its table finds it by |
| RelayRevocation.RevokedRelaysGoNowhere | packages/chord/src/connection.ts:81-94 | a relay that still waits for its route when its origin goes away or is revoked never uses one, in every run from there |
| RelayRevocation.RevokesWaitingRelays | packages/chord/src/connection.ts:296-306 | a revocation, and the end of the link, revoke exactly the origin's relays that wait; one whose hold arrives later is current |
| RelayHost.RelayTables.FinishCall | packages/chord/src/connection.ts:175-182 | a result settles a call that is forwarded with its outcome, removes both mappings and sends nothing; any other call stays as it is |
| RelayHost.RelayTables.Cancel | packages/chord/src/connection.ts:185-189 | a cancel of a forwarded call fails it and removes its downstream entry; if asked it goes out under the id the call was forwarded under |
| RelayHost.RelayTables.SubscribeTo | packages/chord/src/connection.ts:113-125 | a subscription is entered on the origin; with a downstream it is entered there under a new id and goes out under that id, without one nothing is sent |
| RelayHost.RelayTables.UnsubscribeFrom | packages/chord/src/connection.ts:127-136 | its end removes the entries on both links, and if asked goes out under the id it was forwarded under |
| RelayHost.RelayTables.CloseOpen | packages/chord/src/connection.ts:142-155 | the loops that close a relay compute the closing of the model, each call and subscription visited once |
| RelayHost.RelayTables.CloseRelay | packages/chord/src/connection.ts:142-156 | a relay closes once; afterwards no table finds it and the others are found as before; if it releases its downstream exactly the entries that go are withdrawn there, each under its id, and if it is to be told exactly its origin hears of it, under the origin's id |
| RelayHost.RelayTables.ConnectionClosed | packages/chord/src/connection.ts:723-749 | when a link closes every table is left without an entry under it, by the releases alone: the final clears find nothing |
| SchemaSoundness.FitsSound | packages/chord/src/schema.ts:134-210 | if one schema fits another, whatever the first accepts of a value it stripped the second accepts |
| SchemaSoundness.CleanKeepsValid | packages/chord/src/record.ts:1178-1183 | a value a schema accepts is accepted after that schema stripped it |
| SchemaSoundness.StrippingKeepsValidityExactly | packages/chord/src/schema.ts:134-160 | with the constraints that stripping can break, a valid value stays valid if and only if what is left of it still meets them |
| SchemaSoundness.MinPropertiesBreaks | packages/chord/src/schema.ts:134-160 | a schema with `minProperties` fits itself and refuses a value it accepts, once stripped on both sides |
| SchemaSoundness.UniqueItemsBreaks | packages/chord/src/schema.ts:134-160 | the same for `uniqueItems` over objects |
| SchemaExactness.FitsExactlyOnPlainData | packages/chord/src/schema.ts:134-210 | on scalars, lists and records of them, nested to any depth, one schema fits another if and only if everything it accepts is accepted by the other once stripped: new optional fields, wider types and fewer requirements fit, and whatever newly requires or retypes a field does not |
| SchemaExactness.EnumsFitIff | packages/chord/src/schema.ts:144-147 | the same for lists of allowed values |
| SchemaExactness.MoreConstraintsFit | packages/chord/src/schema.ts:148-148 | a schema with one more constraint fits the schema without it, and not the other way round |
| SchemaExactness.ListedValuesFit | packages/chord/src/schema.ts:143-155 | a list of values, or one value, fits the schema it narrows and every longer list |
| SchemaExactness.BranchesFit | packages/chord/src/schema.ts:141-142 | a union whose branches each fit a branch of another fits it, and so does each branch |
| SchemaExactness.TuplesFit | packages/chord/src/schema.ts:203-210 | a tuple fits one of its length item by item, and a list that every item fits |
| SchemaExactness.RecordsFit | packages/chord/src/schema.ts:160-179 | closed records fit with fewer fields declared, each of which fits, and nothing newly required; one whose other fields have a schema fits if that fits every field the other declares besides |
| Contracts.CallsPassTheArgumentCheck | packages/chord/src/contract.ts:182-227 | over a direct binding a well-typed call never fails the provider's check of its arguments |
| Contracts.BoundDirectlyIff | packages/chord/src/contract.ts:182-211 | for contracts over plain data of one version a consumer is bound directly if and only if nothing can go wrong: its type is the provider's, every member it wants is offered, every valid input and argument passes the provider, and every result and state is as it wants |
| Contracts.BoundByAdapterIff | packages/chord/src/contract.ts:209-227 | across versions exactly the adapter the provider accepts for the consumer's version is used, and nothing else binds |
| Contracts.ResultsAreAsWanted | packages/chord/src/contract.ts:182-207 | results and state values a directly bound provider may produce are, stripped to its schema, what the consumer declared |
| Contracts.InputIsAcceptedIff | packages/chord/src/host.ts:389-393 | a value valid for the consumer, stripped by a covering provider's schema only, is accepted if and only if what the consumer's schema does not know passes the provider's: at any depth of objects, maps, lists, tuples and unions, values under names only the provider declares, items past the end of the consumer's tuple, and branches the consumer's schema does not fit |
| Contracts.UnknownInputMayBeRefused | packages/chord/src/host.ts:389-392 | a covering provider, a consumer and a valid input that is refused |
| HotReloadInvariant.StepKeepsInv | packages/chord/src/reload.ts:174-624 | every step of a host, with rollbacks of earlier reloads going on beside the next one, keeps the invariant on epochs, records, gates, candidates, calls and migrated state |
| HotReloadInvariant.CommitKeeps | packages/chord/src/reload.ts:538-624 | so does the synchronous publication, and the commit that throws because nothing is pending |
| HotReloadInvariant.WriteKeeps | packages/chord/src/record.ts:1143-1150 | no admitted write changes a record whose migrated value waits for a commit behind a gate that is up |
| HotReloadInvariant.ActivationIsSupersededIff | packages/chord/src/record.ts:819-849 | an activation fails for changed code if and only if no current epoch serves its type and no pending one serves it with the code the activation began with |
| HotReloadInvariant.ActivationBeginsWith | packages/chord/src/record.ts:819-830 | an activation takes the code served at that moment, or else the pending one, and fails if and only if there is neither |
| HotReloadSafety.NoOldCodeOverNewState | packages/chord/src/reload.ts:600-624 | in every run all behaviors and tasks of a live record are of its state version, and a call of an epoch that serves its type runs the code that epoch serves |
| HotReloadSafety.ServedStaysIff | packages/chord/src/reload.ts:538-558 | a call can run in an epoch that does not serve its type only after a commit under an id that an orphaned record has a behavior for; every other step excludes it |
| HotReloadSafety.CallsMatchIff | packages/chord/src/reload.ts:538-624 | every step keeps calls in flight off migrated state, except a commit, which does if and only if no call runs on a record whose state version it changes |
| HotReloadSafety.MayStrandIff | packages/chord/src/reload.ts:412-474 | while a ready reload waits for its commit, a call may come to run on a record whose state version it changes if and only if one runs already, the record's gate is open, or a rollback that gated the record is still to reopen it |
| HotReloadSafety.StrandedIsOpenOrDropped | packages/chord/src/reload.ts:412-456 | in every run such a call is there only if the gate was opened by another rollback or the call came over a link and its epoch was dropped; then it can neither write nor call |
| HotReloadSafety.DrainedGateAdmitsNothingIff | packages/chord/src/reload.ts:412-456 | from a drained gate until commit or rollback a gated record admits no call and no write if and only if its gate is up; then no listener, task or call of a living root runs on it either |
| HotReloadSafety.DrainsWithItsLastRoot | packages/chord/src/record.ts:1208-1212 | in every run a reload waits for a gate that is up if and only if the gate still admits a root |
| HotReloadSafety.OpenedGateNeverDrains | packages/chord/src/reload.ts:424-440 | a gate that an earlier rollback opened before it drained is waited for by every later step but an abort |
| HotReloadSafety.GateStaysUpIff | packages/chord/src/reload.ts:412-511 | while a reload keeps its gates up, one stays up if and only if no earlier rollback that gated the same record, and had not reopened it when the gate went up, reopens it |
| HotReloadSafety.WithoutOverlapGatesHold | packages/chord/src/reload.ts:499-503 | if no such rollback unwinds when the gate goes up, nothing opens the gate |
| HotReloadSafety.WithOverlapGatesOpen | packages/chord/src/reload.ts:499-503 | if one does, it may open the gate at any moment, and every root may write |
| HotReloadSafety.CommitMigratesTheLatestState | packages/chord/src/reload.ts:458-474 | with its gate up, the state a commit installs is the migration of the state at that moment, however late the commit; without a new version it is unchanged |
| HotReloadSafety.OpenGateLosesWrites | packages/chord/src/reload.ts:458-474 | with the gate of a ready record open, any write is admitted and the commit installs the same state as without it |
| HotReloadSafety.CommitLeavesNoRecordBehindIff | packages/chord/src/reload.ts:538-598 | after a commit two epochs are retained, in order, and every live record runs the code its type is served with, if and only if no live record before was of a type neither served nor pending |
| HotReloadSafety.NoOrphansIff | packages/chord/src/reload.ts:504-511 | every step leaves no live record of a type neither served nor pending, except the end of a rollback and the announcement of an epoch that find a live record of a type they drop |
| HotReloadSafety.OldCodeAfterCommit | packages/chord/src/reload.ts:600-624 | roots of the previous epoch can still call a replaced record if and only if it was not gated |
| HotReloadSafety.GatedIffNeeded | packages/chord/src/reload.ts:348-370 | over runs from a record's preparation to the commit: it is gated if and only if its state version changes or an exclusive resource is replaced; one that is not gets no gate from that reload, and roots of the previous epoch can still call it after the commit |
| HotReloadSafety.CommitStartsRuntimeIff | packages/chord/src/reload.ts:217-226 | in every run from the end of a reload's prepare to its commit, however long and whatever happens between: the commit starts the listeners and tasks of a record that waits for it if and only if the record was live when prepare ended |
| HotReloadSafety.StagedThrough | packages/chord/src/reload.ts:208-226 | over such a run what the reload staged is exactly the records that were live and waiting when prepare ended, and they still wait |
| HotReloadSafety.BehaviorsStayTidyIff | packages/chord/src/reload.ts:476-511 | every step keeps behaviors to retained and pending epochs, except one that drops a pending epoch which a live record has a behavior for |
| HotReloadSafety.PendingOwnedIff | packages/chord/src/reload.ts:174-213 | an epoch stays pending with nobody to commit or clear it if and only if a reload cancelled while it waited for retirement announces it after its rollback is over |
| HotReloadSafety.RefusalOwnedIff | packages/chord/src/reload.ts:476-511 | new records stay refused with no reload and no rollback to admit them again only after that same reload, if it found nothing to wait for, or on a failed host |
| HotReloadSafety.IdleHostIsOpenIff | packages/chord/src/reload.ts:476-511 | when no reload and no rollback runs no gate is up, and a live record is open to every root of the current epoch, with the code served, if and only if its type is served |
| HotReloadSafety.FailedReloadChangesNothing | packages/chord/src/reload.ts:476-511 | in a run without a commit, whatever prepares, gates, rolls back and overlaps, the current epoch, its services and every surviving record's service, versions and behaviors stay (but for the epoch that was already previous), and its state unless written |
| HotReloadSafety.EpochsRise | packages/chord/src/host.ts:254-259 | epoch ids rise with every commit that does not fail the host, at most two are retained, and a retired one does not come back |
| HotReloadOrderly.OrderlyRunsAreSafe | packages/chord/src/reload.ts:174-624 | in runs where reloads do not overlap rollbacks, pending types are not acquired while a rollback disposes, no reload is cancelled while it waits, and roots end after their calls: no commit fails, no call runs old code over new state, no record is left behind, no activation is superseded |
| HotReloadOrderly.OrderlyGatesHold | packages/chord/src/reload.ts:412-456 | in such runs a drained gate is up, admits nothing and lets no call run |
| HotReloadOrderly.OrderlyHostsReopen | packages/chord/src/reload.ts:476-511 | and on an idle host nothing is pending and every live record is open with the code served |
| HotReloadRuns.OrphanIsLeft | packages/chord/src/reload.ts:504-511 | a run after which a record of a type nobody serves is live on an idle host and cannot be called |
| HotReloadRuns.ActivationIsSuperseded | packages/chord/src/record.ts:840-842 | a run in which an activation fails for changed code because a rollback ended meanwhile |
| HotReloadRuns.AbandonedEpochKeepsItsBehavior | packages/chord/src/record.ts:830-834 | a run after which a record has a behavior for an epoch that is neither retained nor pending |
| HotReloadRuns.AbandonedCodeIsCalled | packages/chord/src/host.ts:254-259 | a run in which the abandoned id is committed by the next reload and code that was never committed can be called under it |
| HotReloadRuns.RollbackOpensForeignGate | packages/chord/src/cluster.ts:197-234 | a run in which the rollback of a cancelled reload opens the gate of a record that the next reload has migrated, and the next reload can still commit |
| HotReloadRuns.OldCallOverNewState | packages/chord/src/reload.ts:228-242 | a run in which a call of a dropped epoch is in flight on a record whose state was migrated |
| HotReloadRuns.PendingIsLeft | packages/chord/src/reload.ts:174-181 | a run after which an idle host serves a type of an epoch that no reload will commit |
| HotReloadRuns.LateRecordStaysDeferred | packages/chord/src/reload.ts:217-226 | a run after which a record of an added type is served, and its listeners and tasks never started |
| ReloadHost.ReloadingHost.Admit | packages/chord/src/record.ts:1123-1134 | admission and its refusals: host failed, epoch not retained, record upgraded since, or gated for other roots |
| ReloadHost.ReloadingHost.Invoke | packages/chord/src/record.ts:1152-1194 | a call begins if and only if the host runs, the record is live, the epoch retained, not older than the record's last gated upgrade, and has a behavior, and the gate, if up, admits the root; it then leases the record and runs that behavior |
| ReloadHost.ReloadingHost.WriteCell | packages/chord/src/record.ts:1143-1150 | a write happens if and only if it is admitted |
| ReloadHost.ReloadingHost.EndRootHere | packages/chord/src/record.ts:1208-1212 | the end of a root removes it from every record's leases and gate, and exactly the gates that waited for it alone have drained |
| ReloadHost.ReloadingHost.PrepareRecords | packages/chord/src/reload.ts:311-370 | after a pass exactly the earlier candidates and the live records still to do are prepared, with the new code of their type, and gated if and only if the state version changes or an exclusive resource is replaced; with no activation in flight nothing is left to do |
| ReloadHost.ReloadingHost.CutGates | packages/chord/src/reload.ts:412-426 | the cut gates exactly the live gated records, to the roots that hold leases, replaces any gate that is up, and stops their tasks |
| ReloadHost.ReloadingHost.MigrateStates | packages/chord/src/reload.ts:458-474 | state of every record whose version changes is migrated into a private copy; cells are untouched |
| ReloadHost.ReloadingHost.InstallOne | packages/chord/src/reload.ts:546-624 | one record's part in a commit: removed; or upgraded to the candidate's code and migrated state, open, its tasks running, without its old code if gated; or carried over with its code for the next epoch |
| ReloadHost.ReloadingHost.CommitReload | packages/chord/src/reload.ts:519-598 | the publication computes the commit of the model, record after record, and fails the host if nothing is pending |
| ReloadHost.ReloadingHost.ReopenGates | packages/chord/src/reload.ts:499-511 | a rollback reopens exactly its gates that are up and restarts the tasks of live records; then it has the present records to look at if one is of a type not served, and is over otherwise, with nothing pending and no type refused |
| ReloadHost.ReloadingHost.DisposeNext | packages/chord/src/reload.ts:504-511 | it disposes the records it found at the start one by one, if their type is not served when their turn comes, and then clears what is pending |
| ReloadHost.ReloadingHost.RetirePrevious | packages/chord/src/host.ts:541-561 | retirement drops the previous epoch and its behaviors everywhere |
| GateQueue.DeliveredExactlyOnceIff | packages/chord/src/record.ts:1090-1118 | in every run each published event is delivered, set aside, on its way or lost, once; when nothing waits, each was delivered exactly once if and only if none was lost |
| GateQueue.StepLosesIff | packages/chord/src/reload.ts:416-423 | a step loses events if and only if it cuts a gate while another reload's gate has events set aside |
| GateQueue.OverlapLosesEvents | packages/chord/src/reload.ts:416-423 | a run that loses one |
| GateQueue.ReopeningKeepsOrderIff | packages/chord/src/record.ts:1113-1118 | reopening a gate keeps publication order if and only if no listener's task is queued, or nothing was set aside |
| GateQueue.DeliveredInOrder | packages/chord/src/record.ts:1090-1118 | a listener on a source hears its revisions in publication order across any number of reloads, unless one replaces another's gate: the publication queue alone sees to it |
| GateQueue.DirectEventsOvertake | packages/chord/src/record.ts:1007-1012 | a run in which a listener on a resource that emits during a commit hears the later event first |
| Cells.WriteKeepsConsistent | packages/chord/src/cell.ts:157-228 | after a write every derivation, however indirect, is its function over the new values, and what does not derive from the cell is unchanged |
| Cells.SolutionIsUnique | packages/chord/src/cell.ts:241-260 | there is at most one way to install a write |
| Cells.ConsistentMeans | packages/chord/src/cell.ts:275-318 | consistent values are what the cells mean: each equals the derivation evaluated from the cells alone |
| Cells.DryRunIsConsistentIff | packages/chord/src/reload.ts:76-96 | a derivation attached with its dry-run value after any writes is consistent if and only if its function gives the same for what its sources hold now as then; for a function that gives this value for nothing else, if and only if the sources hold the same; and they do if no write was of a cell they are or derive from |
| Cells.DryRunGoesStale | packages/chord/src/reload.ts:628-628 | a dry run, a write and an attachment after which a derivation shows an old value |
| CellHost.CellGraph.Dependents | packages/chord/src/cell.ts:242-250 | the walk of dependents finds exactly what derives from the source |
| CellHost.CellGraph.ComputeDependents | packages/chord/src/cell.ts:241-260 | recomputation in creation order succeeds if and only if consistent, valid new values exist, and computes them |
| CellHost.CellGraph.Publish | packages/chord/src/cell.ts:202-227 | a write installs all of it or nothing, succeeds exactly when it can, and notifies the cell first, then changed derivations in creation order; a write of the same value does nothing unless it is a reset |
| CellHost.NoticesAre | packages/chord/src/cell.ts:338-346 | observers hear of exactly the derivations whose value changed, of each once and in creation order |
| CellHost.CellGraph.Attach | packages/chord/src/cell.ts:299-305 | attaching registers the derivation with each of its sources |
| Publications.PublicationQueue.Execute | packages/chord/src/publish.ts:10-39 | code run under a delivery or hold only queues; otherwise all it leads to has been delivered, in queue order, when it returns |
| Publications.PublicationQueue.EnqueueTask | packages/chord/src/publish.ts:14-18 | a task runs after everything enqueued before it, at once if nothing is delivered or held |
| Publications.PublicationQueue.HoldPublications | packages/chord/src/publish.ts:20-29 | nothing is delivered before the held code returns, then everything it enqueued, in order |
| Publications.PublicationQueue.Drain | packages/chord/src/publish.ts:31-39 | a drain delivers the whole queue including what deliveries add, unless one is under way |
| Publications.RunInEnqueueOrder | packages/chord/src/publish.ts:10-39 | tasks have run once each, in enqueue order, at every moment, and all of them when the queue is not busy |
| Publications.DeliveryIsComplete | packages/chord/src/publish.ts:31-39 | a delivery runs every task and every task those lead to, as often as each was enqueued |
| Publications.WaitingRunFirst | packages/chord/src/publish.ts:31-39 | waiting tasks run before anything any of them enqueues |
| Fanouts.ListenersMissNothing | packages/chord/src/cell.ts:28-51 | in every run a listener hears a snapshot and then every later revision once, in adoption order, up to the newest when all is delivered |
| Fanouts.UnsubscribedHearsNothing | packages/chord/src/cell.ts:34-51 | in every run a listener hears nothing after it unsubscribed, not even what was queued for it |
| Fanouts.ResubscriptionIsCleanIff | packages/chord/src/cell.ts:34-51 | the same listener subscribed again hears a snapshot and each later revision once, when the queue is delivered, if and only if no queued delivery lists it |
| Fanouts.ResubscriptionOverlaps | packages/chord/src/cell.ts:34-51 | a run in which it hears a revision twice |
| Fanouts.SourceFanout.Events | packages/chord/src/cell.ts:34-38 | a new listener hears the present revision at once and is listed in no delivery that is queued, so what it hears next is later; nobody else hears anything |
| Fanouts.SourceFanout.Publish | packages/chord/src/cell.ts:44-51 | nobody hears a publication at once; to exactly those subscribed now its revision becomes due, after everything that was due to them before |
| Fanouts.SourceFanout.RunDelivery | packages/chord/src/cell.ts:47-50 | a delivery reaches the listeners it lists that are still subscribed |
| StateStreams.SubscribersEndOnTheNewest | packages/chord/src/state.ts:102-239 | callbacks begin with the hydration and get strictly later revisions with their values, at most 100 wait, and an open subscriber ends on the newest revision when all is delivered |
| StateStreams.NothingIsDroppedIff | packages/chord/src/state.ts:115-124 | in every run the frames an open subscriber has begun and has waiting are every revision since its hydration, without a gap, if and only if no publication ever found a hundred waiting |
| StateStreams.OneCallbackAtATime | packages/chord/src/state.ts:126-148 | in every run a subscriber's next callback begins only after the one before has returned |
| StateStreams.StepKeepsInv | packages/chord/src/state.ts:180-239 | publishing, subscribing, closing, offering and callbacks, in any interleaving, keep that |
| StateStreams.AttachedFollowsTheSource | packages/chord/src/state.ts:292-351 | an attached source publishes exactly the frames before the first gap, in order, nothing after it, and its sequence is cursor minus snapshot cursor |
| StateStreams.StateSubscriber.PushFrame | packages/chord/src/state.ts:115-124 | a frame goes behind all that waits; only if a hundred wait these are dropped, except a hydration that has not begun; a closed subscriber takes nothing |
| StateStreams.StateSubscriber.Deliver | packages/chord/src/state.ts:126-148 | a callback begins if and only if none runs, the subscriber is open and a frame waits |
| StateStreams.StateSubscriber.DrainAll | packages/chord/src/state.ts:126-148 | with callbacks that return at once a drain delivers all that waits, in order |
| ToolDeclarations.DeclaringYieldsTheTools | packages/agent/src/agent-loop.ts:333-379 | replaying the transcript with the declared messages gives exactly the tools the runtime can execute |
| ToolDeclarations.DeclaringKeepsMessages | packages/agent/src/agent-loop.ts:333-379 | declaring keeps every message in order and adds at most one update before them |
| ToolDeclarations.DeclaresOnlyChanges | packages/agent/src/agent-loop.ts:333-379 | without a system message among them an update is declared if and only if the tools differ; what is declared names exactly the tools that come, go or change |
| ToolDeclarations.ChangesReplay | packages/ai/src/utils/transcript.ts:150-167 | removing and then adding the computed changes turns the previous tools into the current ones; there are none exactly if they are equal |
| AgentEvents.OneStartOneMessage | packages/agent/src/agent-loop.ts:381-469 | a response adds exactly its final message to the context if and only if the provider starts it at most once |
| AgentEvents.TwoStartsLeaveAPartial | packages/agent/src/agent-loop.ts:381-469 | a stream after which a partial message stays in the context |
| AgentEvents.RunningIsOpen | packages/agent/src/agent.ts:580-592 | in a bracketed run the agent's set of running tools is empty outside a batch, within one holds only tools that have not ended, and all of them if no call id is used while it runs |
| AgentLoops.AgentRun.Run | packages/agent/src/agent-loop.ts:102-126 | the transcript is the initial one, the declared prompts, and for each turn of the script what went before its request, its response and its results; what is heard of it, up to the order in which tools end, is exactly told by those turns; at each turn's end transcript and context agree; everything queued went before exactly one request, in queue order, or still waits, at most one message a request in one-at-a-time mode; unless the run failed or was ended, only what came after its last polls still waits; a run prompted with drained steering does not poll first; a request is made exactly as long as the turn before asks for one, and a turn's tools ask for one exactly if it was truncated or a call that completed does not ask to stop; `agent_end` carries the `message_end` messages |
| AgentLoops.AgentRun.RunLoop | packages/agent/src/agent-loop.ts:163-321 | the same for the loop alone, from whatever transcript it begins with |
| AgentLoops.AgentRun.Pass | packages/agent/src/agent-loop.ts:183-299 | a pass plays the next turn of the script on the transcript so far and adds one request to the run, with what was pending or, if nothing was, polled early; it ends the run on failure or a decision to end, and marks a continuation only if nothing else asks for a request |
| AgentLoops.AgentRun.RunTurn | packages/agent/src/agent-loop.ts:207-287 | a turn adds declared messages, the response and its results, none if the response failed, and is heard so; its tools want another request if and only if it did not fail, has calls, and was truncated or a call that completed does not ask to stop |
| AgentLoops.AgentRun.FollowUp | packages/agent/src/agent-loop.ts:301-320 | follow-ups come before a decision to continue, which yields one further request; what is queued while the run would stop waits for a later poll |
| AgentLoops.AgentRun.StreamResponse | packages/agent/src/agent-loop.ts:381-469 | whatever the provider streams, the transcript gets the final message once; events stay bracketed and the context agrees if and only if the provider starts the response at most once |
| AgentLoops.AgentRun.ExecuteSequential | packages/agent/src/agent-loop.ts:530-584 | results answer the calls in order, all of them unless an abort is seen, then up to the call it was seen after; each asks to stop if and only if its tool does; tool after tool is heard |
| AgentLoops.AgentRun.ExecuteParallel | packages/agent/src/agent-loop.ts:586-660 | tools end in any order, results are reported in call order, of all that were started before an abort was seen; each asks to stop if and only if its tool does |
| AgentLoops.AgentRun.FailTruncated | packages/agent/src/agent-loop.ts:478-503 | every call of a truncated response gets a failed result that does not ask to stop, and none runs |
| AgentLoops.AgentRun.ExecuteTools | packages/agent/src/agent-loop.ts:508-523 | a batch stops the loop if and only if it was not truncated, has results, and the tool of each asks for it |
| AgentLoops.AgentRun.AddMessages | packages/agent/src/agent-loop.ts:210-217 | messages enter context and transcript in order |
| AgentLoops.AgentRun.Emit | packages/agent/src/agent.ts:565-603 | the agent's transcript grows with each `message_end` and by nothing else, and its set of running tools is reduced from the events |
| AgentLoops.AgentRun.DrainSteering | packages/agent/src/agent.ts:143-174 | draining takes the whole queue, or its first message, and leaves the rest |
| AgentLoops.AgentRun.DrainFollowUps | packages/agent/src/agent.ts:143-174 | the same for follow-ups |
| Pricing.TiersAgreeWithBrackets | packages/ai/src/models.ts:1206-1215 | for contiguous brackets whose flat rate is the first one's, for every prompt length and tier order, the compiled tiers give each rate the cost of the bracket that contains the tokens |
| Pricing.OnePrice | packages/ai/scripts/ai-gateway-pricing.ts:3-8 | contiguous brackets give every prompt length one price |
| Pricing.FlatRateWinsBelowTheFirstStart | packages/ai/scripts/ai-gateway-pricing.ts:38-66 | whatever the flat rate, prompts from the first start on cost what their bracket says; below it they do if and only if the flat rate is the first bracket's |
| Pricing.FlatRateIgnoresTheBracket | packages/ai/scripts/ai-gateway-pricing.ts:38-66 | a gateway whose only bracket costs 2 and whose flat rate is 1 compiles to a cost of 1 for every prompt |
| Pricing.SameBracket | packages/ai/scripts/ai-gateway-pricing.ts:53-64 | between two starts no rate changes |
| Pricing.EffectiveRates | packages/ai/src/models.ts:1206-1215 | the loop picks a tier with the highest threshold below the tokens, whatever the order, or the base rates if there is none |
| Pricing.Compile | packages/ai/scripts/ai-gateway-pricing.ts:38-66 | there is one tier for each positive bracket start, in rising order, with the rates in effect there, and no other |
| ModelRefresh.MutationsFollowCallOrder | packages/ai/src/models.ts:509-536 | in every run store mutations of a provider follow call order and do not overlap; updates follow it too, with generations that do not decrease |
| ModelRefresh.NothingSupersededRuns | packages/ai/src/models.ts:509-536 | an update of memory runs only in a generation that is current |
| ModelRefresh.NothingFromBeforeRuns | packages/ai/src/models.ts:410-425 | after a provider is replaced, deleted or cleared nothing published for an earlier refresh updates memory |
| ModelRefresh.TurnUpdatesIff | packages/ai/src/models.ts:509-536 | the publication in front begins to store if and only if it is current and to be stored; when its turn is over memory is updated if and only if it is current, not aborted, and what it was to store is stored |
| ModelRefresh.UndisturbedPublicationsRun | packages/ai/src/models.ts:509-536 | in every run a publication whose refresh is neither superseded nor aborted updates memory when its turn is over, unless it was to be stored and a store mutation failed |
| ModelRefresh.NothingAbortedRuns | packages/ai/src/models.ts:509-536 | once the signal of a refresh is aborted nothing it published updates memory |
| ModelRefresh.RefreshIsRegisteredUntil | packages/ai/src/models.ts:491-507 | a refresh stays registered until it ends itself or is superseded, which exactly a newer refresh, a replacement, a deletion and a clearing do, and then its signal is aborted |
| ModelRefresh.StepKeepsInv | packages/ai/src/models.ts:410-536 | every step keeps the order of queue, mutations and updates, and a current refresh belongs to a registered provider |
| ModelRefresh.ModelCollection.SupersedeProvider | packages/ai/src/models.ts:491-500 | superseding raises the generation and aborts the registered controller |
| ModelRefresh.ModelCollection.Replace | packages/ai/src/models.ts:410-413 | replacing supersedes, then registers |
| ModelRefresh.ModelCollection.Delete | packages/ai/src/models.ts:415-418 | deleting supersedes, then unregisters |
| ModelRefresh.ModelCollection.ClearAll | packages/ai/src/models.ts:420-425 | clearing supersedes every provider registered or being refreshed |
| ModelRefresh.ModelCollection.BeginProviderRefresh | packages/ai/src/models.ts:502-507 | a refresh supersedes the one before and registers its own controller |

## Left out

- Cluster: children of children, browser clients, remembered remote modules, and what a report contains. In the cluster model the rollback of a server's own reload is one step. A child host that reloads on its own while disconnected is not modelled.
- CommitFrames.CommitPrecedesCalls: publishing itself calls nobody in the new epoch, for it only installs; what it enqueues may.
- A commit that throws half-way fails the host, which then admits nothing; only the child side models a failed host (`ChildReload.CommitInstallsIff`).
- Links are FIFO and may close at either end at any time; WebSocket and IPC transports, pings, sync waiters and authentication are not part of this model. Deadlines are steps that may happen at any time.
- Calls are structured: a root's calls settle before the root does. Calls that nobody awaits outlive their root's leases.
- `close` callbacks of resources and listeners called while an activation is finalized make no calls on records. An abort that arrives during the `close` of a gated exclusive resource may reopen that resource early; exclusivity is not claimed.
- A record has one cell and the host has no resources, registries, registrations, eager records or facets; `checkProviders`, `checkHolds` and the table checks of a prepare are not modelled. Tasks are the code they run.
- GateQueue.DeliveredInOrder: listeners on sources; for listeners on resources `GateQueue.ReopeningKeepsOrderIff` is exact. Listeners staged by a reload, with their buffers, are not modelled.
- Schemas: `const` and `enum` on containers, `anyOf` next to other keywords, `patternProperties`, `additionalItems` as a schema, function schemas, defaults and annotations. A union strips with the first branch that accepts the result; an object is stripped wherever its schema names the object type. Equal fingerprints are modelled as equal descriptions, and an adapter's view is not modelled.
- Cells: revisions are values; deltas, trackers and structural diffs are not modelled, nor derivations over readables that are not sources.
- StateStreams: the values of a replicated state are produced elsewhere; `Context` values are not modelled.
- Relays: the content of frames, feeds and handles of locally served holds, status shapes, and revocation of one principal among several (a relay may close at any time for any reason). When a relay closes, the model removes the entries by which it is found before it undoes its calls and subscriptions, the source after; both happen within one synchronous step and send the same frames in the same order. The removal of an `incoming` entry happens with the settlement, not a microtask later.
- RelayHost.RelayTables.CloseRelay: says what changes for the tables and the relay and which frames are sent, not in which order.
- Agent: hooks neither throw nor replace the context or the model; validation and preparation of tool arguments, partial tool results, telemetry, `runAgentLoopContinue`, and clearing a queue or changing its mode during a run are not modelled. Listeners of the agent are not awaited separately. When a script of turns is exhausted the provider fails.
- AgentLoops.AgentRun.Run: for providers that start each response at most once; `AgentLoops.AgentRun.StreamResponse` shows that this is what it takes.
- Pricing: parsing of price strings, rounding, and the amounts computed from the rates.
- ModelRefresh: providers' network and credentials, the contents of the store, and the race of a publication with its caller's signal.
