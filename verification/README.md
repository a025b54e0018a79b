# Proxmox MCP server: a verified model

`rust-proxmoxmcp` lets agents and humans operate Proxmox clusters through guarded tools.
Its dangerous operations go through *change sets*: planned by one principal, approved by
another, claimed once, written to the cluster once, followed to their outcome, and recovered
after a crash. This project models that protocol, the guest cache its drift check depends
on, the authorization in front of it, and the encodings and scanners they all rest on, and
proves what the code's comments promise about them. `dafny verify dfyconfig.toml` checks it.

## How the model is laid out

| part | files |
|---|---|
| the apply and recovery protocol as a step machine, its invariant, its runs | `Tasks`, `Vendor`, `ChangeSets`, `ApplyProtocol`, `ApplySafety`, `ApplyRuns`, `Restarts`, `ApplyExamples` |
| the guest cache as a step machine over unboundedly many callers | `GuestCache`, `CacheProtocol`, `CacheSafety`, `CacheExamples` |
| both as one machine, in which every plan and every apply reads the cluster before it records or compares | `LiveProtocol`, `LiveSafety`, `LiveRuns`, `LiveExamples` |
| the cache, the store and the handlers as programs: objects whose fields change, and plan, approve, apply and recovery on them with other tasks running between any two of their steps | `GuestIndexObject`, `HandlerReads`, `PlanHandler`, `ApplyHandler`, `Recovery`, `GuestCalls` |
| scope, protection, overrides, the two-read gate, HA rule changes | `Selectors`, `Grants`, `Guests`, `Protection`, `Authorization`, `HaRules`, `Resources` |
| fingerprint texts, JSON, form encoding, paging, sorting | `Fingerprint`, `GuestReads`, `Json`, `JsonAccess`, `FormEncoding`, `Paging`, `Order`, `Text` |
| the low-tier create and resize checks | `VolumeScan`, `Resize` |

In `ApplyProtocol` a state holds the store, the evidence log, the running handlers, the
vendor's side of every write and every cluster's task table. A run is any sequence of enabled
actions: a step of any handler with its store or evidence write working or failing, a handler
that stops, a late decision of the vendor, a task that ends, a crash, a restart with other
settings, a step of recovery. The guest, restore and HA-rule applies share one shape of steps;
what differs is the operation (`TaskOp`, `VolumeOp`, `HaRuleOp`) and who may waive.

`LiveProtocol` pairs that state with the index's and adds the reads each plan and each apply
makes, one step at a time. For a guest: drop the cached listing, resolve, resolve again inside
`authorize`, pass the gate, read the configuration. For a restore: resolve the backup's owner and
check it, drop the listing, resolve the target and find nobody. For a rule: read the rule. A plan
can be recorded and a fingerprint compared only on the text of a finished reading. Every other
caller of the index, every other handler and the cluster move freely in between; a crash takes
the index and all readings with it.

Fields marked as history in `Cs`, `Fetch`, `CacheProtocol.Sys`, `LiveProtocol.Reading` and `LiveProtocol.Origin`
exist only so that properties can be stated; no step reads them to decide anything but `Fetch.gen`,
which repeats the generation its resolve has loaded.

## What is assumed of the environment

- A status of 400 or above means the write was not accepted; a readable success means it was
  accepted, as the task it names or, when it names none, done (`Vendor.Truthful`).
- A finished task's exit status never changes, a status answer about a task that is not
  running reports that task's own exit status, and a new task's handle is new on its cluster.
- One send is at most one request; it can be decided arbitrarily late, after a crash too.
- The coordinator (`mecmcp-changeset`) is not part of this repository. Its contract is the one
  the handlers state: the claim is atomic and the only way from approved to applying; a store
  write replaces a record or changes nothing; loading the store fails records that were claimed
  expecting a handle and have none; approving is refused for the owner and for non-humans; the
  plan part of a record is immutable. One server process uses the store.
- A hash is collision-free: change sets carry the fingerprint's text instead of its SHA-256.
- An answer to `/cluster/resources`, to a guest's configuration or to an HA rule is true of one
  moment between request and response.

## What the model found

- Recovery takes the cluster from the text before the first `/` of the record's device. It is
  sound for a record exactly when its own cluster's name has no slash; otherwise there is a run
  in which the record reads `Applied` while the vendor's task is still running. Records of
  slash-free clusters keep every guarantee next to slash-named ones. Whether the inventory
  loader admits a `/` in a name cannot be seen from this repository.
- A guest and an HA rule share a device exactly when the guest's cluster is named like a rule of
  the other cluster (`x/ha-rule:y` and vmid 123 against rule `y/123` of `x`).
- The cache bounds age but does not by itself give monotone reads: requests can be published in
  the opposite order, also across a bump until its eviction. A read that asked the cluster itself
  is never older. For one served from the cache it depends on the spacing alone: with the last bump
  it can count on at `c` and the earlier answer at `a`, no run goes back if and only if no guest is
  listed from `c` up to `a`. So a read renewed since the earlier answer is safe, and any other is
  unsafe as soon as there is anything to read.
- The refusal of a restore tells a caller one thing about guests out of scope: an owner that exists
  out of scope and one that is gone are refused with different texts. Whether it is refused depends
  on in-scope guests alone.
- A failed first read counts as protected, so in lab mode a plan can be waived although no guest
  was ever seen to be protected; the approval rule is stated accordingly.
- The first read of the two-read gate happens before any scope check. It shows in the answer
  exactly when the second read finds an in-scope protected guest and the two first reads disagree
  on whether an override applies.
- A padded star in a grant lifts the listing filter but admits no guest (such a grant does not
  validate). A grant that lists both guest types admits every guest, yet no new vmid.
- The size text of a disk allocation is digits and dots in any arrangement: a lone `.` passes.
- An HA rule that is present with body `null` shares its fingerprint with an absent rule.
- For a narrowed grant the listing filter and the index agree about an entry exactly when it is
  not shown or the last readable entry with its vmid is the same guest.

## Model

| member | source | states |
|---|---|---|
| `ApplyRuns.RecordsAreHonest` | crates/rust-proxmoxmcp/src/server/mod.rs:5855-6153 | in every run, whatever clusters are configured: a record whose own cluster has no slash in its name reads `Applied` only if the vendor carried the write out, `Failed` only if nothing went out, it was refused, or its task ended with something other than "OK", and a sent write that is neither leaves it `Applying`; whatever the name, nothing is sent before the claim |
| `ApplyRuns.AtMostOneWrite` | crates/rust-proxmoxmcp/src/server/mod.rs:5889-5960 | counting the sends in the actions of any run, no change set is ever sent twice |
| `ApplyRuns.RunCountsSends` | crates/rust-proxmoxmcp/src/server/mod.rs:5955-5960 | the per-set send counter equals the number of send actions in the run |
| `ApplyRuns.SendIsRemembered` | crates/rust-proxmoxmcp/src/server/mod.rs:5955-5960 | a send adds one, in flight, on the text its handler compared, and counts as audited exactly if evidence is on |
| `ApplyRuns.EveryWriteIsWarranted` | crates/rust-proxmoxmcp/src/server/mod.rs:5697-5960 | at the moment of any send in any run: claim held by this handler alone, nothing sent before, approval proper, fingerprint re-read equal to the planned one, and the intent on record if evidence is on |
| `ApplyRuns.SentSetsAreWarranted` | crates/rust-proxmoxmcp/src/server/mod.rs:5080-5127 | every set ever sent was approved by a human other than its planner, or planned by `plan_destroy` under lab mode with a protected verdict and no covering waiver |
| `ApplyRuns.ProperMeansWarranted` | crates/rust-proxmoxmcp/src/server/change_set.rs:25-36 | the two kinds of approval, spelt out; a waiver is neither |
| `ApplyRuns.EvidenceIsTrue` | crates/rust-proxmoxmcp/src/server/mod.rs:5908-6116 | receipts of a set of a slash-free cluster agree with each other, with the record and with the vendor; of any set, an indeterminate answer has no receipt and an audited write has its intent |
| `ApplyRuns.RecordsMoveForward` | crates/rust-proxmoxmcp/src/server/mod.rs:5857-5883 | each step moves a record along the one path through the claim or not at all, rewrites neither the plan nor a given approval, and loses no handle in flight |
| `ApplyRuns.SettledIsFinal` | crates/rust-proxmoxmcp/src/server/mod.rs:2352-2372 | no later step of any run, recovery included, touches a settled record |
| `ApplyRuns.HandleMakesRecoverable` | crates/rust-proxmoxmcp/src/server/mod.rs:6054-6085 | in every run a record in flight with a handle carries the handle of its own write, and for a configured slash-free cluster the end of that task is enough to settle it |
| `Restarts.PersistStoresTheHandle` | crates/rust-proxmoxmcp/src/server/mod.rs:6066-6085 | with evidence on or off, a store write that works leaves the record in flight with its own task's handle |
| `Restarts.HandleLasts` | crates/rust-proxmoxmcp/src/server/mod.rs:2370-2406 | through any steps, crashes and restarts included, that handle stays on record while the record is in flight |
| `Restarts.RestartSettles` | crates/rust-proxmoxmcp/src/server/mod.rs:2336-2527 | a server that is down with such a record of a slash-free cluster has a restart that settles it by its task's exit status and writes the receipt if evidence is on |
| `Restarts.PersistedWritesAreRecovered` | crates/rust-proxmoxmcp/src/server/mod.rs:6066-6085 | in every run, once an apply has stored its handle, whatever follows: if the server goes down with the record in flight and the task has ended, a restart settles it by the exit status |
| `ApplyRuns.RecoveryTrueExactlyWhenSlashFree` | crates/rust-proxmoxmcp/src/server/mod.rs:2391-2478 | recovery settles by the record's own task for all configurations and truthful answers if and only if the cluster's name has no slash |
| `ApplyRuns.OnlyHandlelessClaimsSurviveStartup` | crates/rust-proxmoxmcp/src/server/mod.rs:5865-5879 | loading the store rewrites an unfinished claim exactly when it was made expecting a handle, and then to `Failed` |
| `ApplyRuns.StartupFailsExactly` | crates/rust-proxmoxmcp/src/server/mod.rs:5865-5879 | for every record: loading changes it exactly if it is in flight without a handle and was claimed expecting one, and then only its state |
| `ApplySafety.StepKeeps` | crates/rust-proxmoxmcp/src/server/mod.rs:5525-6153 | every action keeps the invariant that ties store, log, handlers and vendor together |
| `ApplySafety.ReceiveEarned` | crates/rust-proxmoxmcp/src/server/mod.rs:5955-6058 | going on from a reply concludes nothing the reply does not support |
| `ApplySafety.MoveSparesNeighbour` | crates/rust-proxmoxmcp/src/server/mod.rs:5857-5863 | a handler's step leaves every other handler of the same change set where it was, so at most one holds the approval |
| `ApplySafety.RecoveryConcludesTruly` | crates/rust-proxmoxmcp/src/server/mod.rs:2370-2478 | what recovery concludes from a truthful answer about a record of a slash-free cluster is the vendor's outcome of that very write |
| `ApplyExamples.SomeRunRecoversAnOutcome` | crates/rust-proxmoxmcp/src/server/mod.rs:2336-2352 | there is a run from plan through crash to an honest `Applied` by recovery |
| `ApplyExamples.SomeSlashRunLies` | crates/rust-proxmoxmcp/src/server/mod.rs:2391-2406 | with a slash in the cluster's name there is a run that ends `Applied` while the vendor's task runs |
| `ApplyHandler.Server.ApplyChangeSet` | crates/rust-proxmoxmcp/src/server/mod.rs:5525-6153 | whoever runs in between and whatever fails: this call sent something exactly if it does not answer "nothing was sent" (or the send itself failed); only for an approved record with preview at its own device, for a caller whose own grant names the guest the second read found and carries the tier, with no guard on it or an override by lab mode or a live waiver for the recorded operation and this principal, with the planned fingerprint and the operation's own checks passed; undisturbed, every such call does send; an outcome is reported only if it is the vendor's and then stands in record and log as far as those could be written; otherwise the record still reads `Applying` without a receipt; and a task's handle that arrived and could be stored is on record while the record is in flight |
| `ApplyHandler.Server.Verify` | crates/rust-proxmoxmcp/src/server/mod.rs:5557-5853 | goes on only if, and undisturbed exactly if, the record is approved with a preview and planned for this device, the caller itself is entitled to the recorded operation on what the two reads after its own invalidation answer, configuration and operation checks are there, and the guest found is the planned one; the guest stands in the answer to a request that loaded its generation after the bump |
| `ApplyHandler.Server.Judge` | crates/rust-proxmoxmcp/src/server/mod.rs:5618-5853 | given its copy of the record and its two reads, goes on if and only if this caller passes |
| `ApplyHandler.Server.SpendAndSend` | crates/rust-proxmoxmcp/src/server/mod.rs:5855-6153 | from the passed checks to the answer: nothing is sent before the claim and the intent, and an undisturbed caller of an approved record does send |
| `ApplyHandler.Server.Decide` | crates/rust-proxmoxmcp/src/server/mod.rs:5627-5853 | given the reads, goes on if and only if the call is admitted, finds the planned text, and the copy of the record is approved |
| `ApplyHandler.Server.Compare` | crates/rust-proxmoxmcp/src/server/mod.rs:5690-5714 | the drift check passes exactly for the planned fingerprint text on an approved copy |
| `ApplyHandler.Server.SpendApproval` | crates/rust-proxmoxmcp/src/server/mod.rs:5885-5953 | claim then intent: goes on only as the holder, with nothing sent yet |
| `ApplyHandler.Server.Abandon` | crates/rust-proxmoxmcp/src/server/mod.rs:5919-5951 | a lost intent settles the claim as failed if the store lets it and leaves it claimed otherwise; nothing was ever sent for the set |
| `ApplyHandler.Server.SendOnce` | crates/rust-proxmoxmcp/src/server/mod.rs:5955-6003 | goes on only with a handle or an outcome; otherwise the record stays open |
| `ApplyHandler.Server.Receive` | crates/rust-proxmoxmcp/src/server/mod.rs:5955-6058 | each verdict on the reply has its own way on: a failed outcome, a finished one, the handle, or an open record |
| `ApplyHandler.Server.Follow` | crates/rust-proxmoxmcp/src/server/mod.rs:6060-6092 | the handle is on record, if it could be stored, until the outcome is known and also when the call gives up |
| `ApplyHandler.Server.FailLocally` | crates/rust-proxmoxmcp/src/server/mod.rs:5959-6003 | an error before the send leads to a reported failure exactly if it is not one of transport, parsing, configuration or an unknown cluster, and otherwise leaves the record open |
| `ApplyHandler.Server.Poll` | crates/rust-proxmoxmcp/src/server/mod.rs:505-568 | ends with the task's outcome, or leaves the record open on a deadline or an answer that makes no sense, and keeps the stored handle |
| `ApplyHandler.Server.Probe` | crates/rust-proxmoxmcp/src/server/mod.rs:505-568 | a running task is asked after again, a stopped one's exit status is the outcome, and every other answer ends the call |
| `ApplyHandler.Server.Conclude` | crates/rust-proxmoxmcp/src/server/mod.rs:6093-6153 | receipt, settlement, answer: all the vendor's outcome; a record that could not be settled keeps its handle |
| `ApplyHandler.ReceiptsOnlyGrow` | crates/rust-proxmoxmcp/src/server/mod.rs:6093-6116 | no step of anyone removes a receipt |
| `ApplyHandler.EveryStepLasts` | crates/rust-proxmoxmcp/src/server/mod.rs:5013-5078 | no step of anyone changes a plan or a decided write, removes a receipt, or takes the handle off a record in flight |
| `PlanHandler.PlanChangeSet` | crates/rust-proxmoxmcp/src/server/mod.rs:5006-5127 | a set answered as planned has its preview and the plan asked for, and is approved on the spot exactly under lab mode; a waiver leaves it planned; undisturbed, it is answered as planned exactly if create, read-back, preview and a lab-mode waiver work |
| `PlanHandler.PlanGuest` | crates/rust-proxmoxmcp/src/server/mod.rs:4714-5143 | a guest plan is stored only on a configured cluster for a caller who is itself entitled to the operation on what the index answers after this call's own invalidation; it records operation, owner and the guest that was found, and is approved on the spot exactly if lab mode is on, no waiver covers this call and the first read did not find the guest unguarded; undisturbed, every such call whose store accesses work is stored |
| `PlanHandler.Draft` | crates/rust-proxmoxmcp/src/server/mod.rs:5013-5078 | create, read back, store the preview: a failed creation leaves nothing, a missing read-back or preview leaves a record that cannot be used |
| `PlanHandler.ApproveChangeSet` | crates/rust-proxmoxmcp/src/server/mod.rs:5268-5519 | approval is granted only to, and undisturbed exactly to, a human who is not the planner, on a planned set with a preview, who holds the authority the kind of record demands |
| `PlanHandler.AuthorizedExactlyWhen` | crates/rust-proxmoxmcp/src/server/mod.rs:5329-5476 | that authority from request and record: for a guest the approver's own grant names the guest found, carries the tier, and an override holds for the planner if the guest is guarded; for a restore the tool, the tier, the target's scope and pin and the backup's recorded owner; for a rule its device |
| `PlanHandler.CommitApproval` | crates/rust-proxmoxmcp/src/server/mod.rs:5480-5501 | the coordinator's part holds against whatever happened to the record since it was read, and never touches the plan |
| `PlanHandler.ReadAuthority` | crates/rust-proxmoxmcp/src/server/mod.rs:5347-5405 | the approver is checked by exactly what two resolves answer, or one of the recorded owner of a backup, without an invalidation, for the recorded operation and with the planner's waivers |
| `GuestCalls.ChecksPassExactlyWhenUnchanged` | crates/rust-proxmoxmcp/src/server/mod.rs:5697-5708 | an admitted call passes the checks of another call's plan if and only if operation, cluster and vmid are the same and the two guest states are equal up to the order of tags and disks |
| `GuestCalls.CallOfMeans` | crates/rust-proxmoxmcp/src/server/mod.rs:5646-5677 | a caller's own call is admitted exactly if this caller is entitled, and fingerprints the guest the second read found |
| `GuestCalls.GuestPlanMeans` | crates/rust-proxmoxmcp/src/server/mod.rs:4990-5012 | the plan records owner, kind of write, cluster, guest, operation and fingerprint of the admitted call |
| `GuestCalls.RestoreAdmitsExactlyWhen` | crates/rust-proxmoxmcp/src/server/mod.rs:7095-7172 | a restore's caller passes exactly with the tier, a target in scope that is not pinned, and an owner that may be read |
| `GuestCalls.ApprovalNeedsTheOverrideToo` | crates/rust-proxmoxmcp/src/server/mod.rs:5363-5399 | a destructive plan for a guest protected when the approver's gate looks is approved only under lab mode or a live waiver of the planner for the recorded operation |
| `GuestCalls.AuthorizesExactlyWhen` | crates/rust-proxmoxmcp/src/server/mod.rs:5363-5476 | the same condition for what an approver's reads came to |
| `Authorization.OwnerAdmittedExactlyWhen` | crates/rust-proxmoxmcp/src/server/mod.rs:2681-2745 | an existing owner is admitted if and only if the grant names it and it is neither pinned nor tagged as protected, or lab mode is on or a live waiver covers it; a gone one if and only if its vmid may be created; an unreadable one never; and each refusal has its own cause |
| `Authorization.OwnerCheckDependsOnScopeOnly` | crates/rust-proxmoxmcp/src/server/mod.rs:2681-2745 | whether a restore may copy from a backup's owner depends on in-scope guests alone, existing or gone |
| `Authorization.OwnerRefusalsDifferExactlyWhen` | crates/rust-proxmoxmcp/src/server/mod.rs:2681-2745 | for two listings that agree on in-scope guests the refusal itself differs if and only if exactly one of them holds the owner |
| `Authorization.CreatableVmidIsInScope` | crates/rust-proxmoxmcp/src/server/mod.rs:2725-2737 | a token that may create at the owner's vmid is shown the same owner by all such listings |
| `Vendor.VerdictIsEarned` | crates/rust-proxmoxmcp/src/server/mod.rs:5955-6058 | refused, synchronous or started only when the vendor refused, did, or started it |
| `Vendor.IndeterminateExactlyWhen` | crates/rust-proxmoxmcp-core/src/guests.rs:359-368 | the server gives up exactly on silence, an unreadable success, or a handle it cannot ask after |
| `Vendor.VerdictExactlyWhen` | crates/rust-proxmoxmcp/src/server/mod.rs:5955-6058 | refused exactly on an error status, done and started exactly by operation and body |
| `Tasks.ParseFindsPrintedFields` | crates/rust-proxmoxmcp-core/src/task.rs:29-48 | parsing a handle finds the node, type and id it was printed from |
| `Tasks.ParsesExactlyHandles` | crates/rust-proxmoxmcp-core/src/task.rs:29-48 | a text is a handle exactly if it is nine or more colon-separated fields, the first `UPID`, with a node, a type and an id |
| `Tasks.PollingExactlyWhen` | crates/rust-proxmoxmcp/src/server/mod.rs:505-568 | polling waits exactly for a running task and ends exactly with a stopped one's exit status; recovery takes the exit status of whatever is not running |
| `Tasks.PollingAndRecoveryAgree` | crates/rust-proxmoxmcp/src/server/mod.rs:505-568 | what polling accepts as an outcome, recovery accepts as the same outcome |
| `ChangeSets.RoutesHomeExactlyWhenSlashFree` | crates/rust-proxmoxmcp/src/server/mod.rs:2391-2406 | the device names its own cluster exactly when the name has no slash |
| `ChangeSets.SlashRoutesAway` | crates/rust-proxmoxmcp/src/server/mod.rs:2391-2406 | otherwise it names the part before the slash |
| `ChangeSets.SubjectsDoNotCollide` | crates/rust-proxmoxmcp/src/server/ha_change_set.rs:107-115 | a rule's device is never a guest's of the same cluster, of a slash-free cluster, or for a slash-free rule |
| `ChangeSets.DevicesCollideExactlyWhen` | crates/rust-proxmoxmcp/src/server/ha_change_set.rs:107-115 | for any two cluster names a guest and a rule share a device if and only if the one cluster is the other followed by `/ha-rule:` and a text that, followed by `/` and the vmid, is the rule |
| `ChangeSets.GuestDeviceIsUnique` | crates/rust-proxmoxmcp/src/server/mod.rs:5565 | a guest's device determines cluster and vmid, whatever the cluster is called |
| `Recovery.Coordinator.ChangeSets` | crates/rust-proxmoxmcp/src/server/mod.rs:2353 | the store's records, each once |
| `Recovery.Coordinator.Update` | crates/rust-proxmoxmcp/src/server/mod.rs:2524-2526 | a store write replaces one record or changes nothing |
| `Recovery.Coordinator.ClaimForApply` | crates/rust-proxmoxmcp/src/server/mod.rs:5857-5863 | the claim succeeds exactly on an approved record and moves only it |
| `Recovery.ClaimTwice` | crates/rust-proxmoxmcp/src/server/mod.rs:5860-5863 | of two claims of one record the second is refused |
| `Recovery.RecoverOneRecord` | crates/rust-proxmoxmcp/src/server/mod.rs:2354-2526 | one turn of the recovery loop, every early exit included |
| `Recovery.RecoverInFlight` | crates/rust-proxmoxmcp/src/server/mod.rs:2352-2527 | the loop turns the store into the pass's result whatever the order of the list, and owes the log exactly the receipts of what it concluded |
| `Recovery.RecoverListed` | crates/rust-proxmoxmcp/src/server/mod.rs:2354-2527 | the loop itself, over any listing |
| `Recovery.WholeListingIsThePass` | crates/rust-proxmoxmcp/src/server/mod.rs:2352-2527 | having looked at every record once, in any order, is having made the pass |
| `Recovery.PassSettlesExactly` | crates/rust-proxmoxmcp/src/server/mod.rs:2352-2527 | a pass changes exactly the in-flight records whose handle parses, whose cluster is configured and whose finished task reports an exit status, by that status, and nothing else of them |
| `Recovery.OutcomeExactlyWhen` | crates/rust-proxmoxmcp/src/server/mod.rs:2355-2478 | an outcome is learnt exactly under those conditions |
| `Recovery.ReceiptsTellOutcomes` | crates/rust-proxmoxmcp/src/server/mod.rs:2480-2508 | the receipts are the concluded outcomes, one for each record |
| `Recovery.SecondPassCompletes` | crates/rust-proxmoxmcp/src/server/mod.rs:2524-2526 | a later pass with the same answers makes up exactly the writes both did not lose |
| `Recovery.PassIsIdempotent` | crates/rust-proxmoxmcp/src/server/mod.rs:2352-2527 | with working writes and unchanged answers a second pass changes nothing |
| `Recovery.OneRecordAsSteps` | crates/rust-proxmoxmcp/src/server/mod.rs:2354-2526 | the loop's turn and the machine's recovery steps have the same effect on every record |
| `CacheSafety.NothingStaleIsCached` | crates/rust-proxmoxmcp-core/src/resolve.rs:101-170 | in every interleaving, from the moment an invalidation returns on and whoever has left, nothing cached for its cluster was requested before its generation bump |
| `CacheSafety.BumpStaysBelowTheFloor` | crates/rust-proxmoxmcp-core/src/resolve.rs:151-170 | the generation of a returning invalidation is evicted everywhere it aimed at, then and ever after |
| `CacheSafety.LaterResolvesAreFresh` | crates/rust-proxmoxmcp-core/src/resolve.rs:101-144 | a resolve begun after it, at any later point of the run, answers truly about a moment after the bump, from a request started after it |
| `CacheSafety.ServedAboveTheFloor` | crates/rust-proxmoxmcp-core/src/resolve.rs:101-144 | a resolve is served only from requests in the newest generation evicted before it began, or later |
| `CacheSafety.ServedDataIsRecent` | crates/rust-proxmoxmcp-core/src/resolve.rs:112-144 | cached data is served no later than the time to live after its insertion, so its age is at most that plus the time from request to insertion; own data is not older than the call |
| `CacheSafety.RenewedReadsNeverGoBack` | crates/rust-proxmoxmcp-core/src/resolve.rs:101-144 | in every run, a resolve that began after another of its cluster was served, and that asked for itself or began after an invalidation bumped since, is served a state at least as new |
| `CacheSafety.StepKeeps` | crates/rust-proxmoxmcp-core/src/resolve.rs:101-170 | every atomic step of every caller keeps the cache invariant |
| `CacheSafety.PublishKeeps` | crates/rust-proxmoxmcp-core/src/resolve.rs:114-140 | publishing is safe although a bump may fall between comparing and inserting, because the lock is held since the comparison |
| `CacheSafety.EvictKeeps` | crates/rust-proxmoxmcp-core/src/resolve.rs:151-170 | evicting after bumping, under the lock, catches every insert that compared before the bump |
| `CacheExamples.ReadsCanGoBackwards` | crates/rust-proxmoxmcp-core/src/resolve.rs:92-140 | for every time to live, every guest listed at a moment between a bump and an answer, and every later moment, a run in which a resolve that begins then is served the older listing from the cache |
| `CacheExamples.ReadsAreMonotoneExactlyWhenRenewed` | crates/rust-proxmoxmcp-core/src/resolve.rs:92-170 | for every time to live and every spacing of bump, earlier answer and later read: cached reads so spaced are as new in all runs if and only if nothing is listed between the bump and the earlier answer |
| `GuestIndexObject.GuestIndex.LookupFresh` | crates/rust-proxmoxmcp-core/src/resolve.rs:268-275 | a guest of a snapshot whose age does not exceed the time to live, or none |
| `GuestIndexObject.GuestIndex.Resolve` | crates/rust-proxmoxmcp-core/src/resolve.rs:101-144 | served from the cache without change, or from its own request, which is published exactly when nobody invalidated meanwhile |
| `GuestIndexObject.GuestIndex.Invalidate` | crates/rust-proxmoxmcp-core/src/resolve.rs:151-156 | bumps the generation and empties the cache |
| `GuestIndexObject.GuestIndex.InvalidateCluster` | crates/rust-proxmoxmcp-core/src/resolve.rs:165-170 | bumps the generation and drops one snapshot |
| `GuestIndexObject.GenerationTellsInvalidations` | crates/rust-proxmoxmcp-core/src/resolve.rs:68-75 | whatever others did, the generation is unchanged exactly when nobody invalidated |
| `GuestIndexObject.StalePublishersDecline` | crates/rust-proxmoxmcp-core/src/resolve.rs:119-133 | fetches that loaded their generation before an invalidation publish nothing after it |
| `HandlerReads.OthersKeepItFresh` | crates/rust-proxmoxmcp-core/src/resolve.rs:119-133 | whatever others do, what is cached of a cluster stays from requests that loaded a later generation than a given one |
| `HandlerReads.EventsAreTheSources` | crates/rust-proxmoxmcp-core/src/resolve.rs:114-140 | what is cached after any events was cached before or published by one of them |
| `HandlerReads.ReadHasASource` | crates/rust-proxmoxmcp-core/src/resolve.rs:101-144 | the guest a resolve answers stands in the cached listing or in its own answer |
| `HandlerReads.ReadsComeAfterTheBump` | crates/rust-proxmoxmcp-core/src/resolve.rs:101-170 | both reads after an invalidation are answered by requests published since or made by this call, in generations after the bump, and by nothing cached before |
| `HandlerReads.FirstReadIsOwnIfAllAway` | crates/rust-proxmoxmcp-core/src/resolve.rs:119-133 | the first read is this call's own if every other request was already away at the bump |
| `HandlerReads.ReadAnew` | crates/rust-proxmoxmcp/src/server/mod.rs:5581-5676 | invalidate, resolve, resolve again: exactly both answers, whoever runs in between, and where they come from |
| `HandlerReads.ReadTwice` | crates/rust-proxmoxmcp/src/server/mod.rs:5347-5399 | two resolves without an invalidation: exactly both answers |
| `GuestIndexObject.InvalidationAsSteps` | crates/rust-proxmoxmcp-core/src/resolve.rs:151-170 | the atomic steps of an uninterrupted invalidation do to the cache what the method does |
| `GuestIndexObject.PublicationAsSteps` | crates/rust-proxmoxmcp-core/src/resolve.rs:114-140 | likewise for the critical section of a resolve, whichever way the comparison goes |
| `LiveRuns.EveryGuestWriteMeetsItsPlan` | crates/rust-proxmoxmcp/src/server/mod.rs:5606-5708 | in every run of handlers, index and cluster together, whenever a guest write is about to go out: the plan call and, after the plan, this call each found the record's own guest by reads after an invalidation of their own, the gate opened for each on that very guest for the recorded operation, and what the cluster had then and has had since this call's bump is the same guest state up to the order of tags and disks |
| `LiveRuns.EveryRestoreFindsItsTargetVacant` | crates/rust-proxmoxmcp/src/server/mod.rs:7119-7226 | whenever a restore is about to go out, at plan and again at apply the target was absent from the listing at a moment after that call's own bump, was in the caller's scope and not pinned, and the recorded owner of the backup, as a listing served during the call and no older than the time to live after its insertion shows it, was in scope and unguarded or overridden for this operation, or gone with a vmid in scope |
| `LiveRuns.EveryRuleWriteMeetsItsPlan` | crates/rust-proxmoxmcp/src/server/mod.rs:6495-6562 | whenever a rule write is about to go out, the rule read by this call is the record's own, although devices of different rules can coincide, and its body is the planned one, an absent rule counting as `null` |
| `LiveRuns.SendsAreBacked` | crates/rust-proxmoxmcp/src/server/mod.rs:5690-5714 | behind every send of any kind stand a true finished reading of the call itself and one its record was planned on, of one text |
| `LiveRuns.RunsOfThePairAreRuns` | crates/rust-proxmoxmcp/src/server/mod.rs:5525-6153 | a run of the pair, seen from the protocol, is a run of the protocol, so all its theorems apply |
| `LiveSafety.StepKeeps` | crates/rust-proxmoxmcp/src/server/mod.rs:5606-5708 | every step of the pair keeps the invariant that ties readings, origins, index and handlers together |
| `LiveSafety.ResolveBeginsAfterTheBump` | crates/rust-proxmoxmcp/src/server/mod.rs:5606-5616 | the call's finished invalidation is the floor its next resolve begins on |
| `LiveSafety.ResolveSawTheCluster` | crates/rust-proxmoxmcp-core/src/resolve.rs:101-144 | what a call's own resolve is served is what the cluster listed at a moment after the call's own bump |
| `LiveSafety.NextStageOk` | crates/rust-proxmoxmcp/src/server/mod.rs:7135-7212 | each read of a guest, a restore or a rule is true of a moment of its own call |
| `LiveSafety.ArgumentsNameTheGuest` | crates/rust-proxmoxmcp/src/server/mod.rs:5565-5569 | arguments that match the record's device name the record's own guest |
| `LiveExamples.SomeWriteGoesOut` | crates/rust-proxmoxmcp/src/server/mod.rs:5606-5960 | for every guest and call whose gate opens, every free target with an admitted owner and every rule there is a run of the pair that plans, approves and brings that write about |
| `Fingerprint.GuestPreimageIdentifies` | crates/rust-proxmoxmcp-core/src/fingerprint.rs:64-102 | two guest states have one text if and only if they agree field by field up to the order of tags and of disks |
| `Fingerprint.GuestText` | crates/rust-proxmoxmcp-core/src/fingerprint.rs:64-102 | sorting copies in place produces that text |
| `Fingerprint.HaRulePreimageIdentifies` | crates/rust-proxmoxmcp-core/src/fingerprint.rs:115-133 | two rule texts are equal if and only if cluster, rule and body agree, an absent body counting as `null` |
| `Fingerprint.RestoreTargetPreimageIdentifies` | crates/rust-proxmoxmcp-core/src/fingerprint.rs:150-164 | two restore-target texts are equal if and only if cluster and vmid agree |
| `Fingerprint.FamiliesAreDisjoint` | crates/rust-proxmoxmcp-core/src/fingerprint.rs:104-164 | guest, rule and restore-target texts are never equal |
| `Json.EncodeIsInjective` | crates/rust-proxmoxmcp-core/src/fingerprint.rs:70-90 | serialized JSON identifies its value |
| `Json.WriteIsSelfDelimiting` | crates/rust-proxmoxmcp-core/src/fingerprint.rs:70-90 | from a text that starts with a value's JSON, both the value and the rest can be recovered |
| `Order.SortForgetsOnlyArrangement` | crates/rust-proxmoxmcp-core/src/fingerprint.rs:64-69 | two lists sort to one if and only if they are permutations of each other, when ties are equal |
| `Order.SortIsStable` | crates/rust-proxmoxmcp/src/server/mod.rs:665-686 | elements the key does not order keep their order |
| `Order.StrLeIsLexicographic` | crates/rust-proxmoxmcp/src/server/mod.rs:678-684 | strings compare at the first character in which they differ |
| `Order.SortInPlace` | crates/rust-proxmoxmcp/src/server/mod.rs:665-686 | sorting the array leaves the stable sort of what it held |
| `Authorization.ProtectedGuestNeedsAnOverride` | crates/rust-proxmoxmcp/src/server/mod.rs:2983-3016 | however the cluster changes between the two reads, a guest protected at the second is disturbed only under lab mode or an unexpired waiver for this cluster, vmid, operation and principal |
| `Authorization.GateOpensExactlyWhen` | crates/rust-proxmoxmcp/src/server/mod.rs:5612-5676 | for every pair of reads the gate opens exactly if the second found a guest some term of the grant names, the grant lists the tier, and the guest is not disturbed, or neither pinned nor tagged as protected, or lab mode or a live waiver for this cluster, vmid, operation and principal holds and the first read did not find it unguarded |
| `Authorization.RefusalsExactlyWhen` | crates/rust-proxmoxmcp-core/src/resolve.rs:201-265 | each refusal of `authorize` has exactly its own cause |
| `Authorization.FirstReadShowsExactlyThroughOverride` | crates/rust-proxmoxmcp/src/server/mod.rs:5608-5660 | exactly when the unscoped first read can be seen in the answer |
| `Authorization.AnswerDependsOnScopeOnly` | crates/rust-proxmoxmcp-core/src/resolve.rs:201-265 | two listings that agree on the guests a grant admits give every vmid and intent the same answer |
| `Authorization.ReadAnswerShowsExactlyScope` | crates/rust-proxmoxmcp-core/src/error.rs:73-77 | a read-tier call is admitted exactly for an existing in-scope guest |
| `Authorization.GateDependsOnScopeOnly` | crates/rust-proxmoxmcp/src/server/mod.rs:5612-5676 | a handler whose two reads see one listing answers from in-scope guests alone |
| `Protection.ProtectedExactlyWhen` | crates/rust-proxmoxmcp-core/src/protect.rs:97-128 | protected exactly by a live tag, a pin, an unknown guest or a failed read |
| `Protection.ProtectionOf` | crates/rust-proxmoxmcp-core/src/protect.rs:97-128 | the loop computes that verdict with its reasons in order |
| `Protection.PushLiveTags` | crates/rust-proxmoxmcp-core/src/protect.rs:97-128 | the tag loop pushes one reason for each protected tag, in tag order |
| `Protection.OverrideMeaning` | crates/rust-proxmoxmcp-core/src/protect.rs:166-196 | a waiver applies exactly to a protected verdict it covers; lab mode exactly to one that none covers |
| `Protection.Matching` | crates/rust-proxmoxmcp-core/src/waiver.rs:220-238 | a covering waiver is found whenever there is one |
| `Protection.CreationNeverClaimsAPin` | crates/rust-proxmoxmcp-core/src/protect.rs:318-320 | creating at a vmid is allowed exactly when no guest there would be pinned |
| `HaRules.GuestsTouched` | crates/rust-proxmoxmcp/src/server/ha_change_set.rs:327-374 | the touched vmids are exactly those named by the request or the stored rule, and one unreadable name refuses the whole change |
| `HaRules.ServiceVmidMeans` | crates/rust-proxmoxmcp-core/src/ha_rules.rs:236-253 | a service id is read exactly as `vm:` or `ct:` and a 32-bit number in digits |
| `HaRules.MemberFieldMeans` | crates/rust-proxmoxmcp/src/server/ha_change_set.rs:332-335 | members stand under `resources`, or under `services` when there is no such field |
| `HaRules.PushArray` | crates/rust-proxmoxmcp/src/server/ha_change_set.rs:342-352 | an array's members are taken exactly when all are strings |
| `HaRules.PushList` | crates/rust-proxmoxmcp/src/server/ha_change_set.rs:336-341 | a comma list's members are its trimmed, non-blank pieces |
| `HaRules.AuthorizeHaRuleGuests` | crates/rust-proxmoxmcp/src/server/mod.rs:1688-1791 | from request and stored rule: passes if and only if the token has the tier, its scope is unrestricted unless the rule is created, the stored members can be read, and every named service is readable and its vmid is absent, in scope and not pinned, or a guest the caller is entitled to destroy, waivers counting under the name of this very operation; a missing tier and a narrowed scope are told before any member is looked at |
| `HaRules.PassesExactlyWhenPermitted` | crates/rust-proxmoxmcp/src/server/mod.rs:1721-1790 | all touched vmids pass exactly when every service named by request or rule does |
| `HaRules.Ascending` | crates/rust-proxmoxmcp/src/server/mod.rs:1734 | the touched vmids are walked once each in ascending order |
| `HaRules.CheckAll` | crates/rust-proxmoxmcp/src/server/mod.rs:1734-1790 | the first refusal in order ends the check and is the answer |
| `HaRules.CheckPassesExactlyWhen` | crates/rust-proxmoxmcp/src/server/mod.rs:1734-1790 | one vmid passes exactly as an admitted creation or through the destructive gate |
| `HaRules.CheckDependsOnScopeOnly` | crates/rust-proxmoxmcp/src/server/mod.rs:1763-1778 | absent and out-of-scope guests get one answer, although different rules refuse them |
| `Grants.NewVmidScopeIsExact` | crates/rust-proxmoxmcp-core/src/grant.rs:93-102 | a new vmid is in scope if and only if the grant admits every guest that could appear there, but for the grant listing both types |
| `Grants.UnrestrictedMeansStar` | crates/rust-proxmoxmcp-core/src/grant.rs:77-79 | a grant that validates is unrestricted exactly when it lists the bare star |
| `Grants.PaddedStarAdmitsNobody` | crates/rust-proxmoxmcp-core/src/grant.rs:53-79 | a padded star lifts the listing filter and admits no guest |
| `Grants.TermMeans` | crates/rust-proxmoxmcp-core/src/selector.rs:92-155 | from the spelling alone: a term admits a guest if and only if it is the star, or `vmid:` with its number or a range of two numbers around it, or `tag:`, `pool:`, `node:` or `type:` with the guest's own; and a new vmid exactly by the star or `vmid:` |
| `Grants.TagTermMeans` | crates/rust-proxmoxmcp-core/src/selector.rs:105-128 | a `tag:` term admits exactly the guests with that very tag |
| `Grants.PoolTermMeans` | crates/rust-proxmoxmcp-core/src/selector.rs:106-129 | a `pool:` term admits exactly the guests of that pool |
| `Grants.VmidTermMeans` | crates/rust-proxmoxmcp-core/src/selector.rs:134-155 | a `vmid:` term admits exactly the number or the inclusive range it spells |
| `Selectors.SelectorsMean` | crates/rust-proxmoxmcp-core/src/grant.rs:93-106 | ranges are inclusive, and a selector speaks for a new vmid exactly if it is no tag, pool, node or type and matches every guest there |
| `Grants.ScopeMeans` | crates/rust-proxmoxmcp-core/src/grant.rs:52-106 | both scope checks are exactly what the terms' spelling says |
| `Grants.UnrestrictedExactlyWhen` | crates/rust-proxmoxmcp-core/src/grant.rs:77-79 | the listing filter is lifted exactly by a star, padded with white space or not |
| `Resources.FetchGuests` | crates/rust-proxmoxmcp-core/src/resolve.rs:279-343 | the loop builds the index of the readable entries, the later of two winning |
| `Resources.ReadersAgree` | crates/rust-proxmoxmcp-core/src/resolve.rs:393-414 | both parsers of an entry accept the same entries with the same facts |
| `Resources.GuestIsIdentified` | crates/rust-proxmoxmcp-core/src/resolve.rs:292-318 | an entry is taken exactly when its fields hold a guest type, a 32-bit vmid and a node |
| `Resources.GuestIsDescribed` | crates/rust-proxmoxmcp-core/src/resolve.rs:319-355 | name and status with their defaults, the pool unless it is empty, and exactly the trimmed, non-blank pieces of the semicolon list as tags |
| `Resources.StarIsShownAll` | crates/rust-proxmoxmcp/src/server/mod.rs:2066-2099 | a grant with the star is shown every entry of the type |
| `Resources.NarrowedListingMatchesIndex` | crates/rust-proxmoxmcp/src/server/mod.rs:2066-2099 | with distinct vmids a narrowed grant is shown an entry if and only if the index holds that guest and admits its facts |
| `Resources.AdmittedGuestIsListed` | crates/rust-proxmoxmcp/src/server/mod.rs:2066-2099 | every admitted guest of the index comes from an entry that is shown |
| `Resources.FilterKeepsExactlyListed` | crates/rust-proxmoxmcp/src/server/mod.rs:2066-2099 | the filter keeps those entries with their multiplicity and no others |
| `Resources.RepeatedVmidDiverges` | crates/rust-proxmoxmcp-core/src/resolve.rs:279-343 | a shown entry that a later, different guest with its vmid replaces is one the filter and the index disagree about |
| `Resources.FilterAndIndexAgreeExactlyWhen` | crates/rust-proxmoxmcp/src/server/mod.rs:2066-2099 | for every listing and narrowed grant, filter and index agree about an entry if and only if it is not shown or the last readable entry with its vmid is the same guest |
| `Resources.IndexHoldsTheLast` | crates/rust-proxmoxmcp-core/src/resolve.rs:279-343 | the index holds the last readable entry of each vmid |
| `Paging.WalkShowsEverythingOnce` | crates/rust-proxmoxmcp/src/server/mod.rs:695-718 | pages taken in steps of the limit until none remains concatenate to the whole sorted listing, a permutation of the records |
| `Paging.WalkIsWhatTheServerAnswers` | crates/rust-proxmoxmcp/src/server/mod.rs:695-718 | page k is the answer to offset k times the limit, and only the last says it is the last |
| `Paging.PageMeans` | crates/rust-proxmoxmcp/src/server/mod.rs:695-718 | a page tells the number of all records and has exactly as many as its window holds |
| `Paging.PagesAscend` | crates/rust-proxmoxmcp/src/server/mod.rs:665-674 | guests are shown by ascending vmid, records without one last |
| `Paging.VolumePagesAscend` | crates/rust-proxmoxmcp/src/server/mod.rs:675-686 | volumes are shown in lexicographic order of their ids |
| `Paging.PageCountIsCeiling` | crates/rust-proxmoxmcp/src/server/mod.rs:695-718 | the number of pages is the ceiling of total over limit, and one for an empty listing |
| `Paging.PagesIgnoreUpstreamOrder` | crates/rust-proxmoxmcp/src/server/mod.rs:665-718 | with distinct keys the pages do not depend on the order the cluster answered in |
| `Paging.PaginateCopy` | crates/rust-proxmoxmcp/src/server/mod.rs:695-718 | copying, sorting in place and slicing computes the page |
| `Paging.SortForPagingInPlace` | crates/rust-proxmoxmcp/src/server/mod.rs:665-686 | the first record decides which key the array is sorted by |
| `Paging.ResolvePage` | crates/rust-proxmoxmcp/src/server/mod.rs:618-632 | an unusable limit is refused, never clamped; without one the limit is 500, and the offset 0 |
| `FormEncoding.FormRoundTrips` | crates/rust-proxmoxmcp-core/src/client.rs:242-246 | parsing a body per section 5.1 of the WHATWG URL Standard gives back every list of pairs, repeated names and empty values included |
| `FormEncoding.SegmentRoundTrips` | crates/rust-proxmoxmcp-core/src/client.rs:328-339 | percent-encoding is undone by decoding, leaves only letters, digits, `-`, `.`, `_`, `~` and `%`, and leaves those but `%` alone |
| `FormEncoding.EscapesAreCapital` | crates/rust-proxmoxmcp-core/src/client.rs:328-339 | what is escaped is a percent sign and two capital hexadecimal digits |
| `FormEncoding.RequestUrl` | crates/rust-proxmoxmcp-core/src/client.rs:108-128 | the query of a request URL parses back to the given pairs and leaves the path alone |
| `VolumeScan.ContainsVolumeReference` | crates/rust-proxmoxmcp/src/server/mod.rs:1014-1027 | the scanner answers true if and only if some position holds `vm-` or `base-`, one or more digits, then `-` |
| `VolumeScan.Scan` | crates/rust-proxmoxmcp/src/server/mod.rs:1014-1027 | the loop finds a reference of one prefix exactly when there is one |
| `VolumeScan.DiskValueIsNewAllocation` | crates/rust-proxmoxmcp/src/server/mod.rs:1042-1064 | accepted exactly when the value reads as storage, size and options, imports nothing and names no volume |
| `VolumeScan.CheckFields` | crates/rust-proxmoxmcp/src/server/mod.rs:1042-1064 | the option loop refuses exactly a bad size or an importing option |
| `VolumeScan.ForeignVolumes` | crates/rust-proxmoxmcp/src/server/mod.rs:2907-2932 | a config passes the disk clause exactly when every value under a disk key is an allowed media form or a new allocation, and the keys reported are exactly those with a refused value |
| `VolumeScan.DiskKeyMeans` | crates/rust-proxmoxmcp/src/server/mod.rs:982-995 | a disk key is `rootfs`, `efidisk0`, `tpmstate0`, or one of the four buses and a number |
| `VolumeScan.MediaMeans` | crates/rust-proxmoxmcp/src/server/mod.rs:1075-1092 | an allowed media form is the empty drive, a storage's cloud-init drive, or an image attached read-only |
| `VolumeScan.ImportsExactlyWhen` | crates/rust-proxmoxmcp/src/server/mod.rs:1052-1062 | an option imports exactly if its name is `import-from` or `file` but for case and padding |
| `VolumeScan.ReadingDecides` | crates/rust-proxmoxmcp/src/server/mod.rs:1042-1064 | a value has one reading as an allocation, and it decides |
| `VolumeScan.ValidVolidShape` | crates/rust-proxmoxmcp-core/src/guests.rs:510-557 | an accepted volid has exactly the shape storage, kind, name |
| `VolumeScan.ADotPassesAsASize` | crates/rust-proxmoxmcp/src/server/mod.rs:1042-1064 | a size that is no number passes |
| `Resize.GrowsExactlyForPositiveDeltas` | crates/rust-proxmoxmcp-core/src/guests.rs:838-880 | a resize passes if and only if it reads as `+` and an amount that denotes more than zero bytes |
| `Resize.BytesIsPositive` | crates/rust-proxmoxmcp-core/src/guests.rs:858-880 | an amount denotes more than zero bytes exactly when some digit is not zero |

## Left out

- HTTP, TLS, timeouts, the async runtime, reload, CLI, token store and logging: the network is modelled by its possible answers, and a call may be cut off between any two steps.
- `mecmcp_*` internals: the coordinator's store format and plan digests, the evidence chain's hashing, redaction, token checks. The contracts used are listed above.
- Preview texts: a record has a preview or has none; that the approved digest covers the text is the coordinator's promise.
- Error wording, except that absent and out-of-scope guests share one answer and a backup's owner has a refusal text for each.
- Tool names, the read catalogue and tier tables: finite data.
- The other clauses of `reject_unsafe_config` (allowed keys, `unprivileged`, `ostemplate`, host paths), per-operation required fields and `migrate_precondition`: each is a short list of independent cases; their joint verdict is an input of the handlers.
- `resolve_backup_owner`: how a backup's owner is read off the storage; which vmid it is, is an input, and an apply goes on only for the recorded one.
- `parse_size_bytes`: floating point; disk sizes are given integers.
- Lock poisoning in the guest index: every lock is taken successfully.
- Wrap-around of the 64-bit generation counter: an unbounded number.
- The SHA-256 step of the fingerprints, see the assumption above.
- Approval by one human holding two tokens: principals are token names.
- `sort_by_key` and `sort` of the standard library are modelled by an insertion sort with the same (stable) result.
- LiveRuns.EveryGuestWriteMeetsItsPlan: the resource fields and the configuration are two reads, so the guest is the planned one at one moment for the former and at another for the latter; both lie between the call's own bump and now.
- LiveRuns.EveryRuleWriteMeetsItsPlan: the check of the guests a rule names (`HaRules`) and the plan's refusal to create an existing or change a missing rule are not steps of this machine, so it allows more runs than the code.
- LiveRuns.EveryRestoreFindsItsTargetVacant: the target can be taken between the vacancy check and the write; the code relies on the cluster's own refusal (`force=0`).
- ApplyHandler.Server.ApplyChangeSet: the answers of the cluster, the configuration and the verdict of the operation's own checks are inputs; that the answers are true of moments after the bump is what `LiveRuns` adds. The restore and HA-rule applies are steps of the machines and have no program of their own.
- HaRules.AuthorizeHaRuleGuests: what the two reads of each vmid answer is an input.
- Paging.WalkShowsEverythingOnce: listings hold fewer than 2^32 records, because an offset is a `u32`.
