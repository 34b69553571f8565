# Crash-safe host updater transactions, modelled and proved in Dafny

The updater changes a host in steps. Each step is saved before the next one, any step may
fail or be cut off, and a later request has to settle what was left. This project models
those transactions and proves what every run keeps.

`dafny verify dfyconfig.toml` checks the whole project.

## How failures are modelled

- A durable write may succeed, fail without effect, or fail after taking effect.
- The process may crash after any effect. A method that can crash returns `Run<T>`, which is
  `Finished(value)` or `Crashed`. A property that holds on every return, `Crashed` included,
  holds at every crash point.
- Calls into the host are nondeterministic but honest: a success is truthful, a failure says
  nothing. Only the modelled program changes the host.
- SHA-256 is modelled as injective.
- Safety over whole runs is stated on a log of events (`trace`), without naming the code. The
  code is then proved to extend the log safely.
- 64-bit integers are modelled explicitly where the source compares or increments them.

## Modules

| module | subject |
|---|---|
| `PortEnv`, `VersionEnv`, `Text` | the two env-file formats and the string operations under them |
| `PortLedger`, `PortProtocol`, `PortRecords`, `PortExecutor` | the Docker port transaction: records, safety, revisions along the log, step-by-step execution |
| `PortCutStage` | the run in which a Stage cut between its two writes spoils a later job's record |
| `SoftwareLedger`, `SoftwareExecutor` | the software mutation ledger, the grant gate, the Docker and systemd applies |
| `Sidecars`, `Configure` | the configure transaction: path exchange, three-part install, reverse rollback |
| `Slots` | the A/B slot upgrade and its recovery |
| `ListenerStore` | the listener generation store shared by several processes |
| `PortMapping` | the published-port checks |
| `Claims`, `PolicyCandidates` | agent-side recovery of jobs and policies |

`PortProtocol.Held`, `PortRecords.Kept`, `PortRecords.Counted`, `SoftwareLedger.Held` and
`SoftwareLedger.SafeHeld` are invariants in folded form: equivalent to the plain ones (`HeldIsInv`,
`KeptIsWithin`, `CountedIsExact`, `SafeHeldIsSafe`), but not unfolded by proofs that only pass them along.

The file store of the port transaction stages a job in two writes, ledger then active pointer.
A Stage is cut if the second one never took effect (`NeverActive`). `StagesComplete` says that no
Stage of the log was cut; it always holds for the memory store (`atomicStage`). The claims about
revisions are for runs in which every request resolves under one policy and target (`scope`).

## Model

| member | source | states |
|---|---|---|
| `PortEnv.ParseIsExactInverse` | internal/hostruntime/docker_port_policy.go:83-141 | The port env parser accepts a text with a mapping if and only if the text is the canonical printing of that mapping; so it returns exactly the printed ports and revision and accepts nothing else. |
| `PortEnv.PrintIsInjective` | internal/hostruntime/docker_port_policy.go:56-76 | Two mappings with the same printed file are the same mapping. |
| `PortLedger.KnownResultIsValid` | internal/hostruntime/docker_port_commit.go:15-81 | Every result a commit builds, and the applied record beside it, passes its own validation; for an applied result this needs a target revision that did not wrap around. A result for the old side carries a later endpoint revision than the target's. |
| `PortLedger.CommitResolves` | internal/hostruntime/docker_port_reconfigure.go:255-295 | The applied record of any commit is accepted by the resolver under the same policy as an overlay, never as regressing or reusing; it resolves to the result's port, revisions and digests, with a strictly larger endpoint revision than before. |
| `PortProtocol.WriteAheadAppend` | internal/hostruntime/docker_port_execution.go:103-153 | The write-ahead discipline survives an event whose precondition is in the log: forward grant after `grant_consuming`, write after the grant and `grant_consumed`, recreate toward the new ports after `env_written`, applied record after its committing ledger, reply after its terminal ledger. |
| `PortProtocol.KnownResultIsTrue` | internal/hostruntime/docker_port_commit.go:19-64 | A known result built for the side the host is on carries the digest of the actual mapping file and the ports of the actual container. |
| `PortProtocol.KnownResultsTrueAppend` | internal/hostruntime/docker_port_staging.go:111-142 | Recording a known result keeps the rule that the host was on the side it names when it first became durable. |
| `PortProtocol.SafeAppend` | internal/hostruntime/docker_port_execution.go:87-171 | An admissible event keeps the whole safety of the log: at most one forward grant and one write per job, write-ahead, no return to staged, reconcile only recreates toward the old ports, stable results, true results. |
| `PortProtocol.WriteKeepsInv` | internal/hostruntime/docker_port_execution.go:126-131 | Calling the write from a durable `grant_consumed` with no earlier write keeps the invariant. |
| `PortProtocol.GrantKeepsInv` | internal/hostruntime/docker_port_execution.go:104-116 | Using the forward grant from a durable `grant_consuming` with no earlier grant keeps the invariant. |
| `PortProtocol.RecreateKeepsInv` | internal/hostruntime/docker_port_execution.go:149-152 | Recreating toward the new ports only from a durable `env_written` in a forward request, and toward the old ports from anywhere, keeps the invariant. |
| `PortProtocol.AppliedKeepsInv` | internal/hostruntime/docker_port_commit.go:90-94 | For both stores, writing the applied record that a durable committing ledger repeats keeps the invariant: the record of a settled active job equals its result, or was overwritten by a job whose Stage was cut. |
| `PortProtocol.SaveKeepsInv` | internal/hostruntime/docker_port_state_models.go:75-89 | A save that continues its transaction keeps the invariant: results stay, staged never returns, the mapping file stays on one of the active ledger's two sides, and an open ledger is the active one exactly if its Stage was completed. |
| `PortProtocol.StageKeepsInv` | internal/hostruntime/docker_port_state_models.go:54-73 | Staging a job while no other holds the target keeps the invariant for both stores, and leaves the log without a cut Stage if it had none. |
| `PortProtocol.StageWriteKeepsInv` | internal/hostruntime/docker_port_state.go:103-114 | Between the two writes of the file store's Stage the invariant holds: the active pointer still names an existing ledger, and the new open ledger is recorded as never active. |
| `PortProtocol.OrphanLedger` | internal/hostruntime/docker_port_state.go:87-115 | Whenever two jobs could be staged from one state, a crash between the file store's two writes lets both become open, so a log with a cut Stage can have two open ledgers. |
| `PortProtocol.OpenIsActiveUnlessCut` | internal/hostruntime/docker_port_state.go:87-132 | In every reachable state of either store an open ledger is the active one if and only if its own Stage reached its second write. |
| `PortProtocol.CompleteIsAtomic` | internal/hostruntime/docker_port_state.go:87-115 | In every reachable state of either store whose log has no cut Stage: at most one ledger is open, it is the active one, it brackets the mapping file, and a settled active job has its own applied record. |
| `PortProtocol.RecordDiffersExactly` | internal/hostruntime/docker_port_recovery.go:54-83 | The applied record differs from a settled active job's result if and only if another job, whose Stage was cut, wrote the standing record after the first one had settled, with different content. |
| `PortProtocol.OnlyCutJobsOverwrite` | internal/hostruntime/docker_port_recovery.go:7-84 | What a writer can check beforehand: with a settled active job, any job allowed to write a record was never active, and it spoils the active job's record exactly if its own record differs. |
| `PortCutStage.CutStageOverwrites` | internal/hostruntime/docker_port_recovery.go:54-83 | For any two jobs with passing fences on one host: the first is cut in Stage and stopped while committing, the second settles and stays active, and the repair of the first replaces its record by one with a smaller endpoint revision. Every step meets its guard and every state its invariant. |
| `PortCutStage.CutStageExample` | internal/hostruntime/docker_port_state.go:103-114 | Such two jobs exist: a concrete policy, host and pair of plans. |
| `PortRecords.CommitMayRecord` | internal/hostruntime/docker_port_commit.go:15-81 | A result committed past the fences is accepted by the resolver as an overlay and is newer than what stands. |
| `PortRecords.AppliedFallsOnlyByCut` | internal/hostruntime/docker_port_commit.go:82-108 | A record that is older than the one it replaces was written by a job whose Stage was cut; for both stores. |
| `PortRecords.AppliedRises` | internal/hostruntime/docker_port_commit.go:82-108 | Where at most the active job is open, the next record is the standing one or has a strictly newer endpoint revision than every earlier one. |
| `PortRecords.AppliedKeepsWithin` | internal/hostruntime/docker_port_commit.go:82-108 | Writing a record keeps the invariant of a run under one policy: every record of the log is an accepted overlay, falls only by a cut Stage, and without one they strictly rise. |
| `PortRecords.SaveKeepsWithin` | internal/hostruntime/docker_port_state_models.go:75-89 | Saving a ledger keeps the same invariant, also for a committing ledger whose record is not yet written. |
| `PortRecords.StandingResolves` | internal/hostruntime/docker_port_reconfigure.go:255-295 | At every point of a run under one policy the standing record resolves, to its own endpoint revision, port and digest. |
| `PortProtocol.ReplyKeepsInv` | internal/hostruntime/docker_port_execution.go:44-52 | Replying with the result of the durable terminal ledger keeps the invariant, so every reply of a job carries the one recorded result. |
| `PortExecutor.ObservedSide` | internal/hostruntime/docker_port_staging.go:111-142 | An honest observation that matches a side proves that the mapping file bytes and the running container's ports are exactly that side. |
| `PortExecutor.BoundCommits` | internal/hostruntime/docker_port_execution.go:298-311 | Once the policy fences passed, any known outcome of the request can be committed so that the resolver accepts it. |
| `PortExecutor.CommitIsReady` | internal/hostruntime/docker_port_commit.go:15-81 | A ledger standing on the side of a committable outcome may record it: the committing ledger is valid, continues its job, and its record resolves. |
| `PortProtocol.StagedIsUnused` | internal/hostruntime/docker_port_execution.go:97-108 | While a job's durable ledger is staged, no forward grant was used and no write called for it. |
| `PortExecutor.PortExecutor.StageLedger` | internal/hostruntime/docker_port_staging.go:9-53 | A created ledger is valid and staged, holds the canonical printings of both mappings, and the host is on its old side. |
| `PortExecutor.PortExecutor.StageNew` | internal/hostruntime/docker_port_execution.go:87-96 | A staged job is durable, is the in-memory ledger, and found the host on its old side; a refusal leaves the invariant. |
| `PortExecutor.PortExecutor.Save` | internal/hostruntime/docker_port_state.go:117-132 | A save takes effect or not, a reported success did, and the invariant holds in every case. |
| `PortExecutor.PortExecutor.Stage` | internal/hostruntime/docker_port_state.go:87-115 | Staging leaves nothing, the ledger alone (file store only), or ledger and pointer; the invariant holds at each point. |
| `PortExecutor.PortExecutor.Authorize` | internal/hostruntime/docker_port_execution.go:103-125 | Only with a durable `grant_consumed` behind a consumed forward grant does the request get permission to write. |
| `PortExecutor.PortExecutor.Mutate` | internal/hostruntime/docker_port_execution.go:126-140 | From the durable grant on, every crash point and return keeps the invariant, and an answer is the durable terminal result. |
| `PortExecutor.PortExecutor.RecreateNew` | internal/hostruntime/docker_port_execution.go:141-161 | Recreating toward the new ports starts from a durable `env_written` and keeps the invariant at every crash point. |
| `PortExecutor.PortExecutor.CommitResult` | internal/hostruntime/docker_port_commit.go:8-109 | An answered commit is durable and terminal, carries the known result of its kind, and leaves the matching applied record, which the resolver accepts; with reliable storage it always answers. |
| `PortExecutor.PortExecutor.RollbackRequest` | internal/hostruntime/docker_port_recovery.go:86-126 | A rollback keeps the invariant at every crash point, and with reliable storage it ends in a durable terminal result whatever the runtime calls return. |
| `PortExecutor.PortExecutor.RollbackFailedResult` | internal/hostruntime/docker_port_commit.go:111-132 | The answer is exactly the unknown result of the plan, durable and terminal; there is no applied record and no host call, and with reliable storage it always answers. |
| `PortExecutor.PortExecutor.ReconcileMissing` | internal/hostruntime/docker_port_recovery.go:138-165 | Reconcile of an unknown job settles it as unchanged, with no write, restore or recreate in the log and the invariant at every crash point. |
| `PortExecutor.PortExecutor.ReconcileOpen` | internal/hostruntime/docker_port_recovery.go:166-184 | Reconcile of any open ledger keeps the invariant, and with reliable storage always ends in a durable terminal result. |
| `PortExecutor.PortExecutor.RepairCommit` | internal/hostruntime/docker_port_recovery.go:7-84 | Repairing a commit answers only with the result the committing ledger already recorded, leaves the applied record equal to it, which the resolver accepts under the run's policy, and makes no host call. |
| `PortExecutor.PortExecutor.RecordRepair` | internal/hostruntime/docker_port_recovery.go:54-83 | The recorded result becomes the applied record and then the terminal ledger, in that order, with the invariant at every crash point. |
| `PortExecutor.PortExecutor.Execute` | internal/hostruntime/docker_port_execution.go:19-172 | Every request keeps the invariant at every crash point; an answer is the durable terminal result of its job; with reliable storage and passing fences one reconcile takes every open, not committing ledger to a terminal result. |
| `PortExecutor.PortExecutor.Serve` | internal/hostruntime/docker_port_execution.go:19-172 | Over any run of requests with crashes anywhere, for both stores: the log is safe, the active pointer never dangles, an open ledger is active exactly unless its Stage was cut, and a settled active job's record differs only by such a job. Without a cut Stage at most one ledger is open, it brackets the mapping file, and a settled active job's applied record equals its result. Under one policy every applied record is accepted, revisions fall only by a cut Stage, and without one they strictly rise. |
| `PortExecutor.RunIsSound` | internal/hostruntime/docker_port_execution.go:19-172 | The step-by-step invariant implies all of these claims about the state and the log. |
| `VersionEnv.PinText` | internal/hostruntime/docker_release_identity.go:34-37 | An accepted pin is exactly version, at sign and digest, and made of pin characters only. |
| `VersionEnv.PinOfParts` | internal/hostruntime/docker_release_identity.go:69-73 | Every version and digest of the right form make an accepted pin that reads back as those two parts. |
| `VersionEnv.FindAssignment` | internal/hostruntime/docker_release_identity.go:58-68 | The loop succeeds exactly when every assignment before the last is empty, and returns the last value. |
| `VersionEnv.ParseVersionEnvPin` | internal/hostruntime/docker_release_identity.go:58-74 | The parser returns the pin of the last assignment if it is one and all earlier assignments are empty, and fails otherwise. |
| `VersionEnv.RewriteAssignments` | internal/hostruntime/docker_release_identity.go:38-45 | The loop counts the assignments and rewrites exactly those lines in place. |
| `VersionEnv.UpdateVersionEnv` | internal/hostruntime/docker_release_identity.go:33-56 | The update succeeds exactly for the fixed name, a well-formed pin and at most one existing assignment, and returns the specified file. |
| `VersionEnv.UpdateThenParse` | internal/hostruntime/docker_release_identity.go:33-74 | On every original the update accepts, parsing the result returns the pin just written, and the file then has exactly one assignment. |
| `VersionEnv.UpdateKeepsOtherLines` | internal/hostruntime/docker_release_identity.go:38-55 | All other lines are kept in order up to blank lines at the end of the file; without carriage returns these are the raw lines of the original. |
| `VersionEnv.NormalizeLines` | internal/hostruntime/docker_release_identity.go:38 | Newline normalization removes at most one carriage return from the end of each line and nothing else. |
| `SoftwareLedger.SafeAppend` | internal/hostruntime/executor_mutation_dispatch.go:59-96 | An admissible event keeps the safety of the log: successive stagings name different jobs, so a staging is one tenure of a job; per tenure at most one apply grant and one live apply, a lease that never falls, and nothing after terminal; touches only behind a grant and a durable `mutating`; true "not applied" answers. |
| `SoftwareLedger.StageKeepsInv` | internal/hostruntime/executor_stage_request.go:32-49 | A staging over an absent or terminal ledger opens a fresh, untouched staging. |
| `SoftwareLedger.SaveKeepsInv` | internal/hostruntime/executor_mutation_dispatch.go:74-94 | A save that continues the ledger keeps the invariant. |
| `SoftwareLedger.TouchKeepsInv` | internal/hostruntime/executor_mutation_dispatch.go:91-108 | Touching the live target behind its fence keeps the invariant and the permission. |
| `SoftwareLedger.StagedMeansNotApplied` | internal/hostruntime/executor_mutation_dispatch.go:48-57 | While the durable state is staged, nothing of this staging was granted, started or touched, and the live target is what it was when the staging became durable. |
| `SoftwareExecutor.SoftwareExecutor.Gate` | internal/hostruntime/executor_mutation_dispatch.go:66-96 | A second call is refused and changes nothing; the gate never changes the live target, and a success means a consumed grant and a durable `mutating` record. |
| `SoftwareExecutor.SoftwareExecutor.Authorize` | internal/hostruntime/executor_mutation_dispatch.go:75-95 | A success means the fence, the consumed grant and the `mutating` record are durable in that order; the live target is untouched in every case. |
| `SoftwareExecutor.SoftwareExecutor.ApplyDocker` | internal/hostruntime/docker_release_apply.go:120-345 | At every crash point an env file that differs from the original is covered by a checkpoint with the original bytes, mode and existence; success means the new pin, which parses back, the new image and a durable succeeded phase; otherwise, if the restore succeeded, the original env file, absence included. |
| `SoftwareExecutor.SoftwareExecutor.InstallDocker` | internal/hostruntime/docker_release_apply.go:214-232 | The checkpoint precedes the env write, and the deferred restore leaves the original or a covering checkpoint. |
| `SoftwareExecutor.SoftwareExecutor.ChangeDocker` | internal/hostruntime/docker_release_apply.go:227-300 | Committed exactly on success, with pin, image and succeeded phase in place; the checkpoint keeps the original throughout. |
| `SoftwareExecutor.SoftwareExecutor.RollbackDocker` | internal/hostruntime/docker_release_apply.go:301-344 | A reported rollback runs the previous image under a durable rolled-back phase. |
| `SoftwareExecutor.SoftwareExecutor.ApplySystemd` | internal/hostruntime/executor_systemd_staging.go:102-181 | At every crash point a current link that differs from the original is covered by a checkpoint naming the original release; success means the new release, rolled back means the original one. |
| `SoftwareExecutor.SoftwareExecutor.CommitSystemd` | internal/hostruntime/executor_systemd_staging.go:238-259 | As soon as the live target was touched, a checkpoint naming the original release is durable, and it stays while the link differs. |
| `SoftwareExecutor.SoftwareExecutor.SwitchSystemd` | internal/hostruntime/executor_systemd_staging.go:256-288 | The link is switched behind a durable `stopped` checkpoint, and each verdict names where the link is. |
| `SoftwareExecutor.SoftwareExecutor.RollbackSystemd` | internal/hostruntime/systemd_release_state.go:55-74 | A successful rollback leaves the link at the previous release under a durable rolled-back phase. |
| `SoftwareExecutor.SoftwareExecutor.StageRequest` | internal/hostruntime/executor_stage_request.go:13-53 | A ledger of the same job or an unsettled one is never replaced. |
| `SoftwareExecutor.SoftwareExecutor.AnswerNotApplied` | internal/hostruntime/executor_mutation_dispatch.go:48-57 | The "not applied" answer is durable and true: the live target is untouched since staging. |
| `SoftwareExecutor.SoftwareExecutor.Mutation` | internal/hostruntime/executor_mutation_dispatch.go:11-157 | Every apply or reconcile keeps the invariant at every crash point, and a result is only returned from a durable terminal ledger of its job. |
| `SoftwareExecutor.SoftwareExecutor.Serve` | internal/hostruntime/executor_mutation_dispatch.go:11-157 | Over any run of stage, apply and reconcile requests with crashes anywhere the log is safe, and a durable staged state means an untouched target. |
| `Sidecars.Sidecars.TryExchange` | internal/hostruntime/host_agent_configure_sidecar_replacement.go:81-108 | Whatever the exchange reported, the classification is true of the disk, and the original inode is at one of the two paths. |
| `Sidecars.Sidecars.ExchangeReplacement` | internal/hostruntime/host_agent_configure_sidecar_replacement.go:71-143 | Success means swapped; every other return keeps the original inode and true flags. |
| `Sidecars.Sidecars.RollbackReplacement` | internal/hostruntime/host_agent_configure_sidecar_rollback.go:28-98 | Success means unswapped; a wrong report never loses the original inode or leaves a false flag. |
| `Sidecars.Sidecars.RollbackCreated` | internal/hostruntime/host_agent_configure_sidecar_rollback.go:100-154 | Only recorded sidecars are removed, and success means none of the planned ones is still recorded. |
| `Sidecars.Sidecars.Commit` | internal/hostruntime/host_agent_configure_sidecar_commit.go:112-281 | Success means committed with every sidecar in its new form; a committed set refuses without any change. |
| `Sidecars.Sidecars.Finalize` | internal/hostruntime/host_agent_configure_sidecar_rollback.go:188-219 | The backup is unlinked only by a committed set whose pair is swapped. |
| `Sidecars.Sidecars.Abort` | internal/hostruntime/host_agent_configure_sidecar_rollback.go:221-248 | Abort never removes the original inode. |
| `Sidecars.Sidecars.Drive` | internal/hostruntime/host_agent_configure_sidecar_rollback.go:13-248 | For any sequence of commit, rollback, finalize and abort the original inode is at the destination or the backup path until a committed Finalize; not replaced implies unswapped, replaced and not ambiguous implies swapped. |
| `Configure.Configuration.CommitPolicy` | internal/hostruntime/host_agent_configure_policy_transaction.go:84-178 | The policy counts as committed unless it is provably not installed. |
| `Configure.Configuration.RollbackPolicy` | internal/hostruntime/host_agent_configure_policy_transaction.go:180-227 | A policy that is no longer committed is no longer on disk. |
| `Configure.Configuration.CommitIdentity` | internal/hostruntime/updater_config_file.go:164-255 | An identity that is not committed is not on disk. |
| `Configure.Configuration.Undo` | internal/hostruntime/host_agent_configure_transaction.go:147-160 | The sidecars are rolled back only when the policy is gone. |
| `Configure.Configuration.Commit` | internal/hostruntime/host_agent_configure_transaction.go:121-211 | At every crash point and return a new identity implies a new policy and a new policy implies sidecars in their new form; success means all three. |
| `Configure.Configuration.Drive` | internal/hostruntime/host_agent_configure_transaction.go:121-211 | The same over any number of attempts, together with the kept original sidecar. |
| `Slots.ReconcileSafe` | internal/hostruntime/host_self_update_state.go:412-514 | Each reconcile step agrees with the current link before and after its switch, and commits only with heartbeat and probe of exactly the pending generation on the pending slot. |
| `Slots.HostSlots.Upgrade` | internal/hostruntime/host_manual_upgrade_linux.go:390-524 | At every crash point a persisted stable state names the current slot, and the healthy slot's directory is untouched; success leaves the other slot active and committed, a completed rollback leaves the healthy slot current and stable with its versions and the generation marked failed. |
| `Slots.HostSlots.AbortBeforeFence` | internal/hostruntime/host_manual_upgrade_bootstrap_linux.go:241-279 | Before the fence only the candidate directory and a freshly bootstrapped state can change. |
| `Slots.HostSlots.Activate` | internal/hostruntime/host_manual_upgrade_activation_linux.go:14-113 | The link moves only behind the persisted activation fence, and every failure after the fence ends in a rollback. |
| `Slots.HostSlots.RollbackUpgrade` | internal/hostruntime/host_manual_upgrade_activation_linux.go:115-166 | A successful rollback leaves the healthy slot current under the cleared stable state. |
| `Slots.HostSlots.ActivateByExecutor` | internal/hostruntime/host_self_update_activation.go:40-87 | The executor's activation keeps state and link in agreement at every crash point. |
| `Slots.HostSlots.ReconcileByExecutor` | internal/hostruntime/host_self_update_activation.go:89-234 | The executor's reconcile keeps state and link in agreement at every crash point, for any proof it is given. |
| `Slots.HostSlots.Drive` | internal/hostruntime/host_self_update_activation.go:89-234 | Over any run of manual upgrades, executor updates and reconciles with crashes anywhere, a persisted stable state names the current slot, and a generation that failed is not tried again until another one has failed. |
| `ListenerStore.NextKeepsFiles` | internal/hostruntime/docker_node_listener_materialization.go:282-297 | No step changes a published file, and the one step that publishes adds a complete file under its own digest within the bound. |
| `ListenerStore.NextInside` | internal/hostruntime/docker_node_listener_materialization.go:245-305 | The lock holder keeps the lock until it leaves and re-establishes what its next step relies on. |
| `ListenerStore.NextIsSafe` | internal/hostruntime/docker_node_listener_materialization.go:210-305 | Every step of every process, crashes included, keeps the invariant and every published file. |
| `ListenerStore.RunsAreSafe` | internal/hostruntime/docker_node_listener_materialization.go:210-305 | Over every interleaving of every number of processes with crashes anywhere nothing published is lost or overwritten. |
| `ListenerStore.FreshRunsAreSafe` | internal/hostruntime/docker_node_listener_materialization.go:97-99 | From an empty directory every published generation is complete and matches the digest in its name, and there are never more than 256. |
| `PortMapping.PortNumberIsCanonical` | internal/hostruntime/docker_port_mapping.go:147-165 | A port number is accepted exactly when it is the canonical printing of a number from 1 to 65535. |
| `PortMapping.CollidesWith` | internal/hostruntime/docker_port_mapping.go:105-111 | The inner loop finds a collision exactly when there is one. |
| `PortMapping.ScanService` | internal/hostruntime/docker_port_mapping.go:85-128 | Scanning one service either extends the collision-free list of all visited entries or proves the project unacceptable. |
| `PortMapping.ValidateComposePorts` | internal/hostruntime/docker_port_mapping.go:48-145 | For every iteration order the outcome is the same order-free specification; acceptance means every entry decodes and no two published mappings in the project collide. |
| `PortMapping.CheckBinding` | internal/hostruntime/docker_port_mapping.go:297-322 | A binding passes exactly when it is some mapping (managed container) or collides with none (others), and exactly the served mappings are marked. |
| `PortMapping.CheckOwner` | internal/hostruntime/docker_port_mapping.go:276-325 | A container passes exactly when all its bindings do, in any endpoint order, and exactly the mappings it serves are marked. |
| `PortMapping.CheckOwners` | internal/hostruntime/docker_port_mapping.go:250-257 | The container list passes exactly when all identifiers are well formed and distinct. |
| `PortMapping.PreflightOwnership` | internal/hostruntime/docker_port_mapping.go:221-336 | The preflight accepts exactly when the list is usable, no foreign binding collides with a mapping, every binding of the managed container is some mapping, and every mapping is bound by it. |
| `Claims.ChainKeepsIntent` | internal/hostruntime/host_pull_claim_validation.go:126-189 | Along any chain of accepted recoveries identity and intent equal the first claim, the lease generation is the first one plus the number of command changes, within 64 bits, and from the largest generation on the command is final. |
| `Claims.SameGenerationSameCommand` | internal/hostruntime/host_pull_claim_validation.go:178-180 | Anywhere along a chain, the same generation means the same command and expiry. |
| `Claims.Agent.SetActive` | internal/hostruntime/journal.go:220-292 | The active job is replaced only by the same job and operation; a contract 2 port job only with the same intent, a software job only so or by the matching plan of a cursor from before frozen authorizations. |
| `Claims.Agent.ClearActive` | internal/hostruntime/host_pull_execution.go:185-211 | Only a terminal proof for the active job itself clears it. |
| `Claims.Agent.Admit` | internal/hostruntime/host_pull_execution.go:223-252 | While a job is active, a claim is processed only if it is that job's own recovery with the same intent. |
| `Claims.Agent.Poll` | internal/hostruntime/host_pull_execution.go:120-253 | Over any polls with crashes anywhere, between two clears only one job is processed, with one intent and a lease that never falls. |
| `PolicyCandidates.RewriteIsNotUndone` | internal/hostruntime/agent_port_policy.go:174-178 | Rewriting a URL without explicit port to another port and back does not restore the endpoint. |
| `PolicyCandidates.BuildCandidate` | internal/hostruntime/agent_port_policy.go:105-162 | The loop returns the specified candidate of the first matching target, or fails. |
| `PolicyCandidates.CandidateDiffersOnce` | internal/hostruntime/agent_port_policy.go:105-162 | A candidate differs from its policy only in the header and the selected target. |
| `PolicyCandidates.DerivedCandidates` | internal/hostruntime/agent_port_policy.go:194-207 | All three candidates differ from the staged policy only there; before keeps the staged endpoint, and rollback's endpoint equals before's if and only if their ports agree. |
| `PolicyCandidates.PolicyJournal.StagePolicy` | internal/hostruntime/agent_port_policy.go:181-213 | Candidates are staged once, from an idle policy that matches the before snapshot, and never changed by staging again; a success is durable, a failed save stops the process from changing anything. |
| `PolicyCandidates.PolicyJournal.Adopt` | internal/hostruntime/agent_port_policy.go:243-261 | Adoption succeeds exactly for a snapshot of the job that does not leave rollback when its save succeeds, and changes only the active snapshot, in memory and in the file. |
| `PolicyCandidates.PolicyJournal.Save` | internal/hostruntime/journal.go:543-552 | A save writes the file or not; unless it reports success the journal is poisoned. |
| `PolicyCandidates.PolicyJournal.Drive` | internal/hostruntime/agent_port_policy.go:181-261 | Over any sequence of stage and adopt calls and restarts with failing saves, the candidates in the journal file never change and rollback is never left; without a restart the same holds in memory. |

## Left out

- Port contract version 2: `executePortV2` and its Docker driver are not part of this model.
- HTTP clients, release provenance, tar extraction and JSON decoding: foreign input, modelled as decoded values.
- Syntax of identifiers, versions and digests in records other than the pin, and the plan's own digest: only compared for equality.
- File ownership, modes of directories and symlink checks: abstracted into checks that may fail.
- The memory store's Save sets an empty active pointer; no reachable save meets one, since a job is saved only after it was staged.
- `executeDockerPortRequest` also takes the ledger from the active pointer when the job lookup finds none; the lookup covers that case.
- SoftwareExecutor.SoftwareExecutor.ApplyDocker: models the pre-staged image with its gate; the ungated path, which validates and pulls after the env write, is not part of this model.
- SoftwareExecutor.SoftwareExecutor.ReconcileLive: any touches and any verdict after the gate, instead of the two reconcile bodies.
- SoftwareExecutor.SoftwareExecutor.StageRequest: stage directories, their cleanup and orphan removal are not modelled.
- SoftwareLedger.SafeAppend: one apply and a lease that never falls per tenure of a job, not over all time; the ledger file remembers only the latest job of a target, so a job that returns after another one starts afresh.
- PortExecutor.PortExecutor.Serve: one open ledger per target, the settled job's record and rising revisions are false for the file store after a cut Stage (`PortCutStage.CutStageExample`); they are claimed for every run without one, and `OpenIsActiveUnlessCut` and `RecordDiffersExactly` say when the first two fail. No claim on revisions is made across a change of policy.
- Sidecars.Sidecars.RollbackCreated: a link whose stat failed stays unrecorded, so full removal of created sidecars is not claimed.
- Configure.Configuration.Commit: claims the order of the three parts, not all-or-nothing.
- Slots.HostSlots.Upgrade: bundle inspection, unit migration and blockers before staging are one check that may fail.
- PortMapping.PreflightOwnership: takes the listed identifiers in lower case and the decoded bindings; the proposed-port preflight, a simpler variant, is not modelled.
- Claims.Agent.ExecuteOnce: terminal-only software recovery and pending reports are not modelled.
- Claims.Agent.SetActive: `active` is the durable cursor, without the in-memory copy that a failed save poisons; report sequence numbers and kept port results are not modelled, and the checks against pending reports and the saved plan are a refusal that may always happen.
- PolicyCandidates.DerivedCandidates: a public URL is its parsed parts.
- PolicyCandidates.PolicyJournal.StagePolicy: the general policy validation, the size limit, host and ownership epoch of a candidate are not modelled.
- Heartbeats, capability maps, command-line parsing, log text and the stubs for other platforms: no hard property.
