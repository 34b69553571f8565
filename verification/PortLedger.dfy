/**
 * Records of the Docker port transaction and the pure checks over them: plans,
 * ledgers, results, applied records, the policy binding and the resolver
 * (docker_port_reconfigure.go, docker_port_execution.go, docker_port_staging.go,
 * docker_port_commit.go, systemd_port_reconfigure.go, systemd_port_result.go).
 */
module PortLedger {
  import opened Basics
  import opened PortEnv

  type JobId = string

  /** A SHA-256 digest of file bytes, modelled as injective. */
  datatype Digest = Sha(body: string)

  datatype Ports = Ports(published: int, container: int, health: int)

  /** The policy revisions and digest a plan is fenced to. */
  datatype Fence = Fence(source: Int64, updater: Int64, executor: Int64, executorSha: string)

  datatype Baseline = Baseline(versionEnv: string, containerId: string, imageId: string,
                               repoDigest: string, version: string)

  datatype Plan = Plan(
    jobId: JobId, hostId: string, targetId: string, serviceType: ServiceType,
    oldPort: int, newPort: int,
    hostIp: string, before: Ports, after: Ports,
    expectedEndpoint: Int64, targetEndpoint: Int64,
    expectedConfig: Int64, targetConfig: Int64,
    expectedSha: Digest, targetSha: Digest,
    approvedCompose: string, approvedComposeRevision: Int64,
    runtime: Baseline,
    fence: Fence, epoch: Int64, sessionId: string,
    lease: nat, planSha: string)

  const LOOPBACK := "127.0.0.1"
  const PRIVATE_MODE := 384 // 0o600

  predicate ValidPorts(p: Ports) {
    ValidPort(p.published) && ValidPort(p.container) && p.health == p.published
  }

  /** `SystemdPortReconfigurePlan.Validate` for a Docker plan (identifier syntax is not modelled). */
  predicate PlanValid(plan: Plan) {
    && !plan.serviceType.OtherService?
    && 1 <= plan.oldPort <= 65535 && 1 <= plan.newPort <= 65535
    && 1 <= plan.expectedEndpoint < MAX_INT64 - 1
    && plan.targetEndpoint == plan.expectedEndpoint + 1
    && plan.expectedConfig >= 1
    && plan.targetConfig == Increment(plan.expectedConfig)
    && plan.expectedSha != plan.targetSha
    && plan.fence.source >= 1 && plan.fence.updater >= 1 && plan.fence.executor >= 1
    && plan.epoch >= 1 && plan.lease > 0
    && plan.hostIp == LOOPBACK
    && ValidPorts(plan.before) && ValidPorts(plan.after)
    && plan.approvedComposeRevision == plan.fence.executor
    && !(plan.oldPort == plan.newPort && plan.before.published == plan.after.published &&
         plan.before.container == plan.after.container)
  }

  /** `sameSystemdPortIntent`: everything but the lease generation and the plan digest. */
  predicate SameIntent(p: Plan, q: Plan) {
    p.(lease := 0, planSha := "") == q.(lease := 0, planSha := "")
  }

  // --- Mapping checkpoints and observations ----------------------------------

  datatype Checkpoint = Checkpoint(existed: bool, mode: nat, bytes: string, sha: Digest)

  function CheckpointOf(mapping: Option<string>): Checkpoint {
    match mapping
    case None => Checkpoint(false, 0, "", Sha(""))
    case Some(bytes) => Checkpoint(true, PRIVATE_MODE, bytes, Sha(bytes))
  }

  predicate CheckpointValid(c: Checkpoint) {
    && c.sha == Sha(c.bytes)
    && if c.existed then c.mode == PRIVATE_MODE && 0 < |c.bytes| <= MAX_ENV_BYTES
       else c.mode == 0 && c.bytes == ""
  }

  predicate IsHex(c: char) {
    '0' <= c <= '9' || 'a' <= c <= 'f'
  }

  predicate IsContainerId(id: string) {
    12 <= |id| <= 64 && forall i :: 0 <= i < |id| ==> IsHex(id[i])
  }

  /** `dockerContainerIDsMatch`: one identifier abbreviates the other. */
  predicate ContainerIdsMatch(left: string, right: string) {
    IsContainerId(left) && IsContainerId(right) && (left <= right || right <= left)
  }

  datatype Observation = Observation(
    mappingEnv: Checkpoint, hostIp: string, ports: Ports,
    configRevision: Int64, configSha: Digest,
    composePolicy: string, compose: string, runtime: Baseline)

  predicate ObservationValid(o: Observation) {
    && CheckpointValid(o.mappingEnv)
    && o.hostIp == LOOPBACK
    && ValidPorts(o.ports)
    && o.configRevision >= 1
    && o.configSha == o.mappingEnv.sha
    && IsContainerId(o.runtime.containerId)
  }

  /** `dockerPortObservationMatchesPlanBaseline` */
  predicate MatchesPlanBaseline(o: Observation, plan: Plan) {
    && ObservationValid(o)
    && o.hostIp == plan.hostIp
    && o.ports == plan.before
    && o.configRevision == plan.expectedConfig
    && o.configSha == plan.expectedSha
    && o.composePolicy == plan.approvedCompose
    && o.runtime.versionEnv == plan.runtime.versionEnv
    && ContainerIdsMatch(o.runtime.containerId, plan.runtime.containerId)
    && o.runtime.imageId == plan.runtime.imageId
    && o.runtime.repoDigest == plan.runtime.repoDigest
  }

  datatype Side = Before | After

  /** `dockerPortObservationMatchesTarget` */
  predicate MatchesSide(o: Observation, plan: Plan, l: Ledger, side: Side) {
    && ObservationValid(o)
    && o.composePolicy == plan.approvedCompose
    && o.runtime.versionEnv == l.baseline.versionEnv
    && o.runtime.imageId == l.baseline.imageId
    && o.runtime.repoDigest == l.baseline.repoDigest
    && o.runtime.version == l.baseline.version
    && o.hostIp == plan.hostIp
    && match side
       case After =>
         && o.ports == plan.after
         && o.configRevision == plan.targetConfig
         && o.configSha == plan.targetSha
         && o.compose == l.targetCompose
         && !ContainerIdsMatch(o.runtime.containerId, l.baseline.containerId)
       case Before =>
         && o.ports == plan.before
         && o.configRevision == plan.expectedConfig
         && o.configSha == plan.expectedSha
         && o.compose == l.oldCompose
  }

  datatype Prepared = Prepared(composePolicy: string, compose: string, hostIp: string, ports: Ports)

  /** `dockerPortPreparedMatchesPlan` */
  predicate PreparedMatchesPlan(p: Prepared, plan: Plan) {
    && p.hostIp == LOOPBACK && ValidPorts(p.ports)
    && p.composePolicy == plan.approvedCompose
    && p.hostIp == plan.hostIp
    && p.ports == plan.after
  }

  // --- Results ----------------------------------------------------------------

  datatype ResultKind = Applied | RolledBack | Unchanged | RollbackFailed
  datatype Status = Succeeded | StatusRolledBack | Failed

  datatype DockerState = DockerState(ports: Ports, compose: string)

  datatype PortResult = PortResult(
    status: Status, kind: ResultKind, stateKnown: bool,
    oldPort: int, newPort: int, appliedPort: int,
    endpointRevision: Int64, configRevision: Int64, configSha: Option<Digest>,
    docker: Option<DockerState>)

  /** `SystemdPortReconfigureResult.Validate` for a Docker result. */
  predicate ResultValid(r: PortResult) {
    && 1 <= r.oldPort <= 65535 && 1 <= r.newPort <= 65535
    && r.endpointRevision >= 1
    && if r.kind == RollbackFailed then
         r.docker == None && r.status == Failed && !r.stateKnown && r.appliedPort == 0 &&
         r.configRevision == 0 && r.configSha == None
       else
         && r.docker.Some? && ValidPorts(r.docker.value.ports)
         && r.stateKnown
         && r.status == (if r.kind == RolledBack then StatusRolledBack else Succeeded)
         && r.appliedPort == (if r.kind == Applied then r.newPort else r.oldPort)
         && r.configRevision >= 1 && r.configSha.Some?
  }

  /** The side of the mapping a known result names. */
  function SideOf(kind: ResultKind): Side {
    if kind == Applied then After else Before
  }

  function PortsOf(plan: Plan, side: Side): Ports {
    if side == After then plan.after else plan.before
  }

  /** The result `commitDockerPortResult` fills in for a known kind. */
  function KnownResult(plan: Plan, kind: ResultKind, compose: string): PortResult
    requires PlanValid(plan)
    requires kind != RollbackFailed
  {
    var side := SideOf(kind);
    PortResult(
      if kind == RolledBack then StatusRolledBack else Succeeded, kind, true,
      plan.oldPort, plan.newPort, if side == After then plan.newPort else plan.oldPort,
      if side == After then plan.targetEndpoint else plan.targetEndpoint + 1,
      if side == After then plan.targetConfig else plan.expectedConfig,
      Some(if side == After then plan.targetSha else plan.expectedSha),
      Some(DockerState(PortsOf(plan, side), compose)))
  }

  /** The result of `terminalDockerPortRollbackFailed`. */
  function UnknownResult(plan: Plan): PortResult {
    PortResult(Failed, RollbackFailed, false, plan.oldPort, plan.newPort, 0, plan.targetEndpoint, 0, None, None)
  }

  // --- Ledgers ----------------------------------------------------------------

  datatype LedgerState =
    | Staged | GrantConsuming | GrantConsumed | EnvWritten | Recreated | Ambiguous
    | Committing | Terminal

  datatype Ledger = Ledger(
    plan: Plan, state: LedgerState, checkpoint: Checkpoint, targetBytes: string,
    baseline: Baseline, oldCompose: string, targetCompose: string,
    result: Option<PortResult>)

  /** `dockerPortLedger.validate` */
  predicate LedgerValid(l: Ledger) {
    && PlanValid(l.plan)
    && CheckpointValid(l.checkpoint)
    && l.checkpoint.sha == l.plan.expectedSha
    && Sha(l.targetBytes) == l.plan.targetSha
    && match l.state
       case Committing => l.result.Some? && ResultValid(l.result.value) && l.result.value.kind != RollbackFailed
       case Terminal => l.result.Some? && ResultValid(l.result.value)
       case _ => l.result.None?
  }

  function MappingOf(plan: Plan, side: Side): Mapping {
    if side == After then Mapping(plan.after.published, plan.after.container, plan.targetConfig)
    else Mapping(plan.before.published, plan.before.container, plan.expectedConfig)
  }

  /**
   * What staging establishes beyond `LedgerValid`: the checkpoint and the target
   * bytes are the canonical printings of the plan's two mappings.
   */
  predicate Printed(l: Ledger) {
    var adapter := AdapterFor(l.plan.serviceType);
    && adapter.Some?
    && l.checkpoint.existed
    && Print(adapter.value, MappingOf(l.plan, Before)) == Some(l.checkpoint.bytes)
    && Print(adapter.value, MappingOf(l.plan, After)) == Some(l.targetBytes)
  }

  /** Two ledgers of one transaction: same intent and same staged inputs. */
  predicate SameTransaction(l: Ledger, m: Ledger) {
    && SameIntent(l.plan, m.plan)
    && l.checkpoint == m.checkpoint && l.targetBytes == m.targetBytes
    && l.baseline == m.baseline && l.oldCompose == m.oldCompose && l.targetCompose == m.targetCompose
  }

  lemma SameIntentKeeps(p: Plan, q: Plan)
    requires SameIntent(p, q)
    ensures q == p.(lease := q.lease, planSha := q.planSha)
  {
    assert p == p.(lease := 0, planSha := "").(lease := p.lease, planSha := p.planSha);
  }

  lemma SameTransactionKeepsPrinted(l: Ledger, m: Ledger)
    requires SameTransaction(l, m) && Printed(l)
    ensures Printed(m)
  {
    SameIntentKeeps(l.plan, m.plan);
  }

  function BytesOf(l: Ledger, side: Side): string {
    if side == After then l.targetBytes else l.checkpoint.bytes
  }

  // --- Policy, targets and applied records -------------------------------------

  datatype Target = Target(
    serviceId: string, serviceType: ServiceType, docker: bool,
    listenHost: string, listenPort: int,
    endpointRevision: Int64, configRevision: Int64, configSha: Digest,
    compose: string, portComposePolicy: string, portComposeRevision: Int64)

  /** `fence` holds the policy's own revisions and digest. */
  datatype Policy = Policy(wellFormed: bool, hostId: string, fence: Fence, targets: map<string, Target>)

  datatype Operation = Forward | Reconcile | Other

  datatype Request = Request(op: Operation, plan: Plan, serviceId: string,
                             source: Int64, updater: Int64, executor: Int64, epoch: Int64)

  datatype AppliedState = AppliedState(
    targetId: string, serviceType: ServiceType, ports: Ports,
    endpointRevision: Int64, configRevision: Int64, configSha: Digest, compose: string,
    fence: Fence, epoch: Int64)

  /** The applied record `commitDockerPortResult` and `repairDockerPortCommit` write. */
  function AppliedOf(plan: Plan, r: PortResult): AppliedState
    requires r.docker.Some? && r.configSha.Some?
  {
    AppliedState(plan.targetId, plan.serviceType, r.docker.value.ports,
                 r.endpointRevision, r.configRevision, r.configSha.value, r.docker.value.compose,
                 plan.fence, plan.epoch)
  }

  /** `dockerPortAppliedState.validate` */
  predicate AppliedValid(a: AppliedState) {
    && !a.serviceType.OtherService?
    && ValidPorts(a.ports)
    && a.endpointRevision >= 1 && a.configRevision >= 1
    && a.fence.source >= 1 && a.fence.updater >= 1 && a.fence.executor >= 1
    && a.epoch >= 1
  }

  /** `dockerPortAdapterFor`, given that the target names its service's own profile. */
  function AdapterOf(t: Target): Option<Adapter> {
    if t.docker && t.portComposeRevision >= 1 then AdapterFor(t.serviceType) else None
  }

  /** `dockerPortAppliedState.validateRecord` */
  predicate RecordValid(a: AppliedState, t: Target) {
    && AppliedValid(a)
    && a.targetId == t.serviceId && a.serviceType == t.serviceType && t.docker
    && AdapterOf(t).Some?
    && var bytes := Print(AdapterOf(t).value, Mapping(a.ports.published, a.ports.container, a.configRevision));
       bytes.Some? && Sha(bytes.value) == a.configSha
  }

  /** `dockerPortAppliedState.matchesTarget` */
  predicate RecordMatchesTarget(a: AppliedState, t: Target) {
    && t.docker && a.targetId == t.serviceId && a.serviceType == t.serviceType
    && a.ports.health == t.listenPort
    && a.endpointRevision == t.endpointRevision
    && a.configRevision == t.configRevision && a.configSha == t.configSha
    && a.compose == t.compose
  }

  datatype Verdict = Overlay | UsePolicy | Stale | Regresses | ReusesEndpoint | ReusesConfig | Invalid

  /** `dockerPortAppliedState.validateForPolicy` */
  function ValidateForPolicy(a: AppliedState, policy: Policy, t: Target): Verdict {
    if !RecordValid(a, t) then Invalid
    else if a.fence != policy.fence then
      if RecordMatchesTarget(a, t) then UsePolicy else Stale
    else if a.endpointRevision < t.endpointRevision || a.configRevision < t.configRevision then Regresses
    else if a.endpointRevision == t.endpointRevision &&
            (a.ports.health != t.listenPort || a.configRevision != t.configRevision ||
             a.configSha != t.configSha || a.compose != t.compose) then ReusesEndpoint
    else if a.configRevision == t.configRevision &&
            (a.ports.health != t.listenPort || a.configSha != t.configSha || a.compose != t.compose) then ReusesConfig
    else Overlay
  }

  /**
   * `resolveDockerPortAppliedTargetBound`. `sidecarVerified` is the outcome of the
   * sidecar check, which only counts when `verifySidecar` asks for it.
   */
  function Resolve(policy: Policy, t: Target, applied: Option<AppliedState>,
                   verifySidecar: bool, sidecarVerified: bool): Option<Target>
  {
    match applied
    case None => Some(t)
    case Some(a) =>
      var verdict := ValidateForPolicy(a, policy, t);
      if verdict != Overlay && verdict != UsePolicy then None
      else if verifySidecar && !sidecarVerified then None
      else if verdict == UsePolicy then Some(t)
      else Some(t.(listenPort := a.ports.health, endpointRevision := a.endpointRevision,
                   configRevision := a.configRevision, configSha := a.configSha, compose := a.compose))
  }

  /** `dockerPortTargetMatchesExpected` */
  predicate TargetMatchesExpected(t: Target, plan: Plan) {
    && t.docker
    && t.listenPort == plan.before.health
    && 0 < t.endpointRevision <= plan.expectedEndpoint
    && t.configRevision == plan.expectedConfig
    && t.configSha == plan.expectedSha
    && t.portComposePolicy == plan.approvedCompose
    && t.portComposeRevision == plan.approvedComposeRevision
  }

  /** `validateDockerPortPolicyBinding`, returning the policy's target. */
  function BindPolicy(policy: Policy, request: Request): Option<Target> {
    var plan := request.plan;
    if !PlanValid(plan) || request.serviceId != plan.targetId ||
       request.source != plan.fence.source || request.epoch != plan.epoch ||
       request.updater != plan.fence.updater || request.executor != plan.fence.executor ||
       !policy.wellFormed || policy.hostId != plan.hostId || policy.fence != plan.fence ||
       plan.targetId !in policy.targets then None
    else
      var t := policy.targets[plan.targetId];
      if t.serviceId != plan.targetId || !t.docker || t.serviceType != plan.serviceType ||
         t.listenHost != plan.hostIp || t.portComposePolicy != plan.approvedCompose ||
         t.portComposeRevision != plan.approvedComposeRevision then None
      else
        match AdapterOf(t)
        case None => None
        case Some(adapter) =>
          match Print(adapter, MappingOf(plan, After))
          case Some(bytes) => if Sha(bytes) == plan.targetSha then Some(t) else None
          case None => None
  }

  /** `dockerPortTargetAfter` */
  function TargetAfter(t: Target, plan: Plan, compose: string): Target {
    t.(listenPort := plan.after.health, endpointRevision := plan.targetEndpoint,
       configRevision := plan.targetConfig, configSha := plan.targetSha, compose := compose)
  }

  // --- Facts about commits -------------------------------------------------------

  /** Every result the commit builds passes its own validation, and so does the record beside it. */
  lemma KnownResultIsValid(plan: Plan, kind: ResultKind, compose: string)
    requires PlanValid(plan) && kind != RollbackFailed
    requires SideOf(kind) == After ==> plan.targetConfig >= 1
    ensures ResultValid(KnownResult(plan, kind, compose))
    ensures AppliedValid(AppliedOf(plan, KnownResult(plan, kind, compose)))
    ensures SideOf(kind) == Before ==> plan.targetEndpoint < KnownResult(plan, kind, compose).endpointRevision
  {
  }

  /** What a commit of `kind` may rely on: the fences passed and the side was observed. */
  predicate Committable(policy: Policy, t: Target, applied: Option<AppliedState>,
                        plan: Plan, kind: ResultKind, compose: string) {
    && PlanValid(plan) && kind != RollbackFailed
    && policy.fence == plan.fence
    && t.docker && t.serviceId == plan.targetId && t.serviceType == plan.serviceType
    && AdapterOf(t).Some?
    && (var effective := Resolve(policy, t, applied, false, false);
        && effective.Some?
        && TargetMatchesExpected(effective.value, plan)
        && (SideOf(kind) == Before ==> compose == effective.value.compose))
    && var bytes := Print(AdapterOf(t).value, MappingOf(plan, SideOf(kind)));
       bytes.Some? && Sha(bytes.value) == (if SideOf(kind) == After then plan.targetSha else plan.expectedSha)
  }

  /** The record of a commit prints to the digest it carries. */
  lemma CommitRecordValid(policy: Policy, t: Target, applied: Option<AppliedState>,
                          plan: Plan, kind: ResultKind, compose: string)
    requires Committable(policy, t, applied, plan, kind, compose)
    ensures SideOf(kind) == After ==> plan.targetConfig >= 1
    ensures RecordValid(AppliedOf(plan, KnownResult(plan, kind, compose)), t)
  {
    KnownResultIsValid(plan, kind, compose);
  }

  /**
   * The record written by a commit is accepted by the resolver under the same policy:
   * it never "regresses" and never "reuses" a revision. Resolving it yields the
   * result's port, revisions and digests, and a strictly newer endpoint revision.
   */
  lemma CommitResolves(policy: Policy, t: Target, applied: Option<AppliedState>,
                       plan: Plan, kind: ResultKind, compose: string)
    requires Committable(policy, t, applied, plan, kind, compose)
    ensures var r := KnownResult(plan, kind, compose);
            var a := AppliedOf(plan, r);
            var before := Resolve(policy, t, applied, false, false).value;
            && ValidateForPolicy(a, policy, t) == Overlay
            && Resolve(policy, t, Some(a), false, false) == Some(t.(
                 listenPort := r.docker.value.ports.health,
                 endpointRevision := r.endpointRevision,
                 configRevision := r.configRevision,
                 configSha := r.configSha.value,
                 compose := r.docker.value.compose))
            && before.endpointRevision < r.endpointRevision
  {
    CommitRecordValid(policy, t, applied, plan, kind, compose);
  }
}
