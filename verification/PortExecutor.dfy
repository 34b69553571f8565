/**
 * The Docker port executor: the forward and reconcile operations with their rollback
 * and commit repair, step by step (docker_port_execution.go, docker_port_recovery.go,
 * docker_port_commit.go, docker_port_staging.go, docker_port_state.go,
 * docker_port_state_models.go).
 *
 * The runtime is nondeterministic but honest. A store write may succeed, fail without
 * effect or fail after taking effect, and the process may crash after any effect.
 */
module PortExecutor {
  import opened Basics
  import opened PortEnv
  import opened PortLedger
  import opened PortProtocol
  import opened PortRecords

  datatype Reply = Failure(code: string) | Answer(result: PortResult)

  /** A successful observation reports the true mapping file and running container, bound to the target. */
  predicate HonestObservation(h: Host, target: Target, o: Observation) {
    && ObservationValid(o)
    && h.mapping.Some? && o.mappingEnv == CheckpointOf(h.mapping)
    && h.container == Some(Container(o.runtime.containerId, o.ports.published, o.ports.container))
    && o.hostIp == target.listenHost
    && o.ports.published == target.listenPort
    && o.configRevision == target.configRevision && o.configSha == target.configSha
    && o.composePolicy == target.portComposePolicy && o.compose == target.compose
  }

  /** An honest observation that matches a side proves that the host is on that side. */
  lemma ObservedSide(h: Host, target: Target, o: Observation, plan: Plan, l: Ledger, side: Side)
    requires HonestObservation(h, target, o)
    requires LedgerValid(l) && SameIntent(plan, l.plan)
    requires MatchesSide(o, plan, l, side)
    ensures HostOnSide(h, l, side)
  {
    SameIntentKeeps(plan, l.plan);
  }

  /** The fences of a plan under a policy whose target resolves to `target`. */
  ghost predicate Bound(policy: Policy, t: Target, target: Target, plan: Plan, applied: Option<AppliedState>) {
    && PlanValid(plan) && policy.fence == plan.fence
    && t.docker && t.serviceId == plan.targetId && t.serviceType == plan.serviceType
    && AdapterOf(t).Some?
    && Resolve(policy, t, applied, false, false) == Some(target)
    && TargetMatchesExpected(target, plan)
  }

  lemma BoundForIntent(policy: Policy, t: Target, target: Target, plan: Plan, other: Plan,
                       applied: Option<AppliedState>)
    requires Bound(policy, t, target, plan, applied)
    requires SameIntent(plan, other) && PlanValid(other)
    ensures Bound(policy, t, target, other, applied)
  {
    SameIntentKeeps(plan, other);
  }

  lemma BoundCommits(policy: Policy, t: Target, target: Target, plan: Plan, applied: Option<AppliedState>,
                     l: Ledger, kind: ResultKind, compose: string)
    requires Bound(policy, t, target, plan, applied)
    requires LedgerValid(l) && Printed(l) && SameIntent(plan, l.plan)
    requires kind != RollbackFailed
    requires SideOf(kind) == Before ==> compose == target.compose
    ensures Committable(policy, t, applied, plan, kind, compose)
  {
    SameIntentKeeps(plan, l.plan);
  }

  /** `l` is the in-memory copy of the open, not yet committing ledger in the store. */
  ghost predicate InFlight(w: World, l: Ledger) {
    && Open(w, l.plan.jobId) && Unblocked(w, l.plan.jobId)
    && w.ledgers[l.plan.jobId].result == None
    && SameTransaction(w.ledgers[l.plan.jobId], l)
    && LedgerValid(l) && l.result == None
  }

  lemma InFlightIsPrinted(w: World, l: Ledger, atomic: bool)
    requires Held(w, atomic) && InFlight(w, l)
    ensures Printed(l)
  {
    HeldIsInv(w, atomic);
    SameTransactionKeepsPrinted(w.ledgers[l.plan.jobId], l);
  }

  /** The store holds exactly the in-memory ledger. */
  ghost predicate Stored(w: World, l: Ledger) {
    InFlight(w, l) && w.ledgers[l.plan.jobId] == l
  }

  /** Save, grant, save: the job is authorized, and no write slipped in. */
  lemma GrantAuthorizes(before: seq<Event>, after: seq<Event>, job: JobId)
    requires |after| == |before| + 3 && before <= after
    requires after[|before|].LedgerSaved?
    requires after[|before| + 1] == GrantUsed(job, Forward)
    requires SavedWith(after[|before| + 2], job, GrantConsumed)
    ensures Authorized(after, job)
    ensures (forall i :: 0 <= i < |before| && before[i].WriteCalled? ==> before[i].job != job) ==>
              forall i :: 0 <= i < |after| && after[i].WriteCalled? ==> after[i].job != job
  {
    assert ForwardGrant(after, |before| + 1, job);
  }

  function Committed(l: Ledger, plan: Plan, result: PortResult): Ledger {
    l.(plan := plan, state := Committing, result := Some(result))
  }

  /** A commit of the side the host is on can be saved, and its record will be accepted. */
  lemma CommitIsReady(w: World, scope: Option<Scope>, l: Ledger, plan: Plan, kind: ResultKind, compose: string,
                      policy: Policy, t: Target)
    requires InFlight(w, l) && SameIntent(plan, l.plan)
    requires Committable(policy, t, w.applied, plan, kind, compose)
    requires HostOnSide(w.host, l, SideOf(kind))
    requires scope.Some? ==> scope.value == Scope(policy, t)
    ensures var result := KnownResult(plan, kind, compose);
            var c := Committed(l, plan, result);
            && ResultValid(result) && AppliedValid(AppliedOf(plan, result))
            && c.plan.jobId == l.plan.jobId && LedgerValid(c) && MaySave(w, c) && MayRecord(w, scope, c)
            && Resolve(policy, t, Some(AppliedOf(plan, result)), false, false).Some?
  {
    var result := KnownResult(plan, kind, compose);
    SameIntentKeeps(plan, l.plan);
    CommitRecordValid(policy, t, w.applied, plan, kind, compose);
    KnownResultIsValid(plan, kind, compose);
    CommitResolves(policy, t, w.applied, plan, kind, compose);
    KnownResultIsTrue(w.host, l, plan, kind, compose);
    if scope.Some? {
      CommitMayRecord(w, scope.value, Committed(l, plan, result), plan, kind, compose);
    }
  }

  /** The request is made under the policy of the scope and for its target. */
  ghost predicate InScope(sc: Scope, policy: Policy, request: Request) {
    && policy == sc.policy
    && (BindPolicy(policy, request).Some? ==> BindPolicy(policy, request) == Some(sc.target))
  }

  datatype Authorization = Refused(code: string) | Granted(ledger: Ledger)

  datatype Loaded = Unreadable | Missing | Found(ledger: Ledger)

  /** The mapping file is the printing of the applied record, as the target's adapter spells it. */
  predicate SidecarMatches(w: World, t: Target) {
    match w.applied
    case None => true
    case Some(a) =>
      && RecordValid(a, t)
      && w.host.mapping == Print(AdapterOf(t).value, Mapping(a.ports.published, a.ports.container, a.configRevision))
  }

  /** Everything a reconcile checks before it looks at the host, for a job with an open ledger. */
  ghost predicate FencesPass(w: World, policy: Policy, request: Request, atomic: bool) {
    var t := BindPolicy(policy, request);
    && t.Some?
    && Open(w, request.plan.jobId) && Unblocked(w, request.plan.jobId)
    && w.ledgers[request.plan.jobId].state != Committing
    && SameIntent(w.ledgers[request.plan.jobId].plan, request.plan)
    && var target := Resolve(policy, t.value, w.applied, false, false);
       && target.Some? && TargetMatchesExpected(target.value, request.plan)
       && (!atomic && w.ledgers[request.plan.jobId].state == Staged ==> SidecarMatches(w, t.value))
  }

  class PortExecutor {
    /** The memory store stages in one step, the file store in two writes. */
    const atomicStage: bool
    /** Set to study progress: store access succeeds and the process does not crash. */
    const reliable: bool
    /** Set to study a run under one policy. */
    ghost const scope: Option<Scope>
    var w: World
    /** The operation of the request being executed. */
    var op: Operation

    ghost predicate Valid()
      reads this
    {
      Sound(w, atomicStage, scope)
    }

    /** A request bound to `t` by `policy` belongs to the run under study. */
    ghost predicate Here(policy: Policy, t: Target) {
      scope.Some? ==> scope.value == Scope(policy, t)
    }

    constructor (host: Host, atomicStage: bool, reliable: bool, ghost scope: Option<Scope>)
      ensures Valid()
      ensures this.atomicStage == atomicStage && this.reliable == reliable && this.scope == scope
      ensures w == World(map[], None, None, host, [], 0)
    {
      this.atomicStage := atomicStage;
      this.reliable := reliable;
      this.scope := scope;
      this.w := World(map[], None, None, host, [], 0);
      this.op := Other;
    }

    // --- Store ---------------------------------------------------------------------

    /** What the caller learns about an effect that did or did not take place. */
    method Report(took: bool) returns (r: Run<bool>)
      ensures r == Finished(true) ==> took
      ensures reliable ==> r == Finished(took)
    {
      var crash: bool, reported: bool := *, *;
      if reliable {
        return Finished(took);
      }
      return if crash then Crashed else Finished(took && reported);
    }

    method Chance() returns (took: bool)
      ensures reliable ==> took
    {
      took := *;
      took := took || reliable;
    }

    method Save(l: Ledger) returns (r: Run<bool>)
      requires Valid()
      requires LedgerValid(l) ==> MaySave(w, l) && MayRecord(w, scope, l)
      modifies this`w
      ensures Valid()
      ensures w == old(w) || (LedgerValid(l) && w == SaveLedger(old(w), l))
      ensures r == Finished(true) ==> LedgerValid(l) && w == SaveLedger(old(w), l)
      ensures old(w.trace) <= w.trace && w.calls == old(w.calls)
      ensures reliable ==> r == Finished(LedgerValid(l))
    {
      if !LedgerValid(l) {
        return Finished(false);
      }
      var took := Chance();
      if took {
        SaveStep(w, l, atomicStage, scope);
        w := SaveLedger(w, l);
      }
      r := Report(took);
    }

    method Stage(l: Ledger) returns (r: Run<bool>)
      requires Valid()
      requires MayStage(w, l)
      modifies this`w
      ensures Valid()
      ensures || w == old(w)
              || (!atomicStage && w == SaveLedger(old(w), l))
              || w == SetActive(SaveLedger(old(w), l), l.plan.jobId)
      ensures r == Finished(true) ==> w == SetActive(SaveLedger(old(w), l), l.plan.jobId)
      ensures old(w.trace) <= w.trace && w.calls == old(w.calls)
      ensures reliable ==> r == Finished(true)
    {
      var took := Chance();
      if !took {
        r := Report(false);
        return;
      }
      if !atomicStage {
        var second := Chance();
        if !second {
          CutStageStep(w, l, scope);
          w := SaveLedger(w, l);
          r := Report(false);
          return;
        }
      }
      StageStep(w, l, atomicStage, scope);
      w := SetActive(SaveLedger(w, l), l.plan.jobId);
      r := Report(true);
    }

    method SaveAppliedRecord(job: JobId, a: AppliedState) returns (r: Run<bool>)
      requires Valid()
      requires MayApply(w, job, a)
      modifies this`w
      ensures Valid()
      ensures w == old(w) || w == SaveApplied(old(w), job, a)
      ensures r == Finished(true) ==> w == SaveApplied(old(w), job, a)
      ensures old(w.trace) <= w.trace && w.calls == old(w.calls)
      ensures reliable ==> r == Finished(AppliedValid(a))
    {
      if !AppliedValid(a) {
        return Finished(false);
      }
      var took := Chance();
      if took {
        AppliedStep(w, job, a, atomicStage, scope);
        w := SaveApplied(w, job, a);
      }
      r := Report(took);
    }

    // --- Runtime -------------------------------------------------------------------

    method Observe(target: Target) returns (r: Run<Option<Observation>>)
      ensures r.Finished? && r.value.Some? ==> HonestObservation(w.host, target, r.value.value)
      ensures reliable ==> r.Finished?
    {
      var o: Observation, crash: bool := *, *;
      if crash && !reliable {
        return Crashed;
      }
      return Finished(if HonestObservation(w.host, target, o) then Some(o) else None);
    }

    /** Prepare and EnsureAvailable touch neither the live mapping nor the container. */
    method Prepare(target: Target, targetBytes: string) returns (r: Run<Option<Prepared>>)
      ensures reliable ==> r.Finished?
    {
      var p: Option<Prepared>, crash: bool := *, *;
      return if crash && !reliable then Crashed else Finished(p);
    }

    method EnsureAvailable(target: Target, p: Prepared) returns (r: Run<bool>)
      ensures reliable ==> r.Finished?
    {
      var free: bool, crash: bool := *, *;
      return if crash && !reliable then Crashed else Finished(free);
    }

    /** A crash hook: it returns an error or lets the request go on. */
    method CrashPoint() returns (r: Run<bool>)
      ensures reliable ==> r == Finished(true)
    {
      var fires: bool, crash: bool := *, *;
      return if reliable then Finished(true) else if crash then Crashed else Finished(!fires);
    }

    method ConsumeGrant(job: JobId) returns (r: Run<bool>)
      requires Valid()
      requires op == Forward ==>
                 job in w.ledgers && w.ledgers[job].state == GrantConsuming && NoForwardGrant(w.trace, job)
      modifies this`w
      ensures Valid()
      ensures w == old(w) || w == Log(old(w), GrantUsed(job, op))
      ensures r == Finished(true) ==> w == Log(old(w), GrantUsed(job, op))
      ensures old(w.trace) <= w.trace && w.calls == old(w.calls)
      ensures reliable ==> r.Finished?
    {
      var took: bool := *;
      if took {
        GrantStep(w, job, op, atomicStage, scope);
        w := Log(w, GrantUsed(job, op));
      }
      r := Report(took);
    }

    method Write(l: Ledger) returns (r: Run<bool>)
      requires Valid()
      requires MayWrite(w, l.plan.jobId) && SameTransaction(w.ledgers[l.plan.jobId], l)
      requires op == Forward
      modifies this`w
      ensures Valid()
      ensures w == SetMapping(Log(old(w), WriteCalled(l.plan.jobId, op)), w.host.mapping)
      ensures w.host.mapping == old(w.host.mapping) || w.host.mapping == Some(l.targetBytes)
      ensures r == Finished(true) ==> w.host.mapping == Some(l.targetBytes)
      ensures reliable ==> r.Finished?
    {
      var took: bool := *;
      took := took && CheckpointOf(w.host.mapping) == l.checkpoint;
      var mapping := if took then Some(l.targetBytes) else w.host.mapping;
      WriteStep(w, l.plan.jobId, mapping, atomicStage, scope);
      w := SetMapping(Log(w, WriteCalled(l.plan.jobId, op)), mapping);
      r := Report(took);
    }

    method Restore(l: Ledger) returns (r: Run<bool>)
      requires Valid()
      requires InFlight(w, l)
      modifies this`w
      ensures Valid()
      ensures w == SetMapping(Log(old(w), RestoreCalled(l.plan.jobId)), w.host.mapping)
      ensures w.host.mapping == old(w.host.mapping) || w.host.mapping == Some(l.checkpoint.bytes)
      ensures r == Finished(true) ==> w.host.mapping == Some(l.checkpoint.bytes)
      ensures reliable ==> r.Finished?
    {
      var took: bool := *;
      took := took && w.host.mapping == Some(l.targetBytes);
      var mapping := if took then Some(l.checkpoint.bytes) else w.host.mapping;
      RestoreStep(w, l.plan.jobId, mapping, atomicStage, scope);
      w := SetMapping(Log(w, RestoreCalled(l.plan.jobId)), mapping);
      r := Report(took);
    }

    /**
     * Recreate refuses a mapping file that is not the side it was prepared for. A
     * failed recreate may leave the old container, the new one or none.
     */
    method Recreate(l: Ledger, toward: Side) returns (r: Run<bool>)
      requires Valid()
      requires toward == After ==>
                 op == Forward && l.plan.jobId in w.ledgers && w.ledgers[l.plan.jobId].state == EnvWritten
      modifies this`w
      ensures Valid()
      ensures w == SetContainer(Log(old(w), RecreateCalled(l.plan.jobId, op, toward)), w.host.container)
      ensures reliable ==> r.Finished?
    {
      var removed: bool, started: bool, id: string := *, *, *;
      var ports := PortsOf(l.plan, toward);
      var ready := w.host.mapping == Some(BytesOf(l, toward));
      started := started && ready;
      var container :=
        if started then Some(Container(id, ports.published, ports.container))
        else if ready && removed then None
        else w.host.container;
      RecreateStep(w, l.plan.jobId, op, toward, container, atomicStage, scope);
      w := SetContainer(Log(w, RecreateCalled(l.plan.jobId, op, toward)), container);
      r := Report(started);
    }

    method Respond(job: JobId, result: PortResult) returns (r: Run<Reply>)
      requires Valid()
      requires MayReply(w, job, result)
      modifies this`w
      ensures Valid()
      ensures w == Log(old(w), Replied(job, result))
      ensures old(w.trace) <= w.trace && w.calls == old(w.calls)
      ensures r == Finished(Answer(result))
    {
      ReplyStep(w, job, result, atomicStage, scope);
      w := Log(w, Replied(job, result));
      return Finished(Answer(result));
    }

    // --- Staging -------------------------------------------------------------------

    method StageLedger(target: Target, plan: Plan) returns (r: Run<Option<Ledger>>)
      requires PlanValid(plan)
      ensures r.Finished? && r.value.Some? ==>
                var l := r.value.value;
                && LedgerValid(l) && Printed(l) && l.state == Staged && l.plan == plan
                && HostOnSide(w.host, l, Before) && l.oldCompose == target.compose
      ensures reliable ==> r.Finished?
    {
      var observed :- Observe(target);
      if observed.None? || !MatchesPlanBaseline(observed.value, plan) {
        return Finished(None);
      }
      var observation := observed.value;
      var adapter := AdapterFor(plan.serviceType).value;
      var oldBytes := Print(adapter, MappingOf(plan, Before));
      if oldBytes.None? || !observation.mappingEnv.existed || observation.mappingEnv.bytes != oldBytes.value {
        return Finished(None);
      }
      var targetBytes := Print(adapter, MappingOf(plan, After));
      if targetBytes.None? || Sha(targetBytes.value) != plan.targetSha {
        return Finished(None);
      }
      var prepared :- Prepare(target, targetBytes.value);
      if prepared.None? || !PreparedMatchesPlan(prepared.value, plan) {
        return Finished(None);
      }
      var free :- EnsureAvailable(target, prepared.value);
      if !free {
        return Finished(None);
      }
      return Finished(Some(Ledger(plan, Staged, observation.mappingEnv, targetBytes.value, observation.runtime,
                                  observation.compose, prepared.value.compose, None)));
    }

    /** Builds a ledger and makes it durable. */
    method StageNew(target: Target, plan: Plan) returns (r: Run<Authorization>)
      requires Valid()
      requires PlanValid(plan) && plan.jobId !in w.ledgers && Unblocked(w, plan.jobId)
      modifies this`w
      ensures Valid()
      ensures old(w.trace) <= w.trace && w.calls == old(w.calls) && w.applied == old(w.applied)
      ensures r.Finished? && r.value.Granted? ==>
                var l := r.value.ledger;
                && Stored(w, l) && l.state == Staged && l.plan == plan
                && HostOnSide(w.host, l, Before) && l.oldCompose == target.compose
    {
      var created :- StageLedger(target, plan);
      if created.None? {
        return Finished(Refused("mutation_precondition_failed"));
      }
      var stored :- Stage(created.value);
      if !stored {
        return Finished(Refused("state_unavailable"));
      }
      return Finished(Granted(created.value));
    }

    method Recheck(target: Target, l: Ledger) returns (r: Run<bool>)
      ensures reliable ==> r.Finished?
    {
      var observed :- Observe(target);
      if observed.None? || !MatchesPlanBaseline(observed.value, l.plan) ||
         observed.value.mappingEnv != l.checkpoint || observed.value.compose != l.oldCompose ||
         observed.value.runtime != l.baseline {
        return Finished(false);
      }
      var prepared :- Prepare(target, l.targetBytes);
      if prepared.None? || !PreparedMatchesPlan(prepared.value, l.plan) ||
         prepared.value.compose != l.targetCompose {
        return Finished(false);
      }
      r := EnsureAvailable(target, prepared.value);
    }

    // --- Commit and rollback ----------------------------------------------------------

    method CommitResult(l: Ledger, plan: Plan, kind: ResultKind, compose: string, ghost policy: Policy, ghost t: Target)
      returns (r: Run<Reply>)
      requires Valid()
      requires InFlight(w, l) && SameIntent(plan, l.plan)
      requires HostOnSide(w.host, l, SideOf(kind))
      requires Committable(policy, t, w.applied, plan, kind, compose) && Here(policy, t)
      modifies this`w
      ensures Valid()
      ensures old(w.trace) <= w.trace && w.calls == old(w.calls)
      ensures r.Finished? && r.value.Answer? ==>
                && r.value.result == KnownResult(plan, kind, compose)
                && MayReply(w, plan.jobId, r.value.result)
                && w.applied == Some(AppliedOf(plan, r.value.result))
                && Resolve(policy, t, w.applied, false, false).Some?
      ensures reliable ==> r.Finished? && r.value.Answer?
    {
      CommitIsReady(w, scope, l, plan, kind, compose, policy, t);
      var result := KnownResult(plan, kind, compose);
      if !ResultValid(result) {
        return Finished(Failure("internal_error"));
      }
      var committing := Committed(l, plan, result);
      var saved :- Save(committing);
      if !saved {
        return Finished(Failure("state_unavailable"));
      }
      r := FinishCommit(committing, plan, result);
    }

    /** The applied record and the terminal ledger, after the committing ledger is durable. */
    method FinishCommit(committing: Ledger, plan: Plan, result: PortResult) returns (r: Run<Reply>)
      requires Valid()
      requires Open(w, plan.jobId) && Unblocked(w, plan.jobId)
      requires w.ledgers[plan.jobId] == committing && committing.state == Committing
      requires committing.plan == plan && committing.result == Some(result)
      requires LedgerValid(committing) && AppliedValid(AppliedOf(plan, result))
      modifies this`w
      ensures Valid()
      ensures old(w.trace) <= w.trace && w.calls == old(w.calls)
      ensures r.Finished? && r.value.Answer? ==>
                && r.value.result == result
                && MayReply(w, plan.jobId, result)
                && w.applied == Some(AppliedOf(plan, result))
      ensures reliable ==> r.Finished? && r.value.Answer?
    {
      var stored :- SaveAppliedRecord(plan.jobId, AppliedOf(plan, result));
      if !stored {
        return Finished(Failure("state_unavailable"));
      }
      var goOn :- CrashPoint();
      if !goOn {
        return Finished(Failure("reconcile_required"));
      }
      CommittedMaySettle(w, committing);
      var saved :- Save(committing.(state := Terminal));
      if !saved {
        return Finished(Failure("state_unavailable"));
      }
      r := Respond(plan.jobId, result);
    }

    method RollbackFailedResult(l: Ledger) returns (r: Run<Reply>)
      requires Valid()
      requires InFlight(w, l)
      modifies this`w
      ensures Valid()
      ensures old(w.trace) <= w.trace && w.calls == old(w.calls)
      ensures w.applied == old(w.applied)
      ensures r.Finished? && r.value.Answer? ==>
                MayReply(w, l.plan.jobId, r.value.result) && r.value.result == UnknownResult(l.plan)
      ensures reliable ==> r.Finished? && r.value.Answer?
    {
      var result := UnknownResult(l.plan);
      var saved :- Save(l.(state := Terminal, result := Some(result)));
      if !saved {
        return Finished(Failure("state_unavailable"));
      }
      r := Respond(l.plan.jobId, result);
    }

    /** Commits the side an observation of `seen` was found to match. */
    method CommitObserved(l: Ledger, plan: Plan, kind: ResultKind, seen: Target, o: Observation,
                          ghost target: Target, ghost policy: Policy, ghost t: Target)
      returns (r: Run<Reply>)
      requires Valid()
      requires InFlight(w, l) && SameIntent(plan, l.plan)
      requires Bound(policy, t, target, plan, w.applied) && Here(policy, t)
      requires kind != RollbackFailed
      requires HonestObservation(w.host, seen, o) && MatchesSide(o, plan, l, SideOf(kind))
      requires SideOf(kind) == Before ==> seen == target
      modifies this`w
      ensures Valid()
      ensures old(w.trace) <= w.trace
      ensures r.Finished? && r.value.Answer? ==>
                && MayReply(w, plan.jobId, r.value.result)
                && Resolve(policy, t, w.applied, false, false).Some?
      ensures reliable ==> r.Finished? && r.value.Answer?
    {
      ObservedSide(w.host, seen, o, plan, l, SideOf(kind));
      InFlightIsPrinted(w, l, atomicStage);
      BoundCommits(policy, t, target, plan, w.applied, l, kind, o.compose);
      r := CommitResult(l, plan, kind, o.compose, policy, t);
    }

    /** `rollbackDockerPortRequest` */
    method RollbackRequest(l: Ledger, target: Target, ghost policy: Policy, ghost t: Target)
      returns (r: Run<Reply>)
      requires Valid()
      requires InFlight(w, l)
      requires Bound(policy, t, target, l.plan, w.applied) && Here(policy, t)
      modifies this`w
      ensures Valid()
      ensures old(w.trace) <= w.trace
      ensures r.Finished? && r.value.Answer? ==> MayReply(w, l.plan.jobId, r.value.result)
      ensures reliable ==> r.Finished? && r.value.Answer?
    {
      var observed :- Observe(target);
      if observed.Some? && MatchesSide(observed.value, l.plan, l, Before) {
        r := CommitObserved(l, l.plan, Unchanged, target, observed.value, target, policy, t);
        return;
      }
      r := RestoreOld(l, target, policy, t);
    }

    /** The second half of the rollback: restore the mapping, recreate, look again. */
    method RestoreOld(l: Ledger, target: Target, ghost policy: Policy, ghost t: Target)
      returns (r: Run<Reply>)
      requires Valid()
      requires InFlight(w, l)
      requires Bound(policy, t, target, l.plan, w.applied) && Here(policy, t)
      modifies this`w
      ensures Valid()
      ensures old(w.trace) <= w.trace
      ensures r.Finished? && r.value.Answer? ==> MayReply(w, l.plan.jobId, r.value.result)
      ensures reliable ==> r.Finished? && r.value.Answer?
    {
      var restored :- Restore(l);
      if !restored {
        r := RollbackFailedResult(l);
        return;
      }
      r := RecreateOld(l, target, policy, t);
    }

    method RecreateOld(l: Ledger, target: Target, ghost policy: Policy, ghost t: Target)
      returns (r: Run<Reply>)
      requires Valid()
      requires InFlight(w, l)
      requires Bound(policy, t, target, l.plan, w.applied) && Here(policy, t)
      modifies this`w
      ensures Valid()
      ensures old(w.trace) <= w.trace
      ensures r.Finished? && r.value.Answer? ==> MayReply(w, l.plan.jobId, r.value.result)
      ensures reliable ==> r.Finished? && r.value.Answer?
    {
      var recreated :- Recreate(l, Before);
      if recreated {
        var again :- Observe(target);
        if again.Some? && MatchesSide(again.value, l.plan, l, Before) {
          r := CommitObserved(l, l.plan, RolledBack, target, again.value, target, policy, t);
          return;
        }
      }
      r := RollbackFailedResult(l);
    }

    // --- Forward -------------------------------------------------------------------

    /** Marks the ledger ambiguous, whether or not the store accepts it, and asks for a reconcile. */
    method MarkAmbiguous(l: Ledger) returns (r: Run<Reply>)
      requires Valid()
      requires InFlight(w, l)
      modifies this`w
      ensures Valid()
      ensures old(w.trace) <= w.trace && w.calls == old(w.calls)
      ensures w.applied == old(w.applied)
      ensures r.Finished? ==> r.value.Failure?
    {
      var _ :- Save(l.(state := Ambiguous));
      return Finished(Failure("reconcile_required"));
    }

    /** `port_reconfigure` up to the durable `grant_consumed`. */
    method Authorize(staged: Ledger, plan: Plan) returns (r: Run<Authorization>)
      requires Valid() && op == Forward
      requires Stored(w, staged) && staged.state == Staged
      requires SameIntent(staged.plan, plan) && PlanValid(plan)
      modifies this`w
      ensures Valid()
      ensures old(w.trace) <= w.trace && w.applied == old(w.applied)
      ensures r.Finished? && r.value.Granted? ==>
                && r.value.ledger == staged.(plan := plan, state := GrantConsumed)
                && Stored(w, r.value.ledger) && MayWrite(w, plan.jobId)
    {
      SameIntentKeeps(staged.plan, plan);
      assert NoWrite(w, plan.jobId) && NoForwardGrant(w.trace, plan.jobId) by {
        HeldIsInv(w, atomicStage);
        StagedIsUnused(w, plan.jobId);
      }
      ghost var before := w.trace;
      var consuming := staged.(plan := plan, state := GrantConsuming);
      var saved :- Save(consuming);
      if !saved {
        return Finished(Refused("state_unavailable"));
      }
      r := ConsumeForward(consuming, before);
    }

    /** The grant call and the durable record that it succeeded. */
    method ConsumeForward(consuming: Ledger, ghost before: seq<Event>) returns (r: Run<Authorization>)
      requires Valid() && op == Forward
      requires Stored(w, consuming) && consuming.state == GrantConsuming
      requires w.trace == before + [LedgerSaved(consuming, w.host)]
      requires forall i :: 0 <= i < |before| && before[i].WriteCalled? ==> before[i].job != consuming.plan.jobId
      requires NoForwardGrant(before, consuming.plan.jobId)
      modifies this`w
      ensures Valid()
      ensures old(w.trace) <= w.trace && w.applied == old(w.applied)
      ensures r.Finished? && r.value.Granted? ==>
                && r.value.ledger == consuming.(state := GrantConsumed)
                && Stored(w, r.value.ledger) && MayWrite(w, consuming.plan.jobId)
    {
      var consumed :- ConsumeGrant(consuming.plan.jobId);
      if !consumed {
        var _ :- MarkAmbiguous(consuming);
        return Finished(Refused("reconcile_required"));
      }
      assert ForwardGrant(w.trace, |w.trace| - 1, consuming.plan.jobId);
      var working := consuming.(state := GrantConsumed);
      var saved :- Save(working);
      if !saved {
        return Finished(Refused("reconcile_required"));
      }
      GrantAuthorizes(before, w.trace, consuming.plan.jobId);
      var goOn :- CrashPoint();
      if !goOn {
        var _ :- MarkAmbiguous(working);
        return Finished(Refused("reconcile_required"));
      }
      return Finished(Granted(working));
    }

    /** `port_reconfigure` from the durable grant on. */
    method Mutate(working: Ledger, target: Target, ghost policy: Policy, ghost t: Target) returns (r: Run<Reply>)
      requires Valid() && op == Forward
      requires Stored(w, working) && MayWrite(w, working.plan.jobId)
      requires Bound(policy, t, target, working.plan, w.applied) && Here(policy, t)
      modifies this`w
      ensures Valid()
      ensures old(w.trace) <= w.trace
      ensures r.Finished? && r.value.Answer? ==> MayReply(w, working.plan.jobId, r.value.result)
    {
      var same :- Recheck(target, working);
      if !same {
        r := RollbackRequest(working, target, policy, t);
        return;
      }
      var written :- Write(working);
      if !written {
        r := RollbackRequest(working, target, policy, t);
        return;
      }
      var recorded :- Record(working.(state := EnvWritten));
      if !recorded {
        return Finished(Failure("reconcile_required"));
      }
      r := RecreateNew(working.(state := EnvWritten), target, policy, t);
    }

    /** Saves a mid-transaction ledger and passes its crash hook. */
    method Record(l: Ledger) returns (r: Run<bool>)
      requires Valid()
      requires InFlight(w, l) && (l.state == EnvWritten || l.state == Recreated)
      modifies this`w
      ensures Valid()
      ensures old(w.trace) <= w.trace && w.applied == old(w.applied)
      ensures r == Finished(true) ==> Stored(w, l)
    {
      var saved :- Save(l);
      if !saved {
        return Finished(false);
      }
      var goOn :- CrashPoint();
      if !goOn {
        var _ :- MarkAmbiguous(l);
        return Finished(false);
      }
      return Finished(true);
    }

    /** Recreates toward the new ports, looks, and commits or rolls back. */
    method RecreateNew(working: Ledger, target: Target, ghost policy: Policy, ghost t: Target) returns (r: Run<Reply>)
      requires Valid() && op == Forward
      requires Stored(w, working) && working.state == EnvWritten
      requires Bound(policy, t, target, working.plan, w.applied) && Here(policy, t)
      modifies this`w
      ensures Valid()
      ensures old(w.trace) <= w.trace
      ensures r.Finished? && r.value.Answer? ==> MayReply(w, working.plan.jobId, r.value.result)
    {
      var recreated :- Recreate(working, After);
      if !recreated {
        r := RollbackRequest(working, target, policy, t);
        return;
      }
      var recorded :- Record(working.(state := Recreated));
      if !recorded {
        return Finished(Failure("reconcile_required"));
      }
      r := CommitNew(working.(state := Recreated), target, policy, t);
    }

    method CommitNew(working: Ledger, target: Target, ghost policy: Policy, ghost t: Target) returns (r: Run<Reply>)
      requires Valid()
      requires Stored(w, working)
      requires Bound(policy, t, target, working.plan, w.applied) && Here(policy, t)
      modifies this`w
      ensures Valid()
      ensures old(w.trace) <= w.trace
      ensures r.Finished? && r.value.Answer? ==> MayReply(w, working.plan.jobId, r.value.result)
    {
      var plan := working.plan;
      var newTarget := TargetAfter(target, plan, working.targetCompose);
      var observed :- Observe(newTarget);
      if observed.None? || !MatchesSide(observed.value, plan, working, After) {
        r := RollbackRequest(working, target, policy, t);
        return;
      }
      r := CommitObserved(working, plan, Applied, newTarget, observed.value, target, policy, t);
    }

    // --- Reconcile -----------------------------------------------------------------

    /** Reconcile of a job without a ledger: stage it, use the grant, settle as unchanged. */
    method ReconcileMissing(plan: Plan, target: Target, ghost policy: Policy, ghost t: Target) returns (r: Run<Reply>)
      requires Valid() && op == Reconcile
      requires plan.jobId !in w.ledgers && Unblocked(w, plan.jobId)
      requires Bound(policy, t, target, plan, w.applied) && Here(policy, t)
      modifies this`w
      ensures Valid()
      ensures old(w.trace) <= w.trace && w.calls == old(w.calls)
      ensures r.Finished? && r.value.Answer? ==>
                MayReply(w, plan.jobId, r.value.result) && r.value.result.kind == Unchanged
    {
      var staged :- StageNew(target, plan);
      if staged.Refused? {
        return Finished(Failure(staged.code));
      }
      r := SettleStaged(staged.ledger, target, policy, t);
    }

    method SettleStaged(staged: Ledger, target: Target, ghost policy: Policy, ghost t: Target) returns (r: Run<Reply>)
      requires Valid() && op == Reconcile
      requires Stored(w, staged) && HostOnSide(w.host, staged, Before) && staged.oldCompose == target.compose
      requires Bound(policy, t, target, staged.plan, w.applied) && Here(policy, t)
      modifies this`w
      ensures Valid()
      ensures old(w.trace) <= w.trace && w.calls == old(w.calls)
      ensures r.Finished? && r.value.Answer? ==>
                MayReply(w, staged.plan.jobId, r.value.result) && r.value.result.kind == Unchanged
    {
      var consumed :- ConsumeGrant(staged.plan.jobId);
      if !consumed {
        r := MarkAmbiguous(staged);
        return;
      }
      InFlightIsPrinted(w, staged, atomicStage);
      BoundCommits(policy, t, target, staged.plan, w.applied, staged, Unchanged, staged.oldCompose);
      r := CommitResult(staged, staged.plan, Unchanged, staged.oldCompose, policy, t);
    }

    /** Reconcile of an open ledger: find which side the host is on, else roll back. */
    method ReconcileOpen(l: Ledger, plan: Plan, target: Target, ghost policy: Policy, ghost t: Target)
      returns (r: Run<Reply>)
      requires Valid()
      requires Stored(w, l) && SameIntent(l.plan, plan)
      requires Bound(policy, t, target, plan, w.applied) && Here(policy, t)
      modifies this`w
      ensures Valid()
      ensures old(w.trace) <= w.trace
      ensures r.Finished? && r.value.Answer? ==> MayReply(w, plan.jobId, r.value.result)
      ensures reliable ==> r.Finished? && r.value.Answer?
    {
      SameIntentKeeps(l.plan, plan);
      var observed :- Observe(target);
      if observed.Some? && MatchesSide(observed.value, plan, l, Before) {
        r := CommitObserved(l, plan, RolledBack, target, observed.value, target, policy, t);
        return;
      }
      var newTarget := TargetAfter(target, plan, l.targetCompose);
      var targetObserved :- Observe(newTarget);
      if targetObserved.Some? && MatchesSide(targetObserved.value, plan, l, After) {
        r := CommitObserved(l, plan, Applied, newTarget, targetObserved.value, target, policy, t);
        return;
      }
      BoundForIntent(policy, t, target, plan, l.plan, w.applied);
      r := RollbackRequest(l, target, policy, t);
    }

    /** `repairDockerPortCommit` */
    method RepairCommit(l: Ledger, plan: Plan, policyTarget: Target, ghost policy: Policy) returns (r: Run<Reply>)
      requires Valid() && op == Reconcile
      requires l.plan.jobId in w.ledgers && w.ledgers[l.plan.jobId] == l && l.state == Committing
      requires Unblocked(w, l.plan.jobId) && LedgerValid(l)
      requires SameIntent(l.plan, plan) && PlanValid(plan) && Here(policy, policyTarget)
      modifies this`w
      ensures Valid()
      ensures old(w.trace) <= w.trace && w.calls == old(w.calls)
      ensures r.Finished? && r.value.Answer? ==>
                && l.result == Some(r.value.result)
                && MayReply(w, plan.jobId, r.value.result)
                && w.applied == Some(AppliedOf(plan, r.value.result))
                && (scope.Some? ==> Resolve(policy, policyTarget, w.applied, false, false).Some?)
    {
      SameIntentKeeps(l.plan, plan);
      var result := l.result.value;
      var effective := policyTarget.(
        listenPort := result.docker.value.ports.health, endpointRevision := result.endpointRevision,
        configRevision := result.configRevision, configSha := result.configSha.value,
        compose := result.docker.value.compose);
      var observed :- Observe(effective);
      if observed.None? || !MatchesSide(observed.value, plan, l, SideOf(result.kind)) {
        return Finished(Failure("reconcile_required"));
      }
      var consumed :- ConsumeGrant(plan.jobId);
      if !consumed {
        return Finished(Failure("reconcile_required"));
      }
      r := RecordRepair(l, plan);
      if scope.Some? && w.applied.Some? {
        StandingResolves(w, scope.value);
      }
    }

    /** The applied record and the terminal ledger of a repaired commit. */
    method RecordRepair(l: Ledger, plan: Plan) returns (r: Run<Reply>)
      requires Valid()
      requires l.plan.jobId in w.ledgers && w.ledgers[l.plan.jobId] == l && l.state == Committing
      requires Unblocked(w, l.plan.jobId) && LedgerValid(l)
      requires SameIntent(l.plan, plan) && PlanValid(plan)
      modifies this`w
      ensures Valid()
      ensures old(w.trace) <= w.trace && w.calls == old(w.calls)
      ensures r.Finished? && r.value.Answer? ==>
                && l.result == Some(r.value.result)
                && MayReply(w, plan.jobId, r.value.result)
                && w.applied == Some(AppliedOf(plan, r.value.result))
    {
      SameIntentKeeps(l.plan, plan);
      var result := l.result.value;
      var stored :- SaveAppliedRecord(plan.jobId, AppliedOf(plan, result));
      if !stored {
        return Finished(Failure("state_unavailable"));
      }
      CommittedMaySettle(w, l.(plan := plan));
      var saved :- Save(l.(plan := plan, state := Terminal));
      if !saved {
        return Finished(Failure("state_unavailable"));
      }
      r := Respond(plan.jobId, result);
    }

    // --- Requests ------------------------------------------------------------------

    method LoadJob(job: JobId) returns (r: Run<Loaded>)
      requires Valid()
      ensures r.Finished? && r.value.Missing? ==> job !in w.ledgers
      ensures r.Finished? && r.value.Found? ==>
                && job in w.ledgers && r.value.ledger == w.ledgers[job]
                && r.value.ledger.plan.jobId == job && LedgerValid(r.value.ledger)
      ensures reliable ==> r == Finished(if job in w.ledgers then Found(w.ledgers[job]) else Missing)
    {
      HeldIsInv(w, atomicStage);
      var fails: bool, crash: bool := *, *;
      if crash && !reliable {
        return Crashed;
      }
      if fails && !reliable {
        return Finished(Unreadable);
      }
      return Finished(if job in w.ledgers then Found(w.ledgers[job]) else Missing);
    }

    /** A pointer to a missing ledger would read as an error; the invariant rules it out. */
    method LoadActive() returns (r: Run<Loaded>)
      requires Valid()
      ensures r.Finished? && r.value.Missing? ==> w.active == None
      ensures r.Finished? && r.value.Found? ==>
                && w.active.Some? && w.active.value in w.ledgers
                && r.value.ledger == w.ledgers[w.active.value] && r.value.ledger.plan.jobId == w.active.value
      ensures reliable ==> r.Finished? && !r.value.Unreadable?
    {
      HeldIsInv(w, atomicStage);
      if w.active == None {
        return Finished(Missing);
      }
      r := LoadJob(w.active.value);
    }

    /** `VerifyAppliedDockerSidecar`: it may fail to read, and a success is truthful. */
    method VerifySidecar(policyTarget: Target) returns (r: Run<bool>)
      ensures r == Finished(true) ==> SidecarMatches(w, policyTarget)
      ensures reliable ==> r == Finished(SidecarMatches(w, policyTarget))
    {
      r := Report(SidecarMatches(w, policyTarget));
    }

    /** `executeDockerPortRequest` */
    method Execute(policy: Policy, request: Request) returns (r: Run<Reply>)
      requires Valid() && (scope.Some? ==> InScope(scope.value, policy, request))
      modifies this`w, this`op
      ensures Valid()
      ensures old(w.trace) <= w.trace
      ensures r.Finished? && r.value.Answer? ==> MayReply(w, request.plan.jobId, r.value.result)
      ensures reliable && request.op == Reconcile && old(FencesPass(w, policy, request, atomicStage)) ==>
                r.Finished? && r.value.Answer?
    {
      op := request.op;
      var plan := request.plan;
      var bound := BindPolicy(policy, request);
      if bound.None? {
        return Finished(Failure("config_mismatch"));
      }
      var historical :- LoadJob(plan.jobId);
      if historical.Unreadable? {
        return Finished(Failure("state_invalid"));
      }
      if historical.Found? && !SameIntent(historical.ledger.plan, plan) {
        return Finished(Failure("plan_conflict"));
      }
      if historical.Found? && historical.ledger.state == Terminal {
        r := Respond(plan.jobId, historical.ledger.result.value);
        return;
      }
      r := ExecuteLoaded(policy, request, bound.value, historical);
    }

    /** The part of the request after its own ledger is loaded. */
    method ExecuteLoaded(policy: Policy, request: Request, t: Target, historical: Loaded) returns (r: Run<Reply>)
      requires Valid() && op == request.op
      requires BindPolicy(policy, request) == Some(t) && Here(policy, t)
      requires historical.Missing? ==> request.plan.jobId !in w.ledgers
      requires historical.Found? ==>
                 && request.plan.jobId in w.ledgers && w.ledgers[request.plan.jobId] == historical.ledger
                 && historical.ledger.plan.jobId == request.plan.jobId && LedgerValid(historical.ledger)
                 && historical.ledger.state != Terminal
                 && SameIntent(historical.ledger.plan, request.plan)
      requires !historical.Unreadable?
      modifies this`w
      ensures Valid()
      ensures old(w.trace) <= w.trace
      ensures r.Finished? && r.value.Answer? ==> MayReply(w, request.plan.jobId, r.value.result)
      ensures reliable && request.op == Reconcile && old(FencesPass(w, policy, request, atomicStage)) ==>
                r.Finished? && r.value.Answer?
    {
      var plan := request.plan;
      var active :- LoadActive();
      if active.Unreadable? {
        return Finished(Failure("state_invalid"));
      }
      if active.Found? && active.ledger.plan.jobId != plan.jobId && active.ledger.state != Terminal {
        return Finished(Failure("target_busy"));
      }
      if historical.Found? && historical.ledger.state == Committing {
        if request.op != Reconcile {
          return Finished(Failure("reconcile_required"));
        }
        r := RepairCommit(historical.ledger, plan, t, policy);
        return;
      }
      r := ExecuteBound(policy, request, t, historical);
    }

    /** The part of the request after the ledger is known to be absent or open. */
    method ExecuteBound(policy: Policy, request: Request, t: Target, historical: Loaded) returns (r: Run<Reply>)
      requires Valid() && op == request.op
      requires BindPolicy(policy, request) == Some(t) && Here(policy, t)
      requires historical.Missing? ==> request.plan.jobId !in w.ledgers
      requires historical.Found? ==>
                 && Stored(w, historical.ledger) && SameIntent(historical.ledger.plan, request.plan)
      requires !historical.Unreadable? && Unblocked(w, request.plan.jobId)
      modifies this`w
      ensures Valid()
      ensures old(w.trace) <= w.trace
      ensures r.Finished? && r.value.Answer? ==> MayReply(w, request.plan.jobId, r.value.result)
      ensures reliable && request.op == Reconcile && historical.Found? &&
              old(FencesPass(w, policy, request, atomicStage)) ==>
                r.Finished? && r.value.Answer?
    {
      var plan := request.plan;
      // Only the file store can verify the sidecar.
      var verify := !atomicStage && (historical.Missing? || historical.ledger.state == Staged);
      var verified := true;
      if verify && w.applied.Some? {
        verified :- VerifySidecar(t);
      }
      var resolved := Resolve(policy, t, w.applied, verify, verified);
      if resolved.None? || !TargetMatchesExpected(resolved.value, plan) {
        return Finished(Failure("config_mismatch"));
      }
      var target := resolved.value;
      if request.op == Reconcile {
        if historical.Missing? {
          r := ReconcileMissing(plan, target, policy, t);
        } else {
          r := ReconcileOpen(historical.ledger, plan, target, policy, t);
        }
        return;
      }
      if request.op != Forward {
        return Finished(Failure("invalid_request"));
      }
      r := ForwardRequest(plan, target, historical, policy, t);
    }

    /** The `port_reconfigure` operation. */
    method ForwardRequest(plan: Plan, target: Target, historical: Loaded, ghost policy: Policy, ghost t: Target)
      returns (r: Run<Reply>)
      requires Valid() && op == Forward
      requires Bound(policy, t, target, plan, w.applied) && Here(policy, t)
      requires historical.Missing? ==> plan.jobId !in w.ledgers
      requires historical.Found? ==>
                 && Stored(w, historical.ledger) && SameIntent(historical.ledger.plan, plan)
      requires !historical.Unreadable? && Unblocked(w, plan.jobId)
      modifies this`w
      ensures Valid()
      ensures old(w.trace) <= w.trace
      ensures r.Finished? && r.value.Answer? ==> MayReply(w, plan.jobId, r.value.result)
    {
      if historical.Found? {
        r := ForwardStaged(historical.ledger, plan, target, policy, t);
        return;
      }
      var staged :- StageNew(target, plan);
      if staged.Refused? {
        return Finished(Failure(staged.code));
      }
      r := ForwardStaged(staged.ledger, plan, target, policy, t);
    }

    method ForwardStaged(l: Ledger, plan: Plan, target: Target, ghost policy: Policy, ghost t: Target)
      returns (r: Run<Reply>)
      requires Valid() && op == Forward
      requires Bound(policy, t, target, plan, w.applied) && Here(policy, t)
      requires Stored(w, l) && SameIntent(l.plan, plan)
      modifies this`w
      ensures Valid()
      ensures old(w.trace) <= w.trace
      ensures r.Finished? && r.value.Answer? ==> MayReply(w, plan.jobId, r.value.result)
    {
      if l.state != Staged {
        return Finished(Failure("reconcile_required"));
      }
      var same :- Recheck(target, l);
      if !same {
        return Finished(Failure("mutation_precondition_failed"));
      }
      var authorized :- Authorize(l, plan);
      if authorized.Refused? {
        return Finished(Failure(authorized.code));
      }
      r := Mutate(authorized.ledger, target, policy, t);
    }

    /**
     * Any run: requests of any kind, under any policies, each of which may crash at any
     * point and is followed by a restart from the durable state.
     */
    method Serve(policies: seq<Policy>, requests: seq<Request>)
      requires Valid() && |policies| == |requests|
      requires scope.Some? ==> forall i :: 0 <= i < |requests| ==> InScope(scope.value, policies[i], requests[i])
      modifies this`w, this`op
      ensures Safe(w.trace) && ActiveSound(w) && w.calls == HostCalls(w.trace)
      ensures forall job :: Open(w, job) ==> (w.active == Some(job) <==> !NeverActive(w.trace, job))
      ensures RecordSound(w)
      ensures StagesComplete(w.trace) ==>
                && AtomicSound(w)
                && forall job :: Open(w, job) ==> MappingOnEitherSide(w.host, w.ledgers[job])
      ensures atomicStage ==> StagesComplete(w.trace)
      ensures scope.Some? ==> RecordsAccepted(w.trace, scope.value) && FallsOnlyByCut(w.trace)
      ensures scope.Some? && StagesComplete(w.trace) ==> RecordsRise(w.trace)
      ensures old(w.trace) <= w.trace
    {
      for i := 0 to |requests|
        invariant Valid()
        invariant old(w.trace) <= w.trace
      {
        var _ := Execute(policies[i], requests[i]);
      }
      RunIsSound(w, atomicStage, scope);
    }
  }

  /** What the folded invariants say about a state. */
  lemma RunIsSound(w: World, atomic: bool, scope: Option<Scope>)
    requires Sound(w, atomic, scope)
    ensures w.calls == HostCalls(w.trace)
    ensures Safe(w.trace) && ActiveSound(w) && RecordSound(w)
    ensures forall job :: Open(w, job) ==> (w.active == Some(job) <==> !NeverActive(w.trace, job))
    ensures StagesComplete(w.trace) ==>
              && AtomicSound(w)
              && forall job :: Open(w, job) ==> MappingOnEitherSide(w.host, w.ledgers[job])
    ensures atomic ==> StagesComplete(w.trace)
    ensures scope.Some? ==> RecordsAccepted(w.trace, scope.value) && FallsOnlyByCut(w.trace)
    ensures scope.Some? && StagesComplete(w.trace) ==> RecordsRise(w.trace)
  {
    HeldIsInv(w, atomic);
    KeptIsWithin(w, scope);
    CountedIsExact(w.trace, w.calls);
    if StagesComplete(w.trace) {
      CompleteIsAtomic(w, atomic);
    }
  }
}
