/**
 * The A/B slot upgrade of the host runtime: the persisted state machine around the switch
 * of the current link, driven by the manual upgrade and by the executor's own activation
 * and reconcile (host_self_update_state.go, host_self_update_activation.go,
 * host_self_update_slot_state.go, host_manual_upgrade_linux.go,
 * host_manual_upgrade_activation_linux.go, host_manual_upgrade_bootstrap_linux.go).
 */
module Slots {
  import opened Basics

  datatype Slot = A | B

  function Other(s: Slot): Slot {
    if s == A then B else A
  }

  datatype Phase = Stable | Staged | Activating | Verifying | RollingBack

  datatype Versions = Versions(agent: string, executor: string)

  datatype Pending = Pending(slot: Slot, generation: string, versions: Versions, protocol: int)

  datatype State = State(phase: Phase, active: Slot, healthy: Slot, rollback: Option<Slot>,
                         versions: Versions, rollbackVersions: Option<Versions>,
                         failed: Option<string>, pending: Option<Pending>)

  datatype Request = Request(generation: string, versions: Versions, protocol: int)

  /** `HostSelfUpdateState.validate` (version, digest and clock syntax is not modelled). */
  predicate StateValid(s: State) {
    if s.phase == Stable then s.active == s.healthy && s.pending == None
    else s.pending.Some? && s.pending.value.slot != s.healthy
  }

  // --- Transitions ------------------------------------------------------------------

  function Bootstrap(slot: Slot, versions: Versions): State {
    State(Stable, slot, slot, None, versions, None, None, None)
  }

  /** `StageHostSelfUpdate` without lifecycle blockers */
  function StageUpdate(s: State, request: Request): Option<State> {
    if !StateValid(s) || s.phase != Stable || request.versions == s.versions ||
       s.failed == Some(request.generation) then None
    else Some(s.(phase := Staged,
                 pending := Some(Pending(Other(s.healthy), request.generation, request.versions, request.protocol))))
  }

  /** `BeginHostSelfUpdateActivation` */
  function BeginActivation(s: State): Option<State> {
    if !StateValid(s) || s.phase != Staged then None else Some(s.(phase := Activating))
  }

  function BeginRollback(s: State): State
    requires s.pending.Some?
  {
    s.(phase := RollingBack, failed := Some(s.pending.value.generation))
  }

  /** `commitHostSelfUpdate` */
  function CommitUpdate(s: State): State
    requires s.pending.Some?
  {
    State(Stable, s.pending.value.slot, s.pending.value.slot, Some(s.healthy),
          s.pending.value.versions, Some(s.versions), s.failed, None)
  }

  /** `clearRolledBackHostSelfUpdate` */
  function ClearRolledBack(s: State): State
    requires s.pending.Some?
  {
    State(Stable, s.healthy, s.healthy, None, s.versions, None, Some(s.pending.value.generation), None)
  }

  // --- Reconcile -----------------------------------------------------------------------

  datatype Observation = Observation(
    current: Slot, runningAgent: string, heartbeatVersion: string, heartbeatGeneration: string,
    executorVersion: string, executorProtocol: int, executorHealthy: bool,
    probeGeneration: string, failureCode: string)

  datatype Action = NoAction | SwitchCurrent | RestoreHealthy | RestartAgent | RestartHealthy
                  | AwaitProof | ProbeExecutor | CommitAction | RollbackComplete

  /** `reconcileHostSelfUpdateVerification` */
  function Verify(s: State, o: Observation): (State, Action)
    requires s.pending.Some?
  {
    var p := s.pending.value;
    var heartbeatValid := o.heartbeatGeneration == p.generation && o.heartbeatVersion == p.versions.agent;
    var probeValid :=
      o.probeGeneration == p.generation && o.executorHealthy &&
      o.executorVersion == p.versions.executor && o.executorProtocol == p.protocol;
    if o.current != p.slot then (BeginRollback(s), RestoreHealthy)
    else if o.runningAgent != "" && o.runningAgent != p.versions.agent then (BeginRollback(s), RestoreHealthy)
    else if (o.heartbeatGeneration != "" || o.heartbeatVersion != "") && !heartbeatValid then
      (BeginRollback(s), RestoreHealthy)
    else if (o.probeGeneration != "" || o.failureCode != "") && !probeValid then (BeginRollback(s), RestoreHealthy)
    else if !heartbeatValid then (s, AwaitProof)
    else if !probeValid then (s, ProbeExecutor)
    else (CommitUpdate(s), CommitAction)
  }

  /** `ReconcileHostSelfUpdate` */
  function Reconcile(s: State, o: Observation): Option<(State, Action)> {
    if !StateValid(s) then None
    else match s.phase
      case Stable => Some((s, if o.current != s.active then RestoreHealthy else NoAction))
      case Staged => Some((s, NoAction))
      case Activating =>
        if o.failureCode != "" then
          Some((BeginRollback(s), if o.current == s.pending.value.slot then RestoreHealthy else RestartHealthy))
        else if o.current == s.healthy then Some((s, SwitchCurrent))
        else if o.runningAgent == "" then Some((s.(phase := Verifying), RestartAgent))
        else Some(Verify(s.(phase := Verifying), o))
      case Verifying => Some(Verify(s, o))
      case RollingBack =>
        if o.current == s.pending.value.slot then Some((s, RestoreHealthy))
        else if o.runningAgent != s.versions.agent || !o.executorHealthy ||
                o.executorVersion != s.versions.executor then
          Some((s, RestartHealthy))
        else Some((ClearRolledBack(s), RollbackComplete))
  }

  // --- The invariant ---------------------------------------------------------------------

  /** An update is on its way and not yet given up. */
  predicate Trying(s: State) {
    s.phase == Staged || s.phase == Activating || s.phase == Verifying
  }

  /** The generation being tried is not the one that failed last. */
  predicate TriesAnother(s: State) {
    Trying(s) ==> s.pending.Some? && s.failed != Some(s.pending.value.generation)
  }

  /**
   * Over the persisted states: a generation that failed is not tried again until another one
   * has failed.
   */
  ghost predicate NotRetried(h: seq<State>) {
    forall i, j :: 0 <= i < j < |h| && h[i].failed.Some? && Trying(h[j]) && h[j].pending.Some? &&
                   h[j].pending.value.generation == h[i].failed.value
                   ==> h[j].failed.Some? && h[j].failed != h[i].failed
  }

  /** A failure is remembered from then on. */
  ghost predicate FailuresKept(h: seq<State>) {
    forall i, j :: 0 <= i < j < |h| && h[i].failed.Some? ==> h[j].failed.Some?
  }

  /** What the persisted state says about the current link. */
  predicate SlotsAgree(s: State, current: Slot) {
    && StateValid(s) && s.active == s.healthy && TriesAnother(s)
    && (s.phase == Stable || s.phase == Staged ==> current == s.active)
  }

  /**
   * A reconcile step is safe at each of its crash points: after the new state is saved and
   * the link not yet moved, and after the link is moved. It commits only with a matching
   * heartbeat and executor probe for exactly the pending generation on the pending slot.
   */
  lemma ReconcileSafe(s: State, o: Observation)
    requires SlotsAgree(s, o.current) && Reconcile(s, o).Some?
    ensures var (next, action) := Reconcile(s, o).value;
            && SlotsAgree(next, o.current)
            && (action == SwitchCurrent ==> next.pending.Some? && SlotsAgree(next, next.pending.value.slot))
            && (action == RestoreHealthy ==> SlotsAgree(next, next.healthy))
            && (action == RestartAgent ==> next.pending.Some?)
            && (action == CommitAction ==>
                  && s.pending.Some? && o.current == s.pending.value.slot == next.active
                  && o.heartbeatGeneration == o.probeGeneration == s.pending.value.generation
                  && next.versions == s.pending.value.versions
                  && next.rollback == Some(s.healthy) && next.rollbackVersions == Some(s.versions))
            && (next.healthy != s.healthy ==> action == CommitAction)
  {
  }

  datatype Trees = Trees(a: string, b: string) {
    function Of(slot: Slot): string {
      if slot == A then a else b
    }

    function With(slot: Slot, content: string): Trees {
      if slot == A then Trees(content, b) else Trees(a, content)
    }
  }

  class HostSlots {
    var state: Option<State>
    var current: Slot
    /** The contents of the two slot directories. */
    var trees: Trees
    /** Every state that was ever persisted, in order. */
    ghost var history: seq<State>

    /** The last failure is in the persisted state. */
    ghost predicate Remembers()
      reads this
    {
      && FailuresKept(history)
      && (forall i :: 0 <= i < |history| ==> TriesAnother(history[i]))
      && (forall i :: 0 <= i < |history| && history[i].failed.Some? ==> state.Some? && state.value.failed.Some?)
    }

    /** A persisted stable state implies that the current link names its active slot. */
    ghost predicate Valid()
      reads this
    {
      && (state.Some? ==> SlotsAgree(state.value, current))
      && Remembers()
    }

    constructor (slot: Slot, a: string, b: string)
      ensures Valid() && state == None && current == slot
    {
      state, current, trees := None, slot, Trees(a, b);
      history := [];
    }

    // --- Durable effects -----------------------------------------------------------

    method Check() returns (r: Run<bool>)
    {
      var passes: bool, crash: bool := *, *;
      return if crash then Crashed else Finished(passes);
    }

    method SaveState(s: State) returns (r: Run<bool>)
      requires Valid() && SlotsAgree(s, current)
      requires state.Some? && state.value.failed.Some? ==> s.failed.Some?
      modifies this`state, this`history
      ensures Valid()
      ensures state == old(state) || state == Some(s)
      ensures r == Finished(true) ==> state == Some(s)
    {
      var took: bool, reported: bool, crash: bool := *, *, *;
      if took {
        state, history := Some(s), history + [s];
      }
      return if crash then Crashed else Finished(took && reported);
    }

    /** Moves the current link; the durable state must already allow both ends. */
    method SwitchTo(slot: Slot) returns (r: Run<bool>)
      requires Valid()
      requires state.Some? ==> SlotsAgree(state.value, slot)
      modifies this`current
      ensures Valid()
      ensures current == old(current) || current == slot
      ensures r == Finished(true) ==> current == slot
    {
      var took: bool, reported: bool, crash: bool := *, *, *;
      if took {
        current := slot;
      }
      return if crash then Crashed else Finished(took && reported);
    }

    /** Promotion or cleanup of a candidate: only the pending slot's directory may change. */
    method RecoverArtifacts(pending: Slot) returns (r: Run<bool>)
      requires Valid()
      modifies this`trees
      ensures Valid() && trees.Of(Other(pending)) == old(trees.Of(Other(pending)))
    {
      var content: string := *;
      trees := trees.With(pending, content);
      r := Check();
    }

    // --- Manual upgrade ---------------------------------------------------------------

    /** `upgradeHostRuntimeAttempt` from staging to activation */
    method Upgrade(request: Request, versions: Versions) returns (r: Run<UpgradeResult>)
      requires Valid()
      modifies this
      ensures Valid()
      ensures trees.Of(old(current)) == old(trees.Of(current))
      ensures r.Finished? && r.value.Upgraded? ==>
                && r.value == Upgraded(old(current), Other(old(current)))
                && current == Other(old(current)) && state.Some?
                && state.value.phase == Stable && state.value.active == current
                && state.value.versions == request.versions && state.value.rollback == Some(old(current))
      ensures r == Finished(RolledBack) ==>
                && current == old(current) && state.Some?
                && state.value.phase == Stable && state.value.active == current
                && state.value.failed == Some(request.generation)
                && (old(state).Some? ==> state.value.versions == old(state).value.versions)
      ensures r == Finished(Refused) ==>
                current == old(current) && (state.Some? ==> state.value.phase == Stable || state == old(state))
    {
      var ready :- Check();
      var start := if state.Some? then state.value else Bootstrap(current, versions);
      var staged := StageUpdate(start, request);
      if !ready || staged.None? {
        return Finished(Refused);
      }
      var bootstrapped := state == None;
      if bootstrapped {
        var saved :- SaveState(start);
        if !saved {
          return Finished(Refused);
        }
      }
      var pending := staged.value.pending.value.slot;
      var filled :- RecoverArtifacts(pending);
      var verified :- Check();
      var activating := BeginActivation(staged.value);
      if !filled || !verified || activating.None? {
        r := AbortBeforeFence(pending, bootstrapped);
        return;
      }
      r := Activate(activating.value, request);
    }

    /** `recoverManualHostUpgradeBeforeFence`: a state that was only bootstrapped is removed again. */
    method AbortBeforeFence(pending: Slot, bootstrapped: bool) returns (r: Run<UpgradeResult>)
      requires Valid() && state.Some? && state.value.phase == Stable && pending == Other(current)
      requires bootstrapped ==> state.value.failed == None
      modifies this`state, this`trees, this`history
      ensures Valid() && trees.Of(current) == old(trees.Of(current))
      ensures state == old(state) || state == None
      ensures r.Finished? ==> r.value == Refused
    {
      var cleaned :- RecoverArtifacts(pending);
      var same :- Check();
      if cleaned && same && bootstrapped {
        var removes: bool := *;
        if removes {
          state := None;
        }
        var _ :- Check();
      }
      return Finished(Refused);
    }

    /** From the activation fence on; every failure rolls back. */
    method Activate(activating: State, request: Request) returns (r: Run<UpgradeResult>)
      requires Valid() && state.Some? && state.value.phase == Stable && activating.failed == state.value.failed
      requires SlotsAgree(activating, current) && activating.phase == Activating && activating.healthy == current
      requires activating.pending ==
               Some(Pending(Other(current), request.generation, request.versions, request.protocol))
      modifies this
      ensures Valid() && trees.Of(old(current)) == old(trees.Of(current))
      ensures r.Finished? && r.value.Upgraded? ==>
                && r.value == Upgraded(old(current), Other(old(current)))
                && current == Other(old(current)) && state.Some?
                && state.value.phase == Stable && state.value.active == current
                && state.value.versions == request.versions && state.value.rollback == Some(old(current))
      ensures r == Finished(RolledBack) ==>
                && current == old(current) && state.Some?
                && state.value.phase == Stable && state.value.active == current
                && state.value.failed == Some(request.generation)
                && state.value.versions == activating.versions
      ensures r.Finished? ==> r.value != Refused
    {
      var pending := activating.pending.value.slot;
      var fenced :- SaveState(activating);
      if !fenced {
        r := RollbackUpgrade(activating);
        return;
      }
      var promoted :- RecoverArtifacts(pending);
      var quiet :- Check();
      if !promoted || !quiet {
        r := RollbackUpgrade(activating);
        return;
      }
      var switched :- SwitchTo(pending);
      var healthy :- Check();
      if !switched || !healthy {
        r := RollbackUpgrade(activating);
        return;
      }
      var committed :- SaveState(CommitUpdate(activating));
      if !committed {
        r := RollbackUpgrade(activating);
        return;
      }
      return Finished(Upgraded(activating.healthy, pending));
    }

    /** `rollbackManualHostUpgrade` */
    method RollbackUpgrade(activating: State) returns (r: Run<UpgradeResult>)
      requires Valid() && state.Some?
      requires StateValid(activating) && activating.pending.Some? && activating.active == activating.healthy
      requires activating.phase == Activating
      modifies this
      ensures Valid() && trees.Of(activating.healthy) == old(trees.Of(activating.healthy))
      ensures r == Finished(RolledBack) ==>
                && current == activating.healthy && state == Some(ClearRolledBack(BeginRollback(activating)))
      ensures r.Finished? ==> r.value == RolledBack || r.value == RollbackFailed
    {
      var rollback := BeginRollback(activating);
      var fenced :- SaveState(rollback);
      if !fenced {
        return Finished(RollbackFailed);
      }
      var restored :- SwitchTo(rollback.healthy);
      if !restored {
        return Finished(RollbackFailed);
      }
      var healthy :- Check();
      if !healthy {
        return Finished(RollbackFailed);
      }
      var saved :- SaveState(ClearRolledBack(rollback));
      if !saved {
        return Finished(RollbackFailed);
      }
      var cleaned :- RecoverArtifacts(rollback.pending.value.slot);
      return Finished(if cleaned then RolledBack else RollbackFailed);
    }

    // --- The executor's own update and recovery -------------------------------------------

    /** Staging by the executor, and dropping a stage that fails verification. */
    method StageByExecutor(request: Request) returns (r: Run<bool>)
      requires Valid()
      modifies this`state, this`history
      ensures Valid()
    {
      if state.None? {
        return Finished(false);
      }
      var staged := StageUpdate(state.value, request);
      if staged.None? {
        return Finished(false);
      }
      r := SaveState(staged.value);
    }

    /** `activate` of the executor runtime */
    method ActivateByExecutor() returns (r: Run<bool>)
      requires Valid()
      modifies this`state, this`current, this`history
      ensures Valid()
    {
      if state.None? || state.value.phase != Staged {
        return Finished(false);
      }
      var verified :- Check();
      if !verified {
        r := SaveState(ClearRolledBack(state.value));
        return;
      }
      var next := BeginActivation(state.value).value;
      var saved :- SaveState(next);
      if !saved {
        return Finished(false);
      }
      var switched :- SwitchTo(next.pending.value.slot);
      if !switched {
        var _ :- SaveState(BeginRollback(next));
        return Finished(false);
      }
      r := Check();
    }

    /** `reconcile` of the executor runtime: save the new state, then act on the link. */
    method ReconcileByExecutor(proof: Observation) returns (r: Run<bool>)
      requires Valid()
      modifies this`state, this`current, this`history
      ensures Valid()
    {
      if state.None? {
        return Finished(false);
      }
      var o := proof.(current := current);
      var step := Reconcile(state.value, o);
      if step.None? {
        return Finished(false);
      }
      ReconcileSafe(state.value, o);
      var (next, action) := step.value;
      if action == SwitchCurrent || action == RestartAgent {
        var verified :- Check();
        if !verified {
          r := SaveState(BeginRollback(next));
          return;
        }
      }
      var saved :- SaveState(next);
      if !saved {
        return Finished(false);
      }
      if action == SwitchCurrent {
        var switched :- SwitchTo(next.pending.value.slot);
        if !switched {
          var _ :- SaveState(BeginRollback(next));
          return Finished(false);
        }
      } else if action == RestoreHealthy {
        var switched :- SwitchTo(next.healthy);
        if !switched {
          return Finished(false);
        }
      }
      r := Check();
    }

    /** Any run of manual upgrades, executor updates and reconciles, with crashes anywhere. */
    method Drive(steps: seq<Step>)
      requires Valid()
      modifies this
      ensures state.Some? && state.value.phase == Stable ==> current == state.value.active
      ensures Valid() && NotRetried(history)
    {
      for i := 0 to |steps|
        invariant Valid()
      {
        match steps[i] {
          case UpgradeStep(request, versions) => var _ := Upgrade(request, versions);
          case StageStep(request) => var _ := StageByExecutor(request);
          case ActivateStep => var _ := ActivateByExecutor();
          case ReconcileStep(proof) => var _ := ReconcileByExecutor(proof);
        }
      }
    }
  }

  datatype UpgradeResult = Refused | Upgraded(previous: Slot, active: Slot) | RolledBack | RollbackFailed

  datatype Step =
    | UpgradeStep(request: Request, versions: Versions)
    | StageStep(request: Request)
    | ActivateStep
    | ReconcileStep(proof: Observation)
}
