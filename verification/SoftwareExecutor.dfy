/**
 * The software executor of one target: stage, apply and reconcile requests with the
 * one-shot grant gate, and the Docker and systemd applies that write a checkpoint before
 * they touch the live target (executor_mutation_dispatch.go, executor_stage_request.go,
 * docker_release_apply.go, executor_systemd_staging.go, systemd_release_state.go,
 * checkpoint.go).
 *
 * Commands and checks are nondeterministic but honest; a file write may fail before or
 * after taking effect, and the process may crash after any effect.
 */
module SoftwareExecutor {
  import opened Basics
  import opened SoftwareLedger
  import VersionEnv

  datatype Outcome = Error | Done(result: ApplyResult)

  /** `l` may still be saved over the durable ledger. */
  ghost predicate Working(w: World, l: Ledger) {
    && w.ledger.Some? && l.lease > 0
    && (var d := w.ledger.value;
        && d.jobId == l.jobId && d.intent == l.intent && d.stage == l.stage
        && d.lease <= l.lease && d.state != Terminal)
  }

  /** An env file that differs from the original is covered by a checkpoint that holds the original. */
  predicate EnvCovered(w: World, original: Option<EnvFile>) {
    w.live.env != original ==> w.checkpoint.Some? && w.checkpoint.value.previousEnv == original
  }

  /** The same rule for the current link. */
  predicate LinkCovered(w: World, previous: string) {
    w.live.link != previous ==> w.checkpoint.Some? && w.checkpoint.value.previousRelease == previous
  }

  /** The live target was touched since the log was `t`. */
  ghost predicate TouchedSince(t: seq<Event>, u: seq<Event>) {
    exists i :: |t| <= i < |u| && u[i].Touched?
  }

  predicate AtPhase(w: World, phase: Phase) {
    w.checkpoint.Some? && w.checkpoint.value.phase == phase
  }

  /** The mode a new env file gets, and the text it is made from. */
  function EnvMode(env: Option<EnvFile>): nat {
    if env.Some? then env.value.mode else 384 // 0o600
  }

  function EnvText(env: Option<EnvFile>): string {
    if env.Some? then env.value.bytes else ""
  }

  function PinnedEnv(env: Option<EnvFile>, pin: string): Option<EnvFile> {
    match VersionEnv.Updated(EnvText(env), VersionEnv.NAME, pin)
    case None => None
    case Some(bytes) => Some(EnvFile(bytes, EnvMode(env)))
  }

  class SoftwareExecutor {
    var w: World
    /** The ledger copy and the flag that the gate closure updates. */
    var working: Ledger
    var gateCalled: bool

    ghost predicate Valid()
      reads this
    {
      Held(w)
    }

    constructor (live: Live, checkpoint: Option<Checkpoint>, blank: Ledger)
      ensures Valid() && w == World(None, live, checkpoint, 0, live, [])
    {
      w := World(None, live, checkpoint, 0, live, []);
      working := blank;
      gateCalled := false;
    }

    // --- Durable state ------------------------------------------------------------

    method Report(took: bool) returns (r: Run<bool>)
      ensures r == Finished(true) ==> took
    {
      var crash: bool, reported: bool := *, *;
      return if crash then Crashed else Finished(took && reported);
    }

    /** A command or check that changes nothing modelled here. */
    method Check() returns (r: Run<bool>)
    {
      var passes: bool, crash: bool := *, *;
      return if crash then Crashed else Finished(passes);
    }

    method Save(l: Ledger) returns (r: Run<bool>)
      requires Valid()
      requires LedgerValid(l) ==> MaySave(w, l)
      modifies this`w
      ensures Valid()
      ensures w == old(w) || (LedgerValid(l) && w == SaveLedger(old(w), l))
      ensures r == Finished(true) ==> LedgerValid(l) && w == SaveLedger(old(w), l)
    {
      if !LedgerValid(l) {
        return Finished(false);
      }
      var took: bool := *;
      if took {
        HeldIsInv(w);
        SaveKeepsInv(w, l);
        w := SaveLedger(w, l);
        HeldIsInv(w);
      }
      r := Report(took);
    }

    method SaveCheckpoint(c: Option<Checkpoint>) returns (r: Run<bool>)
      requires Valid()
      modifies this`w
      ensures Valid()
      ensures w == old(w) || w == old(w).(checkpoint := c)
      ensures r == Finished(true) ==> w == old(w).(checkpoint := c)
    {
      var took: bool := *;
      if took {
        HeldIsInv(w);
        w := w.(checkpoint := c);
        HeldIsInv(w);
      }
      r := Report(took);
    }

    /** One attempt to change the live target; the caller says to what. */
    method TouchLive(live: Live) returns (r: Run<bool>)
      requires Valid() && MayTouch(w)
      modifies this`w
      ensures Valid() && MayTouch(w)
      ensures w == Touch(old(w), old(w.live)) || w == Touch(old(w), live)
      ensures r == Finished(true) ==> w == Touch(old(w), live)
    {
      var took: bool := *;
      HeldIsInv(w);
      var to := if took then live else w.live;
      TouchKeepsInv(w, to);
      w := Touch(w, to);
      HeldIsInv(w);
      r := Report(took);
    }

    /** `docker compose up`: whatever it reports, the running image may be any. */
    method Up() returns (r: Run<bool>)
      requires Valid() && MayTouch(w)
      modifies this`w
      ensures Valid() && MayTouch(w)
      ensures w == Touch(old(w), old(w.live).(image := w.live.image))
    {
      var image: Option<string> := *;
      HeldIsInv(w);
      TouchKeepsInv(w, w.live.(image := image));
      w := Touch(w, w.live.(image := image));
      HeldIsInv(w);
      r := Check();
    }

    /** The managed container runs `image` and the health check passes; a success is truthful. */
    method RunsImage(image: Option<string>) returns (r: Run<bool>)
      ensures r == Finished(true) ==> w.live.image == image
    {
      var passes :- Check();
      return Finished(passes && w.live.image == image);
    }

    // --- The grant gate ---------------------------------------------------------------

    /** The closure `executorMutationRequest` hands to the applies. */
    method Gate(op: Operation) returns (r: Run<bool>)
      requires Valid()
      requires Working(w, working) && working.operation == op
      requires op == ApplyOp ==> IsStaged(w)
      modifies this
      ensures Valid()
      ensures Working(w, working)
      ensures old(w.trace) <= w.trace && w.staging == old(w.staging)
      ensures w.live == old(w.live) && w.checkpoint == old(w.checkpoint)
      ensures working == old(working).(state := working.state, result := working.result)
      ensures !gateCalled ==> w == old(w) && working == old(working)
      ensures old(gateCalled) ==> r == Finished(false) && w == old(w) && working == old(working)
      ensures r == Finished(true) ==> gateCalled && MayTouch(w)
      ensures r == Finished(true) && op == ApplyOp ==> Unstarted(w.trace, w.staging)
    {
      if gateCalled {
        return Finished(false);
      }
      var inTime: bool := *;
      if !inTime {
        return Finished(false);
      }
      gateCalled := true;
      working := working.(state := GrantConsuming, result := None);
      r := Authorize(op);
    }

    /** Persist the fence, consume the grant, persist both steps. */
    method Authorize(op: Operation) returns (r: Run<bool>)
      requires Valid()
      requires Working(w, working) && working.operation == op
      requires working.state == GrantConsuming && working.result == None
      requires op == ApplyOp ==> IsStaged(w)
      modifies this`w, this`working
      ensures Valid()
      ensures Working(w, working)
      ensures old(w.trace) <= w.trace && w.staging == old(w.staging)
      ensures w.live == old(w.live) && w.checkpoint == old(w.checkpoint)
      ensures working == old(working).(state := working.state)
      ensures r == Finished(true) ==> MayTouch(w)
      ensures r == Finished(true) && op == ApplyOp ==> Unstarted(w.trace, w.staging)
    {
      if op == ApplyOp {
        HeldIsInv(w);
        StagedMeansNotApplied(w);
      }
      var saved :- Save(working);
      if !saved {
        return Finished(false);
      }
      var consumed :- ConsumeGrant(op);
      if !consumed {
        return Finished(false);
      }
      working := working.(state := GrantConsumed);
      saved :- Save(working);
      if !saved {
        return Finished(false);
      }
      working := working.(state := Mutating);
      saved :- Save(working);
      if !saved {
        return Finished(false);
      }
      assert FencedAt(w.trace, |w.trace| - 3, |w.trace| - 1, w.staging, op);
      return Finished(true);
    }

    method ConsumeGrant(op: Operation) returns (r: Run<bool>)
      requires Valid() && w.ledger.Some? && !IsStaged(w)
      requires op == ApplyOp ==> Ungranted(w.trace, w.staging)
      modifies this`w
      ensures Valid()
      ensures w == old(w) || w == Log(old(w), Granted(old(w.staging), op))
      ensures r == Finished(true) ==> w == Log(old(w), Granted(old(w.staging), op))
    {
      var took: bool := *;
      if took {
        HeldIsInv(w);
        LogKeepsInv(w, Granted(w.staging, op));
        w := Log(w, Granted(w.staging, op));
        HeldIsInv(w);
      }
      r := Report(took);
    }

    method StartApply() returns (r: Run<bool>)
      requires Valid() && MayTouch(w) && Unstarted(w.trace, w.staging)
      modifies this`w
      ensures Valid() && MayTouch(w)
      ensures w == Log(old(w), ApplyStarted(old(w.staging)))
    {
      HeldIsInv(w);
      LogKeepsInv(w, ApplyStarted(w.staging));
      FencedAppend(w.trace, ApplyStarted(w.staging), w.staging, OperationOf(w));
      w := Log(w, ApplyStarted(w.staging));
      HeldIsInv(w);
      r := Check();
    }

    // --- Docker -----------------------------------------------------------------------

    /** `applyDockerWithListenerStore` for a pre-staged image with its mutation gate. */
    method ApplyDocker(stage: Stage) returns (r: Run<Outcome>, restored: bool)
      requires Valid()
      requires Working(w, working) && IsStaged(w) && working.operation == ApplyOp
      modifies this
      ensures Valid() && Working(w, working)
      ensures old(w.trace) <= w.trace && w.staging == old(w.staging)
      ensures working == old(working).(state := working.state, result := working.result)
      ensures !gateCalled ==> w == old(w)
      ensures EnvCovered(w, old(w.live.env))
      ensures r == Finished(Done(ApplyResult(Succeeded, None))) ==>
                && AtPhase(w, PhaseSucceeded)
                && w.live.env == PinnedEnv(old(w.live.env), stage.newPin) && w.live.env.Some?
                && VersionEnv.PinOf(w.live.env.value.bytes) == VersionEnv.ParsePin(stage.newPin)
                && w.live.image == Some(stage.newImage)
      ensures r.Finished? && r.value != Done(ApplyResult(Succeeded, None)) && restored ==>
                w.live.env == old(w.live.env)
      ensures r == Finished(Done(ApplyResult(RolledBack, None))) ==>
                AtPhase(w, PhaseRolledBack) && w.live.image == stage.previousImage
      ensures r.Finished? && r.value.Done? ==> gateCalled && r.value.result.artifact == None
    {
      restored := true;
      var observed :- Check();
      var original := w.live.env;
      if !observed || stage.previousEnv != original || stage.previousImage != w.live.image {
        return Finished(Error), true;
      }
      var pinned := PinnedEnv(original, stage.newPin);
      if pinned.None? {
        return Finished(Error), true;
      }
      var verified :- Check();
      if !verified {
        return Finished(Error), true;
      }
      var authorized :- Gate(ApplyOp);
      if !authorized {
        return Finished(Error), true;
      }
      // Baseline, staged inputs and published ports once more.
      var again :- Check();
      if !again {
        return Finished(Error), true;
      }
      VersionEnv.UpdateThenParse(EnvText(original), stage.newPin);
      r, restored := InstallDocker(stage, original, pinned.value);
    }

    /** The checkpoint, the change, and the deferred restore around it. */
    method InstallDocker(stage: Stage, original: Option<EnvFile>, pinned: EnvFile)
      returns (r: Run<Outcome>, restored: bool)
      requires Valid() && Working(w, working)
      requires MayTouch(w) && Unstarted(w.trace, w.staging)
      requires w.live.env == original
      modifies this`w
      ensures Valid() && Working(w, working)
      ensures old(w.trace) <= w.trace && w.staging == old(w.staging)
      ensures EnvCovered(w, original)
      ensures r == Finished(Done(ApplyResult(Succeeded, None))) ==>
                AtPhase(w, PhaseSucceeded) && w.live.env == Some(pinned) && w.live.image == Some(stage.newImage)
      ensures r.Finished? && r.value != Done(ApplyResult(Succeeded, None)) && restored ==> w.live.env == original
      ensures r == Finished(Done(ApplyResult(RolledBack, None))) ==>
                AtPhase(w, PhaseRolledBack) && w.live.image == stage.previousImage
      ensures r.Finished? && r.value.Done? ==> r.value.result.artifact == None
    {
      restored := true;
      var checkpoint := Checkpoint(working.jobId, Prepared, original, w.live.image, "", "");
      var saved :- SaveCheckpoint(Some(checkpoint));
      if !saved {
        return Finished(Error), true;
      }
      var _ :- StartApply();
      var committed, mutated;
      r, committed, mutated := ChangeDocker(stage, checkpoint, pinned);
      if r.Finished? && !committed {
        restored :- TouchLive(w.live.(env := original));
        if restored && !mutated {
          var _ :- SaveCheckpoint(None);
        }
      }
    }

    /** From the env write to the terminal checkpoint. */
    method ChangeDocker(stage: Stage, checkpoint: Checkpoint, pinned: EnvFile)
      returns (r: Run<Outcome>, committed: bool, mutated: bool)
      requires Valid() && Working(w, working)
      requires MayTouch(w) && w.checkpoint == Some(checkpoint)
      modifies this`w
      ensures Valid() && Working(w, working) && MayTouch(w)
      ensures old(w.trace) <= w.trace && w.staging == old(w.staging)
      ensures w.checkpoint.Some? && w.checkpoint.value.previousEnv == checkpoint.previousEnv
      ensures r.Finished? ==> (committed <==> r.value == Done(ApplyResult(Succeeded, None)))
      ensures committed ==>
                AtPhase(w, PhaseSucceeded) && w.live.env == Some(pinned) && w.live.image == Some(stage.newImage)
      ensures r == Finished(Done(ApplyResult(RolledBack, None))) ==>
                mutated && AtPhase(w, PhaseRolledBack) && w.live.image == stage.previousImage
      ensures r.Finished? && r.value.Done? ==> r.value.result.artifact == None
    {
      committed, mutated := false, false;
      var written :- TouchLive(w.live.(env := Some(pinned)));
      if !written {
        return Finished(Error), false, false;
      }
      var saved :- SaveCheckpoint(Some(checkpoint.(phase := EnvWritten)));
      if !saved {
        return Finished(Error), false, false;
      }
      saved :- SaveCheckpoint(Some(checkpoint.(phase := Starting)));
      if !saved {
        return Finished(Error), false, false;
      }
      var frozen :- Check();
      if !frozen {
        return Finished(Error), false, false;
      }
      mutated := true;
      var healthy :- StartDocker(stage, checkpoint);
      if healthy {
        saved :- SaveCheckpoint(Some(checkpoint.(phase := PhaseSucceeded)));
        if !saved {
          return Finished(Error), false, true;
        }
        return Finished(Done(ApplyResult(Succeeded, None))), true, true;
      }
      r := RollbackDocker(stage, checkpoint);
    }

    /** The service is only started behind a durable `starting` checkpoint. */
    method StartDocker(stage: Stage, checkpoint: Checkpoint) returns (r: Run<bool>)
      requires Valid() && Working(w, working)
      requires MayTouch(w) && w.checkpoint == Some(checkpoint.(phase := Starting))
      modifies this`w
      ensures Valid() && Working(w, working) && MayTouch(w)
      ensures old(w.trace) <= w.trace && w.staging == old(w.staging)
      ensures w.checkpoint.Some? && w.checkpoint.value.previousEnv == checkpoint.previousEnv
      ensures w.live == old(w.live).(image := w.live.image)
      ensures r == Finished(true) ==> w.live.image == Some(stage.newImage)
    {
      var up :- Up();
      if !up {
        return Finished(false);
      }
      var saved :- SaveCheckpoint(Some(checkpoint.(phase := Started)));
      if !saved {
        return Finished(false);
      }
      r := RunsImage(Some(stage.newImage));
    }

    method RollbackDocker(stage: Stage, checkpoint: Checkpoint) returns (r: Run<Outcome>)
      requires Valid() && Working(w, working)
      requires MayTouch(w) && w.checkpoint.Some? && w.checkpoint.value.previousEnv == checkpoint.previousEnv
      modifies this`w
      ensures Valid() && Working(w, working) && MayTouch(w)
      ensures old(w.trace) <= w.trace && w.staging == old(w.staging)
      ensures w.checkpoint.Some? && w.checkpoint.value.previousEnv == checkpoint.previousEnv
      ensures r.Finished? && r.value.Done? ==>
                && r.value == Done(ApplyResult(RolledBack, None)) && AtPhase(w, PhaseRolledBack)
                && w.live.image == stage.previousImage
    {
      var original := checkpoint.previousEnv;
      var bytes := match VersionEnv.Updated("", VersionEnv.NAME, stage.previousPin)
        case Some(text) => text
        case None => "";
      var rollback := if original.Some? then original else Some(EnvFile(bytes, EnvMode(original)));
      var restored :- TouchLive(w.live.(env := rollback));
      if !restored {
        return Finished(Error);
      }
      var prepared :- Check();
      if !prepared {
        return Finished(Error);
      }
      var up :- Up();
      if !up {
        return Finished(Error);
      }
      var runs :- RunsImage(stage.previousImage);
      if !runs {
        return Finished(Error);
      }
      var saved :- SaveCheckpoint(Some(checkpoint.(phase := PhaseRolledBack)));
      return Finished(if saved then Done(ApplyResult(RolledBack, None)) else Error);
    }

    // --- systemd ------------------------------------------------------------------------

    /** `applyRemoteStagedSystemdWithVerifier` */
    method ApplySystemd(stage: Stage) returns (r: Run<Outcome>)
      requires Valid()
      requires Working(w, working) && IsStaged(w) && working.operation == ApplyOp
      modifies this
      ensures Valid() && Working(w, working)
      ensures old(w.trace) <= w.trace && w.staging == old(w.staging)
      ensures working == old(working).(state := working.state, result := working.result)
      ensures !gateCalled ==> w == old(w)
      ensures LinkCovered(w, old(w.live.link))
      ensures r == Finished(Done(ApplyResult(Succeeded, None))) ==>
                AtPhase(w, PhaseSucceeded) && w.live.link == stage.newRelease
      ensures r == Finished(Done(ApplyResult(RolledBack, None))) ==>
                AtPhase(w, PhaseRolledBack) && w.live.link == old(w.live.link)
      ensures r.Finished? && r.value.Done? ==> gateCalled && r.value.result.artifact == None
    {
      var verified :- Check();
      if !verified || w.live.link != stage.previousRelease {
        return Finished(Error);
      }
      var found := w.checkpoint;
      if found.Some? && found.value.phase != PhaseSucceeded && found.value.phase != PhaseRolledBack {
        return Finished(Error);
      }
      var authorized :- Gate(ApplyOp);
      if !authorized {
        return Finished(Error);
      }
      // The checkpoint and the baseline once more.
      var again :- Check();
      if !again {
        return Finished(Error);
      }
      if found.Some? {
        var cleared :- SaveCheckpoint(None);
        if !cleared {
          return Finished(Error);
        }
      }
      var installed :- Check();
      if !installed {
        return Finished(Error);
      }
      r := CommitSystemd(stage);
    }

    /** `commitRemoteSystemdMutation` */
    method CommitSystemd(stage: Stage) returns (r: Run<Outcome>)
      requires Valid() && Working(w, working)
      requires MayTouch(w) && Unstarted(w.trace, w.staging)
      requires w.live.link == stage.previousRelease
      modifies this`w
      ensures Valid() && Working(w, working)
      ensures old(w.trace) <= w.trace && w.staging == old(w.staging)
      ensures LinkCovered(w, stage.previousRelease)
      ensures TouchedSince(old(w.trace), w.trace) ==>
                w.checkpoint.Some? && w.checkpoint.value.previousRelease == stage.previousRelease
      ensures r == Finished(Done(ApplyResult(Succeeded, None))) ==>
                AtPhase(w, PhaseSucceeded) && w.live.link == stage.newRelease
      ensures r == Finished(Done(ApplyResult(RolledBack, None))) ==>
                AtPhase(w, PhaseRolledBack) && w.live.link == stage.previousRelease
      ensures r.Finished? && r.value.Done? ==> r.value.result.artifact == None
    {
      var checkpoint := Checkpoint(working.jobId, Prepared, None, None, stage.previousRelease, stage.newRelease);
      var saved :- SaveCheckpoint(Some(checkpoint));
      if !saved {
        return Finished(Error);
      }
      var _ :- StartApply();
      var stopped :- TouchLive(w.live);
      if !stopped {
        return Finished(Error);
      }
      saved :- SaveCheckpoint(Some(checkpoint.(phase := Stopped)));
      if !saved {
        var _ :- TouchLive(w.live);
        return Finished(Error);
      }
      r := SwitchSystemd(stage, checkpoint);
    }

    /** The link is only switched behind a durable `stopped` checkpoint. */
    method SwitchSystemd(stage: Stage, checkpoint: Checkpoint) returns (r: Run<Outcome>)
      requires Valid() && Working(w, working) && MayTouch(w)
      requires w.checkpoint == Some(checkpoint.(phase := Stopped))
      requires w.live.link == checkpoint.previousRelease == stage.previousRelease
      modifies this`w
      ensures Valid() && Working(w, working)
      ensures old(w.trace) <= w.trace && w.staging == old(w.staging)
      ensures w.checkpoint.Some? && w.checkpoint.value.previousRelease == stage.previousRelease
      ensures r == Finished(Done(ApplyResult(Succeeded, None))) ==>
                AtPhase(w, PhaseSucceeded) && w.live.link == stage.newRelease
      ensures r == Finished(Done(ApplyResult(RolledBack, None))) ==>
                AtPhase(w, PhaseRolledBack) && w.live.link == stage.previousRelease
      ensures r.Finished? && r.value.Done? ==> r.value.result.artifact == None
    {
      var switched :- TouchLive(w.live.(link := stage.newRelease));
      if !switched {
        var _ :- TouchLive(w.live);
        return Finished(Error);
      }
      var saved :- SaveCheckpoint(Some(checkpoint.(phase := Switched)));
      if !saved {
        return Finished(Error);
      }
      var started :- TouchLive(w.live);
      saved :- SaveCheckpoint(Some(checkpoint.(phase := Started)));
      var healthy :- Check();
      if started && saved && healthy {
        saved :- SaveCheckpoint(Some(checkpoint.(phase := PhaseSucceeded)));
        return Finished(if saved then Done(ApplyResult(Succeeded, None)) else Error);
      }
      r := RollbackSystemd(stage, checkpoint);
    }

    /** `rollbackSystemd` and the record of its success. */
    method RollbackSystemd(stage: Stage, checkpoint: Checkpoint) returns (r: Run<Outcome>)
      requires Valid() && Working(w, working) && MayTouch(w)
      requires w.checkpoint.Some? && w.checkpoint.value.previousRelease == checkpoint.previousRelease
      requires checkpoint.previousRelease == stage.previousRelease
      modifies this`w
      ensures Valid() && Working(w, working)
      ensures old(w.trace) <= w.trace && w.staging == old(w.staging)
      ensures w.checkpoint.Some? && w.checkpoint.value.previousRelease == stage.previousRelease
      ensures r.Finished? && r.value.Done? ==>
                && r.value == Done(ApplyResult(RolledBack, None)) && AtPhase(w, PhaseRolledBack)
                && w.live.link == stage.previousRelease
    {
      var stopped :- TouchLive(w.live);
      if !stopped {
        return Finished(Error);
      }
      var switched :- TouchLive(w.live.(link := stage.previousRelease));
      if !switched {
        return Finished(Error);
      }
      var started :- TouchLive(w.live);
      if !started {
        return Finished(Error);
      }
      var healthy :- Check();
      if !healthy {
        return Finished(Error);
      }
      var saved :- SaveCheckpoint(Some(checkpoint.(phase := PhaseRolledBack)));
      return Finished(if saved then Done(ApplyResult(RolledBack, None)) else Error);
    }

    // --- Requests -------------------------------------------------------------------------

    /** Reconcile of the live target after the gate: any number of touches, any verdict. */
    method ReconcileLive() returns (r: Run<Outcome>)
      requires Valid() && Working(w, working) && MayTouch(w)
      modifies this`w
      ensures Valid() && Working(w, working)
      ensures old(w.trace) <= w.trace && w.staging == old(w.staging)
    {
      var steps: int := *;
      while steps > 0
        invariant Valid() && Working(w, working) && MayTouch(w)
        invariant old(w.trace) <= w.trace && w.staging == old(w.staging)
      {
        var live: Live, checkpoint: Option<Checkpoint> := *, *;
        var _ :- TouchLive(live);
        var _ :- SaveCheckpoint(checkpoint);
        steps := steps - 1;
      }
      var outcome: Outcome := *;
      return Finished(outcome);
    }

    /** `executorStageRequest`: a new staging only over an absent or another job's terminal ledger. */
    method StageRequest(plan: MutationPlan) returns (r: Run<bool>)
      requires Valid()
      modifies this`w
      ensures Valid()
      ensures old(w.trace) <= w.trace
      ensures old(w.ledger.Some? && (w.ledger.value.jobId == plan.jobId || w.ledger.value.state != Terminal)) ==>
                w == old(w)
    {
      if w.ledger.Some? {
        var l := w.ledger.value;
        if l.jobId == plan.jobId && l.planSha != plan.planSha {
          return Finished(false);
        }
        if l.jobId == plan.jobId {
          var usable :- Check();
          return Finished(l.state == Staged && usable);
        }
        if l.state != Terminal {
          return Finished(false);
        }
      }
      var prepared :- Check();
      if !prepared {
        return Finished(false);
      }
      var stage: Stage := *;
      var record := Ledger(plan.jobId, plan.planSha, plan.sessionId, plan.lease, plan.intent,
                           StageOp, Staged, stage, None);
      if !LedgerValid(record) {
        return Finished(false);
      }
      var took: bool := *;
      if took {
        HeldIsInv(w);
        StageKeepsInv(w, record);
        w := StageLedger(w, record);
        HeldIsInv(w);
      }
      r := Report(took);
    }

    /** `executorMutationRequest` */
    method Mutation(plan: MutationPlan, op: Operation) returns (r: Run<Option<ApplyResult>>)
      requires Valid()
      modifies this
      ensures Valid()
      ensures old(w.trace) <= w.trace
      ensures r.Finished? && r.value.Some? ==> IsTerminal(w) && w.ledger.value.jobId == plan.jobId
    {
      if w.ledger.None? || RequestFailure(w.ledger.value, plan, op) != "" {
        return Finished(None);
      }
      PassingRequest(w.ledger.value, plan, op);
      var l := w.ledger.value;
      if l.state == Terminal {
        HeldIsInv(w);
        return Finished(BindResult(plan, l.result.value));
      }
      var usable :- Check();
      if !usable || (op == ApplyOp && l.state != Staged) {
        return Finished(None);
      }
      if op == ReconcileOp && l.state == Staged {
        r := AnswerNotApplied(plan);
        return;
      }
      HeldIsInv(w);
      working := l.(operation := op, sessionId := plan.sessionId, planSha := plan.planSha, lease := plan.lease);
      gateCalled := false;
      var outcome :- Mutate(op);
      r := Settle(plan, outcome);
    }

    /** Reconcile from `staged`: record that nothing was applied. */
    method AnswerNotApplied(plan: MutationPlan) returns (r: Run<Option<ApplyResult>>)
      requires Valid() && IsStaged(w)
      requires RequestFailure(w.ledger.value, plan, ReconcileOp) == ""
      modifies this`w
      ensures Valid()
      ensures old(w.trace) <= w.trace
      ensures r.Finished? && r.value.Some? ==>
                && IsTerminal(w) && w.ledger.value.jobId == plan.jobId
                && w.live == w.atStaging && Untouched(w.trace, w.staging)
    {
      HeldIsInv(w);
      StagedMeansNotApplied(w);
      PassingRequest(w.ledger.value, plan, ReconcileOp);
      var result := BindResult(plan, ApplyResult(RolledBack, None));
      var terminal := w.ledger.value.(
        operation := ReconcileOp, sessionId := plan.sessionId, state := Terminal, result := result,
        planSha := plan.planSha, lease := plan.lease);
      var saved :- Save(terminal);
      if !saved {
        return Finished(None);
      }
      HeldIsInv(w);
      LogKeepsInv(w, AnsweredNotApplied(w.staging));
      w := Log(w, AnsweredNotApplied(w.staging));
      HeldIsInv(w);
      return Finished(result);
    }

    /** The apply or the reconcile proper. */
    method Mutate(op: Operation) returns (r: Run<Outcome>)
      requires Valid() && Working(w, working) && !gateCalled && working.operation == op
      requires op == ApplyOp || op == ReconcileOp
      requires op == ApplyOp <==> IsStaged(w)
      modifies this
      ensures Valid() && Working(w, working)
      ensures old(w.trace) <= w.trace
      ensures working == old(working).(state := working.state, result := working.result)
      ensures !gateCalled ==> w == old(w)
      ensures r.Finished? && r.value.Done? ==> gateCalled
    {
      if op == ApplyOp {
        if working.intent.mode == Systemd {
          r := ApplySystemd(working.stage);
        } else {
          var restored;
          r, restored := ApplyDocker(working.stage);
        }
      } else {
        var authorized :- Gate(ReconcileOp);
        if !authorized {
          return Finished(Error);
        }
        r := ReconcileLive();
      }
    }

    /** The durable verdict after the apply or reconcile returned. */
    method Settle(plan: MutationPlan, outcome: Outcome) returns (r: Run<Option<ApplyResult>>)
      requires Valid() && Working(w, working) && working.jobId == plan.jobId
      modifies this
      ensures Valid()
      ensures old(w.trace) <= w.trace
      ensures r.Finished? && r.value.Some? ==> IsTerminal(w) && w.ledger.value.jobId == plan.jobId
    {
      var bound := if outcome.Error? then None else BindResult(plan, outcome.result);
      if bound.None? {
        if gateCalled {
          working := working.(state := Ambiguous, result := None);
          var _ :- Save(working);
        }
        return Finished(None);
      }
      working := working.(state := Terminal, result := bound);
      var saved :- Save(working);
      return Finished(if saved then bound else None);
    }

    /** Any run of requests, each of which may crash and is followed by a restart. */
    method Serve(plans: seq<MutationPlan>, ops: seq<Operation>)
      requires Valid() && |plans| == |ops|
      modifies this
      ensures Safe(w.trace)
      ensures IsStaged(w) ==> w.live == w.atStaging && Untouched(w.trace, w.staging)
      ensures old(w.trace) <= w.trace
    {
      for i := 0 to |plans|
        invariant Valid()
        invariant old(w.trace) <= w.trace
      {
        if ops[i] == StageOp {
          var _ := StageRequest(plans[i]);
        } else {
          var _ := Mutation(plans[i], ops[i]);
        }
      }
      HeldIsInv(w);
      SafeHeldIsSafe(w.trace);
    }
  }
}
