/**
 * The software mutation ledger of one target: records, request fences, the events of a
 * run and the safety every reachable state keeps (executor_mutation_ledger.go,
 * executor_mutation_result.go, executor_stage_request.go, executor_mutation_dispatch.go).
 *
 * A target's ledger file remembers only its latest job, so uniqueness is stated per
 * staging: each durable `staged` record starts a new, numbered staging.
 */
module SoftwareLedger {
  import opened Basics

  // --- Records --------------------------------------------------------------------

  datatype Mode = Docker | Systemd

  /** The immutable part of a plan; `rest` stands for the fields only compared for equality. */
  datatype Intent = Intent(mode: Mode, currentVersion: string, targetVersion: string, artifact: string, rest: string)

  datatype MutationPlan = MutationPlan(jobId: string, intent: Intent, planSha: string, sessionId: string, lease: nat)

  datatype Operation = StageOp | ApplyOp | ReconcileOp

  datatype EnvFile = EnvFile(bytes: string, mode: nat)

  /** The inputs a stage was prepared against. */
  datatype Stage = Stage(
    previousEnv: Option<EnvFile>, previousImage: Option<string>, previousPin: string, newPin: string, newImage: string,
    previousRelease: string, newRelease: string)

  datatype Status = Succeeded | RolledBack

  datatype ApplyResult = ApplyResult(status: Status, artifact: Option<string>)

  datatype LedgerState = Staged | GrantConsuming | GrantConsumed | Mutating | Ambiguous | Terminal

  datatype Ledger = Ledger(jobId: string, planSha: string, sessionId: string, lease: nat, intent: Intent,
                           operation: Operation, state: LedgerState, stage: Stage, result: Option<ApplyResult>)

  /** `executorMutationLedger.validate` (identifier and digest syntax is not modelled). */
  predicate LedgerValid(l: Ledger) {
    && l.lease > 0
    && (l.state == Staged ==> l.operation == StageOp)
    && (l.result.Some? <==> l.state == Terminal)
  }

  /** `remoteLedgerRequestFailure`: the empty string lets the request pass. */
  function RequestFailure(l: Ledger, plan: MutationPlan, op: Operation): string {
    if l.jobId != plan.jobId then
      if l.state != Terminal then "reconcile_required" else "stage_required"
    else if l.intent != plan.intent then "plan_conflict"
    else
      match op
      case ApplyOp =>
        if l.planSha != plan.planSha || l.sessionId != plan.sessionId || l.lease != plan.lease then "plan_conflict"
        else ""
      case ReconcileOp => if plan.lease < l.lease then "plan_conflict" else ""
      case StageOp => "invalid_request"
  }

  /** `bindRemoteApplyResult`: a result without a digest takes the plan's, a different digest is refused. */
  function BindResult(plan: MutationPlan, r: ApplyResult): Option<ApplyResult> {
    if plan.intent.artifact == "" || (r.artifact.Some? && r.artifact.value != plan.intent.artifact) then None
    else Some(r.(artifact := Some(plan.intent.artifact)))
  }

  /** A passing request names the ledger's own job and intent and does not lower its lease. */
  lemma PassingRequest(l: Ledger, plan: MutationPlan, op: Operation)
    requires RequestFailure(l, plan, op) == ""
    ensures l.jobId == plan.jobId && l.intent == plan.intent && l.lease <= plan.lease
    ensures op == ApplyOp ==> l.lease == plan.lease && l.planSha == plan.planSha && l.sessionId == plan.sessionId
  {
  }

  // --- The host -----------------------------------------------------------------------

  datatype Phase = Prepared | EnvWritten | Stopped | Switched | Starting | Started | PhaseSucceeded | PhaseRolledBack

  /** `updateCheckpoint`: what a rollback needs, for either deployment mode. */
  datatype Checkpoint = Checkpoint(jobId: string, phase: Phase, previousEnv: Option<EnvFile>,
                                   previousImage: Option<string>, previousRelease: string, newRelease: string)

  /** The live target: version env file and running image (Docker), current link (systemd). */
  datatype Live = Live(env: Option<EnvFile>, image: Option<string>, link: string)

  datatype Event =
    | Saved(staging: nat, ledger: Ledger)
    | Granted(staging: nat, op: Operation)
    | ApplyStarted(staging: nat)
    | Touched(staging: nat, op: Operation)
    | AnsweredNotApplied(staging: nat)

  /** `atStaging` remembers the live target when the current staging became durable. */
  datatype World = World(ledger: Option<Ledger>, live: Live, checkpoint: Option<Checkpoint>,
                         staging: nat, atStaging: Live, trace: seq<Event>)

  // --- Safety, stated on the log alone --------------------------------------------------

  /** Staging numbers never fall along the log. */
  ghost predicate Numbered(t: seq<Event>) {
    forall i, j :: 0 <= i < j < |t| ==> t[i].staging <= t[j].staging
  }

  /** What a later save of the same staging keeps of an earlier one. */
  predicate Continues(l: Ledger, m: Ledger) {
    && m.jobId == l.jobId && m.intent == l.intent && m.stage == l.stage
    && l.lease <= m.lease
    && m.state != Staged && l.state != Terminal
  }

  /**
   * Within a staging only the first save is `staged`, nothing follows a terminal save,
   * job and intent stay, and the lease generation never falls.
   */
  ghost predicate SavesContinue(t: seq<Event>) {
    forall i, j :: 0 <= i < j < |t| && t[i].Saved? && t[j].Saved? && t[i].staging == t[j].staging ==>
                     Continues(t[i].ledger, t[j].ledger)
  }

  /** Two successive stagings name different jobs, so a staging is one whole tenure of its job. */
  ghost predicate JobsAlternate(t: seq<Event>) {
    forall i, j :: 0 <= i < j < |t| && t[i].Saved? && t[j].Saved? && t[j].staging == t[i].staging + 1 ==>
                     t[i].ledger.jobId != t[j].ledger.jobId
  }

  predicate IsApplyGrant(e: Event) {
    e.Granted? && e.op == ApplyOp
  }

  /** A staging consumes at most one apply grant and starts at most one live apply. */
  ghost predicate AppliesOnce(t: seq<Event>) {
    && (forall i, j :: 0 <= i < j < |t| && IsApplyGrant(t[i]) && IsApplyGrant(t[j]) ==> t[i].staging != t[j].staging)
    && (forall i, j :: 0 <= i < j < |t| && t[i].ApplyStarted? && t[j].ApplyStarted? ==> t[i].staging != t[j].staging)
  }

  ghost predicate FencedAt(t: seq<Event>, g: nat, s: nat, staging: nat, op: Operation) {
    && g < s < |t| && t[g] == Granted(staging, op)
    && t[s].Saved? && t[s].staging == staging && t[s].ledger.state == Mutating && t[s].ledger.operation == op
  }

  /** A grant for the operation was consumed, and after that its `mutating` record was saved. */
  ghost predicate Fenced(t: seq<Event>, staging: nat, op: Operation) {
    exists g: nat, s: nat :: FencedAt(t, g, s, staging, op)
  }

  /** The live target is only touched behind a consumed grant and a durable `mutating` record. */
  ghost predicate TouchesFenced(t: seq<Event>) {
    forall i :: 0 <= i < |t| && t[i].Touched? ==> Fenced(t[..i], t[i].staging, t[i].op)
  }

  ghost predicate Untouched(t: seq<Event>, staging: nat) {
    forall i :: 0 <= i < |t| && t[i].Touched? ==> t[i].staging != staging
  }

  /** The answer "not applied" is true: the staging never touched the live target. */
  ghost predicate NotAppliedTrue(t: seq<Event>) {
    forall i :: 0 <= i < |t| && t[i].AnsweredNotApplied? ==> Untouched(t, t[i].staging)
  }

  ghost predicate Safe(t: seq<Event>) {
    && Numbered(t) && SavesContinue(t) && JobsAlternate(t) && AppliesOnce(t)
    && TouchesFenced(t) && NotAppliedTrue(t)
  }

  /** `Safe`, folded: a proof that only passes it along does not unfold it. */
  ghost predicate SafeHeld(t: seq<Event>) {
    forall k {:trigger Look(k)} :: Look(k) ==> Safe(t)
  }

  lemma SafeHeldIsSafe(t: seq<Event>)
    ensures SafeHeld(t) <==> Safe(t)
  {
    assert Look(0);
  }

  // --- The inductive invariant --------------------------------------------------------------

  predicate IsStaged(w: World) {
    w.ledger.Some? && w.ledger.value.state == Staged
  }

  predicate IsTerminal(w: World) {
    w.ledger.Some? && w.ledger.value.state == Terminal
  }

  /** The durable ledger continues every save of the current staging. */
  ghost predicate LedgerIsLatest(w: World) {
    forall i :: 0 <= i < |w.trace| && w.trace[i].Saved? && w.trace[i].staging == w.staging ==>
                  && w.ledger.Some?
                  && (w.ledger.value == w.trace[i].ledger || Continues(w.trace[i].ledger, w.ledger.value))
  }

  /** While the durable state is `staged`, nothing was granted for, started or touched. */
  ghost predicate StagedIsFresh(w: World) {
    IsStaged(w) ==>
      && w.live == w.atStaging
      && forall i :: 0 <= i < |w.trace| && w.trace[i].staging == w.staging ==> w.trace[i].Saved?
  }

  ghost predicate AnswersFinal(w: World) {
    forall i :: 0 <= i < |w.trace| && w.trace[i].AnsweredNotApplied? && w.trace[i].staging == w.staging ==>
                  IsTerminal(w)
  }

  /** The job before the current one was another. */
  ghost predicate PreviousDiffers(w: World) {
    forall i :: 0 <= i < |w.trace| && w.trace[i].Saved? && w.trace[i].staging + 1 == w.staging ==>
                  w.ledger.Some? && w.trace[i].ledger.jobId != w.ledger.value.jobId
  }

  /** How the durable ledger and the log hang together. */
  ghost predicate Tracks(w: World) {
    && (forall i :: 0 <= i < |w.trace| ==> w.trace[i].staging <= w.staging)
    && LedgerIsLatest(w) && StagedIsFresh(w) && AnswersFinal(w) && PreviousDiffers(w)
  }

  ghost predicate Inv(w: World) {
    (w.ledger.Some? ==> LedgerValid(w.ledger.value)) && Tracks(w) && SafeHeld(w.trace)
  }

  /** The invariant, folded; `HeldIsInv` unfolds it. */
  ghost predicate Held(w: World) {
    forall k {:trigger Look(k)} :: Look(k) ==> Inv(w)
  }

  lemma HeldIsInv(w: World)
    ensures Held(w) <==> Inv(w)
  {
    assert Look(0);
  }

  // --- Effects ---------------------------------------------------------------------------------

  function Log(w: World, e: Event): World {
    w.(trace := w.trace + [e])
  }

  /** A durable `staged` record opens the next staging. */
  function StageLedger(w: World, l: Ledger): World {
    Log(w, Saved(w.staging + 1, l)).(ledger := Some(l), staging := w.staging + 1, atStaging := w.live)
  }

  function SaveLedger(w: World, l: Ledger): World {
    Log(w, Saved(w.staging, l)).(ledger := Some(l))
  }

  function OperationOf(w: World): Operation {
    if w.ledger.Some? then w.ledger.value.operation else StageOp
  }

  function Touch(w: World, live: Live): World {
    Log(w, Touched(w.staging, OperationOf(w))).(live := live)
  }

  // --- Guards -------------------------------------------------------------------------------------

  ghost predicate MaySave(w: World, l: Ledger) {
    w.ledger.Some? && LedgerValid(l) && Continues(w.ledger.value, l)
  }

  /** Open, past the `mutating` record, so that the live target may be touched. */
  ghost predicate MayTouch(w: World) {
    w.ledger.Some? && !IsStaged(w) && !IsTerminal(w) && Fenced(w.trace, w.staging, OperationOf(w))
  }

  ghost predicate Unstarted(t: seq<Event>, staging: nat) {
    forall i :: 0 <= i < |t| && t[i].ApplyStarted? ==> t[i].staging != staging
  }

  ghost predicate Ungranted(t: seq<Event>, staging: nat) {
    forall i :: 0 <= i < |t| && IsApplyGrant(t[i]) ==> t[i].staging != staging
  }

  // --- Guarded effects keep the invariant ---------------------------------------------------------------

  /** What the log must already say for `e` to be a safe next event. */
  ghost predicate Admissible(t: seq<Event>, e: Event) {
    && (forall i :: 0 <= i < |t| ==> t[i].staging <= e.staging)
    && match e
       case Saved(n, l) =>
         && (forall i :: 0 <= i < |t| && t[i].Saved? && t[i].staging == n ==> Continues(t[i].ledger, l))
         && (forall i :: 0 <= i < |t| && t[i].Saved? && t[i].staging + 1 == n ==> t[i].ledger.jobId != l.jobId)
       case Granted(n, op) => op == ApplyOp ==> Ungranted(t, n)
       case ApplyStarted(n) => Unstarted(t, n)
       case Touched(n, op) =>
         Fenced(t, n, op) && forall i :: 0 <= i < |t| && t[i].AnsweredNotApplied? ==> t[i].staging != n
       case AnsweredNotApplied(n) => Untouched(t, n)
  }

  lemma TouchesFencedAppend(t: seq<Event>, e: Event)
    requires TouchesFenced(t)
    requires e.Touched? ==> Fenced(t, e.staging, e.op)
    ensures TouchesFenced(t + [e])
  {
    var u := t + [e];
    forall i | 0 <= i < |u| && u[i].Touched? ensures Fenced(u[..i], u[i].staging, u[i].op) {
      assert u[..i] == t[..i];
      assert t[..|t|] == t;
    }
  }

  lemma SavesContinueAppend(t: seq<Event>, e: Event)
    requires SavesContinue(t) && Admissible(t, e)
    ensures SavesContinue(t + [e])
  {
  }

  lemma JobsAlternateAppend(t: seq<Event>, e: Event)
    requires JobsAlternate(t) && Admissible(t, e)
    ensures JobsAlternate(t + [e])
  {
  }

  lemma AppliesOnceAppend(t: seq<Event>, e: Event)
    requires AppliesOnce(t) && Admissible(t, e)
    ensures AppliesOnce(t + [e])
  {
  }

  lemma NotAppliedAppend(t: seq<Event>, e: Event)
    requires NotAppliedTrue(t) && Admissible(t, e)
    ensures NotAppliedTrue(t + [e])
  {
    var u := t + [e];
    forall i | 0 <= i < |u| && u[i].AnsweredNotApplied? ensures Untouched(u, u[i].staging) {
      assert i < |t| ==> Untouched(t, t[i].staging);
    }
  }

  lemma SafeAppend(t: seq<Event>, e: Event)
    requires Safe(t) && Admissible(t, e)
    ensures Safe(t + [e])
  {
    TouchesFencedAppend(t, e);
    SavesContinueAppend(t, e);
    JobsAlternateAppend(t, e);
    AppliesOnceAppend(t, e);
    NotAppliedAppend(t, e);
  }

  lemma SafeHeldAppend(t: seq<Event>, e: Event)
    requires SafeHeld(t) && Admissible(t, e)
    ensures SafeHeld(t + [e])
  {
    SafeHeldIsSafe(t);
    SafeAppend(t, e);
    SafeHeldIsSafe(t + [e]);
  }

  lemma FencedAppend(t: seq<Event>, e: Event, staging: nat, op: Operation)
    requires Fenced(t, staging, op)
    ensures Fenced(t + [e], staging, op)
  {
    var g: nat, s: nat :| FencedAt(t, g, s, staging, op);
    assert FencedAt(t + [e], g, s, staging, op);
  }

  /** A staging may follow an absent ledger or another job's terminal one. */
  predicate MayStage(w: World, l: Ledger) {
    && (w.ledger.Some? ==> IsTerminal(w) && w.ledger.value.jobId != l.jobId)
    && LedgerValid(l) && l.state == Staged
  }

  /** No event belongs to a staging that has not begun. */
  lemma StageKeepsTracks(w: World, l: Ledger)
    requires Tracks(w) && MayStage(w, l)
    ensures Tracks(StageLedger(w, l))
  {
    var v := StageLedger(w, l);
    assert forall i :: 0 <= i < |v.trace| && v.trace[i].staging == v.staging ==> i == |w.trace|;
  }

  lemma StageIsAdmissible(w: World, l: Ledger)
    requires Tracks(w) && MayStage(w, l)
    ensures Admissible(w.trace, Saved(w.staging + 1, l))
  {
  }

  lemma StageKeepsInv(w: World, l: Ledger)
    requires Inv(w) && MayStage(w, l)
    ensures Inv(StageLedger(w, l))
  {
    StageKeepsTracks(w, l);
    StageIsAdmissible(w, l);
    SafeHeldAppend(w.trace, Saved(w.staging + 1, l));
  }

  lemma SaveKeepsTracks(w: World, l: Ledger)
    requires Tracks(w) && MaySave(w, l)
    ensures Tracks(SaveLedger(w, l))
  {
  }

  lemma SaveIsAdmissible(w: World, l: Ledger)
    requires Tracks(w) && MaySave(w, l)
    ensures Admissible(w.trace, Saved(w.staging, l))
  {
  }

  lemma SaveKeepsInv(w: World, l: Ledger)
    requires Inv(w) && MaySave(w, l)
    ensures Inv(SaveLedger(w, l))
  {
    SaveKeepsTracks(w, l);
    SaveIsAdmissible(w, l);
    SafeHeldAppend(w.trace, Saved(w.staging, l));
  }

  /** An event other than a save, while the durable state is not `staged`. */
  lemma LogKeepsInv(w: World, e: Event)
    requires Inv(w) && w.ledger.Some? && !IsStaged(w)
    requires !e.Saved? && e.staging == w.staging && Admissible(w.trace, e)
    requires e.AnsweredNotApplied? ==> IsTerminal(w)
    ensures Inv(Log(w, e))
  {
    SafeHeldAppend(w.trace, e);
  }

  lemma TouchKeepsInv(w: World, live: Live)
    requires Inv(w) && MayTouch(w)
    ensures Inv(Touch(w, live)) && MayTouch(Touch(w, live))
  {
    var e := Touched(w.staging, OperationOf(w));
    LogKeepsInv(w, e);
    FencedAppend(w.trace, e, w.staging, OperationOf(w));
  }

  /**
   * Reconcile from `staged`: no event of the staging touched the live target, and the
   * target is exactly what it was when the staging became durable.
   */
  lemma StagedMeansNotApplied(w: World)
    requires Inv(w) && IsStaged(w)
    ensures Untouched(w.trace, w.staging) && Ungranted(w.trace, w.staging) && Unstarted(w.trace, w.staging)
    ensures w.live == w.atStaging
  {
  }
}
