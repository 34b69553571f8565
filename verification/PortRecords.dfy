/**
 * The applied records of a run under one policy: every record that is ever written is
 * accepted by the resolver, and as long as no Stage was cut the endpoint revisions strictly
 * rise along the log (docker_port_reconfigure.go, docker_port_execution.go,
 * docker_port_commit.go, docker_port_recovery.go).
 */
module PortRecords {
  import opened Basics
  import opened PortLedger
  import opened PortProtocol

  /** One policy and its entry for the target. */
  datatype Scope = Scope(policy: Policy, target: Target)

  // --- Stated on the log ------------------------------------------------------------

  predicate Accepted(sc: Scope, a: AppliedState) {
    ValidateForPolicy(a, sc.policy, sc.target) == Overlay
  }

  ghost predicate RecordsAccepted(t: seq<Event>, sc: Scope) {
    forall i :: 0 <= i < |t| && t[i].AppliedSaved? ==> Accepted(sc, t[i].applied)
  }

  /** `b` is the same record as `a`, or has a strictly newer endpoint revision. */
  predicate NotOlder(a: AppliedState, b: AppliedState) {
    a == b || a.endpointRevision < b.endpointRevision
  }

  ghost predicate RecordsRise(t: seq<Event>) {
    forall i, j :: 0 <= i < j < |t| && t[i].AppliedSaved? && t[j].AppliedSaved? ==>
                     NotOlder(t[i].applied, t[j].applied)
  }

  /** A record is older than the one it replaces only if its writer's Stage was cut. */
  ghost predicate FallsOnlyByCut(t: seq<Event>) {
    forall i :: 0 <= i < |t| && t[i].AppliedSaved? && t[i].replaced.Some? ==>
                  NotOlder(t[i].replaced.value, t[i].applied) || NeverActive(t, t[i].job)
  }

  // --- The inductive invariant ----------------------------------------------------------

  predicate HasRecord(l: Ledger) {
    LedgerValid(l) && l.result.Some? && l.result.value.kind != RollbackFailed
  }

  /** The endpoint revision the resolver yields for an accepted record. */
  function Endpoint(sc: Scope, applied: Option<AppliedState>): int {
    if applied.Some? then applied.value.endpointRevision else sc.target.endpointRevision
  }

  /** The ledger's record already stands, or is newer than what stands. */
  predicate Ahead(sc: Scope, applied: Option<AppliedState>, l: Ledger)
    requires HasRecord(l)
  {
    applied == Some(RecordOf(l)) || Endpoint(sc, applied) < RecordOf(l).endpointRevision
  }

  ghost predicate LedgersAccepted(w: World, sc: Scope) {
    forall job :: job in w.ledgers && HasRecord(w.ledgers[job]) ==> Accepted(sc, RecordOf(w.ledgers[job]))
  }

  /** The standing record is the newest of the log. */
  ghost predicate StandsNewest(w: World) {
    forall i :: 0 <= i < |w.trace| && w.trace[i].AppliedSaved? ==>
                  w.applied.Some? && NotOlder(w.trace[i].applied, w.applied.value)
  }

  predicate Commits(w: World, job: JobId) {
    job in w.ledgers && HasRecord(w.ledgers[job]) && w.ledgers[job].state == Committing
  }

  ghost predicate CommitsAhead(w: World, sc: Scope) {
    forall job :: Commits(w, job) ==> Ahead(sc, w.applied, w.ledgers[job])
  }

  /** The active job's commit is newer than what stands, or stands already. */
  ghost predicate ActiveAhead(w: World, sc: Scope) {
    w.active.Some? && Commits(w, w.active.value) ==> Ahead(sc, w.applied, w.ledgers[w.active.value])
  }

  ghost predicate Within(w: World, sc: Scope) {
    && RecordsAccepted(w.trace, sc) && FallsOnlyByCut(w.trace) && ActiveAhead(w, sc)
    && (w.applied.Some? ==> Accepted(sc, w.applied.value))
    && LedgersAccepted(w, sc)
    && (StagesComplete(w.trace) ==> RecordsRise(w.trace) && StandsNewest(w) && CommitsAhead(w, sc))
  }

  /** The invariant of a run under one policy, if it is one, folded; `KeptIsWithin` unfolds it. */
  ghost predicate Kept(w: World, scope: Option<Scope>) {
    forall k {:trigger Look(k)} :: Look(k) ==> (scope.Some? ==> Within(w, scope.value))
  }

  lemma KeptIsWithin(w: World, scope: Option<Scope>)
    ensures Kept(w, scope) <==> (scope.Some? ==> Within(w, scope.value))
  {
    assert Look(0);
  }

  /** A ledger may record its first known result if the resolver accepts it as something newer. */
  ghost predicate MayRecord(w: World, scope: Option<Scope>, l: Ledger) {
    scope.Some? && HasRecord(l) && l.plan.jobId in w.ledgers && w.ledgers[l.plan.jobId].result == None ==>
      && Accepted(scope.value, RecordOf(l))
      && Endpoint(scope.value, w.applied) < RecordOf(l).endpointRevision
  }

  // --- Effects keep it ----------------------------------------------------------------------

  /** Whether a record fell is not changed by later events. */
  lemma FallsAppend(t: seq<Event>, e: Event)
    requires FallsOnlyByCut(t)
    requires e.ActiveSet? ==> forall i :: 0 <= i < |t| && t[i].AppliedSaved? ==> t[i].job != e.job
    requires e.AppliedSaved? && e.replaced.Some? ==> NotOlder(e.replaced.value, e.applied) || NeverActive(t, e.job)
    ensures FallsOnlyByCut(t + [e])
  {
    var u := t + [e];
    forall i | 0 <= i < |u| && u[i].AppliedSaved? && u[i].replaced.Some?
      ensures NotOlder(u[i].replaced.value, u[i].applied) || NeverActive(u, u[i].job)
    {
      NeverActiveAppend(t, e, u[i].job);
    }
  }

  /** The claims about the log survive any event but a new record. */
  lemma QuietAppend(w: World, v: World, e: Event, sc: Scope)
    requires v.trace == w.trace + [e] && v.applied == w.applied && !e.AppliedSaved?
    ensures RecordsAccepted(w.trace, sc) ==> RecordsAccepted(v.trace, sc)
    ensures RecordsRise(w.trace) ==> RecordsRise(v.trace)
    ensures StandsNewest(w) ==> StandsNewest(v)
  {
  }

  lemma LogKeepsWithin(w: World, e: Event, sc: Scope)
    requires Within(w, sc) && !e.LedgerSaved? && !e.ActiveSet? && !e.AppliedSaved?
    ensures Within(Log(w, e), sc)
  {
    CompleteAppend(w.trace, e);
    FallsAppend(w.trace, e);
    QuietAppend(w, Log(w, e), e, sc);
  }

  lemma SavedLedgerAccepted(w: World, l: Ledger, sc: Scope)
    requires LedgersAccepted(w, sc) && MaySave(w, l) && MayRecord(w, Some(sc), l)
    requires LedgerValid(w.ledgers[l.plan.jobId])
    ensures LedgersAccepted(SaveLedger(w, l), sc)
  {
    var last := w.ledgers[l.plan.jobId];
    SameIntentKeeps(last.plan, l.plan);
    if HasRecord(l) && last.result.Some? {
      assert HasRecord(last) && RecordOf(last) == RecordOf(l);
    }
  }

  lemma SavedCommitsAhead(w: World, l: Ledger, sc: Scope)
    requires CommitsAhead(w, sc) && MaySave(w, l) && MayRecord(w, Some(sc), l)
    requires LedgerValid(w.ledgers[l.plan.jobId])
    ensures CommitsAhead(SaveLedger(w, l), sc)
  {
    var last := w.ledgers[l.plan.jobId];
    SameIntentKeeps(last.plan, l.plan);
    if HasRecord(l) && last.result.Some? {
      assert HasRecord(last) && RecordOf(last) == RecordOf(l);
    }
  }

  lemma SavedActiveAhead(w: World, l: Ledger, sc: Scope)
    requires ActiveAhead(w, sc) && MaySave(w, l) && MayRecord(w, Some(sc), l)
    requires LedgerValid(w.ledgers[l.plan.jobId])
    ensures ActiveAhead(SaveLedger(w, l), sc)
  {
    var last := w.ledgers[l.plan.jobId];
    SameIntentKeeps(last.plan, l.plan);
    if HasRecord(l) && last.result.Some? {
      assert HasRecord(last) && RecordOf(last) == RecordOf(l);
    }
  }

  lemma SaveKeepsWithin(w: World, l: Ledger, sc: Scope)
    requires Within(w, sc) && StoredWell(w) && StoreFromHistory(w)
    requires MaySave(w, l) && MayRecord(w, Some(sc), l)
    ensures Within(SaveLedger(w, l), sc)
  {
    var e := LedgerSaved(l, w.host);
    SavedLedgerAccepted(w, l, sc);
    SavedActiveAhead(w, l, sc);
    SaveCompletes(w, l);
    FallsAppend(w.trace, e);
    QuietAppend(w, SaveLedger(w, l), e, sc);
    if StagesComplete(w.trace) {
      SavedCommitsAhead(w, l, sc);
    }
  }

  lemma SaveCompletes(w: World, l: Ledger)
    requires StoredWell(w) && StoreFromHistory(w) && l.plan.jobId in w.ledgers
    ensures StagesComplete(SaveLedger(w, l).trace) <==> StagesComplete(w.trace)
  {
    if StagesComplete(w.trace) {
      SavedJobIsComplete(w, l.plan.jobId);
    }
    CompleteAppend(w.trace, LedgerSaved(l, w.host));
  }

  /** A ledger without a result adds no record. */
  lemma StagedLedgers(w: World, l: Ledger, sc: Scope)
    requires l.result == None
    ensures LedgersAccepted(w, sc) ==> LedgersAccepted(SaveLedger(w, l), sc)
    ensures CommitsAhead(w, sc) ==> CommitsAhead(SaveLedger(w, l), sc)
    ensures ActiveAhead(w, sc) ==> ActiveAhead(SaveLedger(w, l), sc)
    ensures ActiveAhead(SetActive(SaveLedger(w, l), l.plan.jobId), sc)
  {
  }

  lemma CutIsIncomplete(w: World, l: Ledger)
    requires HistoryMatches(w) && l.plan.jobId !in w.ledgers
    ensures !StagesComplete(SaveLedger(w, l).trace)
  {
    UnknownJob(w, l.plan.jobId);
    NeverActiveAppend(w.trace, LedgerSaved(l, w.host), l.plan.jobId);
    assert SaveLedger(w, l).trace[|w.trace|] == LedgerSaved(l, w.host);
  }

  lemma StageWriteKeepsWithin(w: World, l: Ledger, sc: Scope)
    requires Within(w, sc) && HistoryMatches(w) && l.plan.jobId !in w.ledgers && l.result == None
    ensures Within(SaveLedger(w, l), sc)
  {
    CutIsIncomplete(w, l);
    FallsAppend(w.trace, LedgerSaved(l, w.host));
    QuietAppend(w, SaveLedger(w, l), LedgerSaved(l, w.host), sc);
    StagedLedgers(w, l, sc);
  }

  lemma StageKeepsWithin(w: World, l: Ledger, sc: Scope)
    requires Within(w, sc) && HistoryMatches(w) && MayStage(w, l)
    ensures Within(SetActive(SaveLedger(w, l), l.plan.jobId), sc)
  {
    var v := SaveLedger(w, l);
    StageCompletes(w, l);
    StagedLedgers(w, l, sc);
    FallsAppend(w.trace, LedgerSaved(l, w.host));
    NewWriter(w, l);
    FallsAppend(v.trace, ActiveSet(l.plan.jobId));
    QuietAppend(w, v, LedgerSaved(l, w.host), sc);
    QuietAppend(v, SetActive(v, l.plan.jobId), ActiveSet(l.plan.jobId), sc);
    SetActiveLedgers(v, l.plan.jobId, sc);
  }

  /** A job that is only now staged has written no record. */
  lemma NewWriter(w: World, l: Ledger)
    requires HistoryMatches(w) && l.plan.jobId !in w.ledgers
    ensures forall i :: 0 <= i < |SaveLedger(w, l).trace| && SaveLedger(w, l).trace[i].AppliedSaved? ==>
                          SaveLedger(w, l).trace[i].job != l.plan.jobId
  {
    var v := SaveLedger(w, l);
    forall i | 0 <= i < |v.trace| && v.trace[i].AppliedSaved? ensures v.trace[i].job != l.plan.jobId {
      assert Remembered(w.ledgers, w.trace[i]);
    }
  }

  lemma SetActiveLedgers(w: World, job: JobId, sc: Scope)
    ensures LedgersAccepted(w, sc) ==> LedgersAccepted(SetActive(w, job), sc)
    ensures CommitsAhead(w, sc) ==> CommitsAhead(SetActive(w, job), sc)
  {
  }

  lemma AppliedIsAccepted(w: World, job: JobId, a: AppliedState, sc: Scope)
    requires RecordsAccepted(w.trace, sc) && LedgersAccepted(w, sc) && MayApply(w, job, a)
    ensures var v := SaveApplied(w, job, a);
            RecordsAccepted(v.trace, sc) && Accepted(sc, a) && LedgersAccepted(v, sc)
  {
    assert HasRecord(w.ledgers[job]) && a == RecordOf(w.ledgers[job]);
  }

  /** The active job's record is newer than what it replaces; any other writer was never active. */
  lemma AppliedFallsOnlyByCut(w: World, job: JobId, a: AppliedState, sc: Scope)
    requires FallsOnlyByCut(w.trace) && ActiveAhead(w, sc) && PointerSound(w) && MayApply(w, job, a)
    ensures FallsOnlyByCut(SaveApplied(w, job, a).trace) && ActiveAhead(SaveApplied(w, job, a), sc)
  {
    assert Open(w, job) && HasRecord(w.ledgers[job]) && a == RecordOf(w.ledgers[job]);
    FallsAppend(w.trace, AppliedSaved(job, a, w.applied));
  }

  /** With complete stages the committing ledger is the only open one, and its record is newest. */
  lemma AppliedKeepsWithin(w: World, job: JobId, a: AppliedState, sc: Scope, atomic: bool)
    requires Within(w, sc) && Inv(w, atomic) && MayApply(w, job, a)
    ensures Within(SaveApplied(w, job, a), sc)
  {
    AppliedIsAccepted(w, job, a, sc);
    AppliedFallsOnlyByCut(w, job, a, sc);
    CompleteAppend(w.trace, AppliedSaved(job, a, w.applied));
    if StagesComplete(w.trace) {
      CompleteIsAtomic(w, atomic);
      AppliedRises(w, job, a, sc);
    }
  }

  lemma AppliedRises(w: World, job: JobId, a: AppliedState, sc: Scope)
    requires RecordsRise(w.trace) && StandsNewest(w) && CommitsAhead(w, sc)
    requires MayApply(w, job, a) && HasRecord(w.ledgers[job])
    requires forall j :: Open(w, j) ==> w.active == Some(j)
    ensures var v := SaveApplied(w, job, a);
            RecordsRise(v.trace) && StandsNewest(v) && CommitsAhead(v, sc)
  {
    var v := SaveApplied(w, job, a);
    assert Open(w, job);
    assert Ahead(sc, w.applied, w.ledgers[job]);
    forall j | Commits(v, j)
      ensures Ahead(sc, v.applied, v.ledgers[j])
    {
      assert Open(w, j);
    }
  }

  // --- The steps of the executor, with both invariants folded ---------------------------------

  /** The counter counts the host calls of the log; folded like the invariants. */
  ghost predicate Counted(t: seq<Event>, calls: nat) {
    forall k {:trigger Look(k)} :: Look(k) ==> calls == HostCalls(t)
  }

  lemma CountedIsExact(t: seq<Event>, calls: nat)
    ensures Counted(t, calls) <==> calls == HostCalls(t)
  {
    assert Look(0);
  }

  lemma CountStep(w: World, e: Event)
    requires Counted(w.trace, w.calls)
    ensures Counted(Log(w, e).trace, Log(w, e).calls)
  {
    var t := w.trace;
    assert (t + [e])[..|t|] == t;
    CountedIsExact(t, w.calls);
    CountedIsExact(t + [e], Log(w, e).calls);
  }

  ghost predicate Sound(w: World, atomic: bool, scope: Option<Scope>) {
    Held(w, atomic) && Kept(w, scope) && Counted(w.trace, w.calls)
  }

  lemma Unfold(w: World, atomic: bool, scope: Option<Scope>)
    ensures Held(w, atomic) <==> Inv(w, atomic)
    ensures Kept(w, scope) <==> (scope.Some? ==> Within(w, scope.value))
  {
    HeldIsInv(w, atomic);
    KeptIsWithin(w, scope);
  }

  /** Host changes do not concern the records. */
  lemma HostKeepsWithin(w: World, h: Host, sc: Scope)
    requires Within(w, sc)
    ensures Within(w.(host := h), sc)
  {
  }

  lemma SaveStep(w: World, l: Ledger, atomic: bool, scope: Option<Scope>)
    requires Sound(w, atomic, scope) && MaySave(w, l) && MayRecord(w, scope, l)
    ensures Sound(SaveLedger(w, l), atomic, scope)
  {
    Unfold(w, atomic, scope);
    CountStep(w, LedgerSaved(l, w.host));
    SaveKeepsInv(w, l, atomic);
    if scope.Some? {
      SaveKeepsWithin(w, l, scope.value);
    }
    Unfold(SaveLedger(w, l), atomic, scope);
  }

  lemma CutStageStep(w: World, l: Ledger, scope: Option<Scope>)
    requires Sound(w, false, scope) && MayStage(w, l)
    ensures Sound(SaveLedger(w, l), false, scope)
  {
    Unfold(w, false, scope);
    CountStep(w, LedgerSaved(l, w.host));
    StageWriteKeepsInv(w, l);
    if scope.Some? {
      StageWriteKeepsWithin(w, l, scope.value);
    }
    Unfold(SaveLedger(w, l), false, scope);
  }

  lemma StageStep(w: World, l: Ledger, atomic: bool, scope: Option<Scope>)
    requires Sound(w, atomic, scope) && MayStage(w, l)
    ensures Sound(SetActive(SaveLedger(w, l), l.plan.jobId), atomic, scope)
  {
    Unfold(w, atomic, scope);
    CountStep(w, LedgerSaved(l, w.host));
    CountStep(SaveLedger(w, l), ActiveSet(l.plan.jobId));
    StageKeepsInv(w, l, atomic);
    if scope.Some? {
      StageKeepsWithin(w, l, scope.value);
    }
    Unfold(SetActive(SaveLedger(w, l), l.plan.jobId), atomic, scope);
  }

  lemma AppliedStep(w: World, job: JobId, a: AppliedState, atomic: bool, scope: Option<Scope>)
    requires Sound(w, atomic, scope) && MayApply(w, job, a)
    ensures Sound(SaveApplied(w, job, a), atomic, scope)
  {
    Unfold(w, atomic, scope);
    CountStep(w, AppliedSaved(job, a, w.applied));
    AppliedKeepsInv(w, job, a, atomic);
    if scope.Some? {
      AppliedKeepsWithin(w, job, a, scope.value, atomic);
    }
    Unfold(SaveApplied(w, job, a), atomic, scope);
  }

  lemma GrantStep(w: World, job: JobId, op: Operation, atomic: bool, scope: Option<Scope>)
    requires Sound(w, atomic, scope)
    requires op == Forward ==>
               job in w.ledgers && w.ledgers[job].state == GrantConsuming && NoForwardGrant(w.trace, job)
    ensures Sound(Log(w, GrantUsed(job, op)), atomic, scope)
  {
    CountStep(w, GrantUsed(job, op));
    Unfold(w, atomic, scope);
    if op == Forward {
      GrantKeepsInv(w, job, atomic);
    } else {
      LogKeepsInv(w, GrantUsed(job, op), atomic);
    }
    if scope.Some? {
      LogKeepsWithin(w, GrantUsed(job, op), scope.value);
    }
    Unfold(Log(w, GrantUsed(job, op)), atomic, scope);
  }

  lemma WriteStep(w: World, job: JobId, mapping: Option<string>, atomic: bool, scope: Option<Scope>)
    requires Sound(w, atomic, scope) && MayWrite(w, job)
    requires mapping == w.host.mapping || mapping == Some(w.ledgers[job].targetBytes)
    ensures Sound(SetMapping(Log(w, WriteCalled(job, Forward)), mapping), atomic, scope)
  {
    var v := Log(w, WriteCalled(job, Forward));
    Unfold(w, atomic, scope);
    CountStep(w, WriteCalled(job, Forward));
    WriteKeepsInv(w, job, mapping, atomic);
    if scope.Some? {
      LogKeepsWithin(w, WriteCalled(job, Forward), scope.value);
      HostKeepsWithin(v, v.host.(mapping := mapping), scope.value);
    }
    Unfold(SetMapping(v, mapping), atomic, scope);
  }

  lemma RestoreStep(w: World, job: JobId, mapping: Option<string>, atomic: bool, scope: Option<Scope>)
    requires Sound(w, atomic, scope) && Open(w, job) && Unblocked(w, job)
    requires mapping == w.host.mapping || mapping == Some(w.ledgers[job].checkpoint.bytes)
    ensures Sound(SetMapping(Log(w, RestoreCalled(job)), mapping), atomic, scope)
  {
    var v := Log(w, RestoreCalled(job));
    Unfold(w, atomic, scope);
    CountStep(w, RestoreCalled(job));
    LogKeepsInv(w, RestoreCalled(job), atomic);
    assert Open(v, job) && Unblocked(v, job);
    MappingKeepsInv(v, job, mapping, atomic);
    if scope.Some? {
      LogKeepsWithin(w, RestoreCalled(job), scope.value);
      HostKeepsWithin(v, v.host.(mapping := mapping), scope.value);
    }
    Unfold(SetMapping(v, mapping), atomic, scope);
  }

  lemma RecreateStep(w: World, job: JobId, op: Operation, toward: Side, container: Option<Container>,
                     atomic: bool, scope: Option<Scope>)
    requires Sound(w, atomic, scope)
    requires toward == After ==> op == Forward && job in w.ledgers && w.ledgers[job].state == EnvWritten
    ensures Sound(SetContainer(Log(w, RecreateCalled(job, op, toward)), container), atomic, scope)
  {
    var v := Log(w, RecreateCalled(job, op, toward));
    Unfold(w, atomic, scope);
    CountStep(w, RecreateCalled(job, op, toward));
    RecreateKeepsInv(w, job, op, toward, atomic);
    ContainerKeepsInv(v, container, atomic);
    if scope.Some? {
      LogKeepsWithin(w, RecreateCalled(job, op, toward), scope.value);
      HostKeepsWithin(v, v.host.(container := container), scope.value);
    }
    Unfold(SetContainer(v, container), atomic, scope);
  }

  lemma ReplyStep(w: World, job: JobId, result: PortResult, atomic: bool, scope: Option<Scope>)
    requires Sound(w, atomic, scope) && MayReply(w, job, result)
    ensures Sound(Log(w, Replied(job, result)), atomic, scope)
  {
    Unfold(w, atomic, scope);
    CountStep(w, Replied(job, result));
    ReplyKeepsInv(w, job, result, atomic);
    if scope.Some? {
      LogKeepsWithin(w, Replied(job, result), scope.value);
    }
    Unfold(Log(w, Replied(job, result)), atomic, scope);
  }

  /** The standing record of a run under one policy resolves, to its own ports and revisions. */
  lemma StandingResolves(w: World, sc: Scope)
    requires Kept(w, Some(sc)) && w.applied.Some?
    ensures Accepted(sc, w.applied.value)
    ensures var r := Resolve(sc.policy, sc.target, w.applied, false, false);
            && r.Some? && r.value.endpointRevision == w.applied.value.endpointRevision
            && r.value.listenPort == w.applied.value.ports.health && r.value.configSha == w.applied.value.configSha
  {
    KeptIsWithin(w, Some(sc));
  }

  /** A commit whose fences passed may record its result. */
  lemma CommitMayRecord(w: World, sc: Scope, l: Ledger, plan: Plan, kind: ResultKind, compose: string)
    requires Committable(sc.policy, sc.target, w.applied, plan, kind, compose)
    requires l.plan == plan && l.result == Some(KnownResult(plan, kind, compose))
    ensures MayRecord(w, Some(sc), l)
  {
    CommitResolves(sc.policy, sc.target, w.applied, plan, kind, compose);
  }
}
