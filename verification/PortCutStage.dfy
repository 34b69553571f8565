/**
 * The run that shows why a cut Stage matters. The file store writes the ledger of a Stage
 * before the active pointer (docker_port_state.go). If the first job's Stage is cut there, a
 * second job can settle beside it, and the later repair of the first job's commit
 * (docker_port_recovery.go) puts an older applied record over the settled one.
 */
module PortCutStage {
  import opened Basics
  import opened Text
  import opened PortEnv
  import opened PortLedger
  import opened PortProtocol
  import opened PortRecords
  import opened PortExecutor

  /** Two jobs that one policy binds to one target, staged against the same host; `a` expects the older endpoint. */
  datatype Pair = Pair(host: Host, a: Ledger, c: Ledger, policy: Policy, target: Target)

  ghost predicate Stageable(p: Pair, l: Ledger) {
    && LedgerValid(l) && Printed(l) && l.state == Staged
    && HostOnSide(p.host, l, Before) && l.oldCompose == p.target.compose
    && Bound(p.policy, p.target, p.target, l.plan, None)
  }

  ghost predicate TwoJobs(p: Pair) {
    && Stageable(p, p.a) && Stageable(p, p.c)
    && p.a.plan.jobId != p.c.plan.jobId
    && p.a.plan.expectedEndpoint < p.c.plan.expectedEndpoint
  }

  function Empty(host: Host): World {
    World(map[], None, None, host, [], 0)
  }

  /** The committing ledger of a job that a reconcile found on the old side. */
  function CommittingOf(l: Ledger): Ledger
    requires PlanValid(l.plan)
  {
    Committed(l, l.plan, KnownResult(l.plan, RolledBack, l.oldCompose))
  }

  function TerminalOf(l: Ledger): Ledger
    requires PlanValid(l.plan)
  {
    CommittingOf(l).(state := Terminal)
  }

  function Record(l: Ledger): AppliedState
    requires PlanValid(l.plan)
  {
    AppliedOf(l.plan, KnownResult(l.plan, RolledBack, l.oldCompose))
  }

  // The states of the run, in order.

  /** The Stage of `a` is cut after its first write; a reconcile of `a` then commits and crashes. */
  function AfterCut(p: Pair): World {
    SaveLedger(Empty(p.host), p.a)
  }

  function AfterCommit(p: Pair): World
    requires PlanValid(p.a.plan)
  {
    SaveLedger(AfterCut(p), CommittingOf(p.a))
  }

  /** `c` is staged, is found on the old side, and settles. */
  function AfterStage(p: Pair): World
    requires PlanValid(p.a.plan)
  {
    SetActive(SaveLedger(AfterCommit(p), p.c), p.c.plan.jobId)
  }

  function AfterSecondCommit(p: Pair): World
    requires PlanValid(p.a.plan) && PlanValid(p.c.plan)
  {
    SaveApplied(SaveLedger(AfterStage(p), CommittingOf(p.c)), p.c.plan.jobId, Record(p.c))
  }

  function AfterSettled(p: Pair): World
    requires PlanValid(p.a.plan) && PlanValid(p.c.plan)
  {
    SaveLedger(AfterSecondCommit(p), TerminalOf(p.c))
  }

  /** The repair of the commit of `a`. */
  function AfterRepair(p: Pair): World
    requires PlanValid(p.a.plan) && PlanValid(p.c.plan)
  {
    SaveLedger(SaveApplied(AfterSettled(p), p.a.plan.jobId, Record(p.a)), TerminalOf(p.a))
  }

  /**
   * At the end `c` is active and settled, but the applied record is that of `a`: the record of
   * the active job is lost, and the endpoint revision has fallen.
   */
  ghost predicate LosesRecord(p: Pair)
    requires PlanValid(p.a.plan) && PlanValid(p.c.plan)
  {
    var v := AfterRepair(p);
    && v.active == Some(p.c.plan.jobId)
    && p.c.plan.jobId in v.ledgers && v.ledgers[p.c.plan.jobId] == TerminalOf(p.c)
    && !AppliedEquals(v, p.c.plan.jobId) && !StagesComplete(v.trace) && !RecordsRise(v.trace)
    && v.applied == Some(Record(p.a)) && Record(p.a).endpointRevision < Record(p.c).endpointRevision
  }

  /** A staged job on an unblocked store can commit the old side it stands on. */
  lemma MayCommit(p: Pair, w: World, l: Ledger)
    requires Stageable(p, l) && w.host == p.host && w.applied == None
    requires l.plan.jobId in w.ledgers && w.ledgers[l.plan.jobId] == l && Unblocked(w, l.plan.jobId)
    ensures MaySave(w, CommittingOf(l)) && MayRecord(w, Some(Scope(p.policy, p.target)), CommittingOf(l))
    ensures CommittingOf(l).plan == l.plan && LedgerValid(CommittingOf(l))
  {
    BoundCommits(p.policy, p.target, p.target, l.plan, None, l, RolledBack, l.oldCompose);
    CommitIsReady(w, Some(Scope(p.policy, p.target)), l, l.plan, RolledBack, l.oldCompose, p.policy, p.target);
  }

  /** Writing the record of a committing ledger and then settling it. */
  lemma MaySettle(w: World, l: Ledger)
    requires PlanValid(l.plan) && LedgerValid(CommittingOf(l))
    requires l.plan.jobId in w.ledgers && w.ledgers[l.plan.jobId] == CommittingOf(l) && Unblocked(w, l.plan.jobId)
    ensures MayApply(w, l.plan.jobId, Record(l))
    ensures MaySave(SaveApplied(w, l.plan.jobId, Record(l)), TerminalOf(l)) && LedgerValid(TerminalOf(l))
  {
    var v := SaveApplied(w, l.plan.jobId, Record(l));
    assert Unblocked(v, l.plan.jobId);
    CommittedMaySettle(v, CommittingOf(l));
  }

  lemma EmptyIsSound(host: Host, scope: Option<Scope>)
    ensures Sound(Empty(host), false, scope)
  {
    HeldIsInv(Empty(host), false);
    KeptIsWithin(Empty(host), scope);
    CountedIsExact([], 0);
  }

  lemma CutPart(p: Pair)
    requires TwoJobs(p)
    ensures MayStage(Empty(p.host), p.a)
    ensures MaySave(AfterCut(p), CommittingOf(p.a)) && LedgerValid(CommittingOf(p.a))
    ensures Sound(AfterCommit(p), false, Some(Scope(p.policy, p.target)))
  {
    var sc := Some(Scope(p.policy, p.target));
    EmptyIsSound(p.host, sc);
    CutStageStep(Empty(p.host), p.a, sc);
    MayCommit(p, AfterCut(p), p.a);
    SaveStep(AfterCut(p), CommittingOf(p.a), false, sc);
  }

  lemma SecondJobPart(p: Pair)
    requires TwoJobs(p) && LedgerValid(CommittingOf(p.a))
    requires Sound(AfterCommit(p), false, Some(Scope(p.policy, p.target)))
    ensures MayStage(AfterCommit(p), p.c)
    ensures MaySave(AfterStage(p), CommittingOf(p.c)) && LedgerValid(CommittingOf(p.c))
    ensures Sound(SaveLedger(AfterStage(p), CommittingOf(p.c)), false, Some(Scope(p.policy, p.target)))
  {
    var sc := Some(Scope(p.policy, p.target));
    StageStep(AfterCommit(p), p.c, false, sc);
    MayCommit(p, AfterStage(p), p.c);
    SaveStep(AfterStage(p), CommittingOf(p.c), false, sc);
  }

  lemma SecondSettles(p: Pair)
    requires TwoJobs(p) && LedgerValid(CommittingOf(p.c))
    requires Sound(SaveLedger(AfterStage(p), CommittingOf(p.c)), false, Some(Scope(p.policy, p.target)))
    ensures MaySave(AfterSecondCommit(p), TerminalOf(p.c)) && LedgerValid(TerminalOf(p.c))
    ensures Sound(AfterSettled(p), false, Some(Scope(p.policy, p.target)))
  {
    var sc := Some(Scope(p.policy, p.target));
    var w := SaveLedger(AfterStage(p), CommittingOf(p.c));
    MaySettle(w, p.c);
    AppliedStep(w, p.c.plan.jobId, Record(p.c), false, sc);
    SaveStep(AfterSecondCommit(p), TerminalOf(p.c), false, sc);
  }

  lemma RepairPart(p: Pair)
    requires TwoJobs(p) && LedgerValid(CommittingOf(p.a)) && LedgerValid(TerminalOf(p.c))
    requires Sound(AfterSettled(p), false, Some(Scope(p.policy, p.target)))
    ensures MayApply(AfterSettled(p), p.a.plan.jobId, Record(p.a))
    ensures MaySave(SaveApplied(AfterSettled(p), p.a.plan.jobId, Record(p.a)), TerminalOf(p.a))
    ensures Sound(AfterRepair(p), false, Some(Scope(p.policy, p.target)))
  {
    var sc := Some(Scope(p.policy, p.target));
    var w := AfterSettled(p);
    MaySettle(w, p.a);
    AppliedStep(w, p.a.plan.jobId, Record(p.a), false, sc);
    SaveStep(SaveApplied(w, p.a.plan.jobId, Record(p.a)), TerminalOf(p.a), false, sc);
  }

  /** Every step of the run passes its guard and keeps the invariants, under one policy; the record is lost. */
  lemma CutStageOverwrites(p: Pair)
    requires TwoJobs(p)
    ensures MayStage(Empty(p.host), p.a) && MaySave(AfterCut(p), CommittingOf(p.a))
    ensures MayStage(AfterCommit(p), p.c) && MaySave(AfterStage(p), CommittingOf(p.c))
    ensures MaySave(AfterSecondCommit(p), TerminalOf(p.c)) && MayApply(AfterSettled(p), p.a.plan.jobId, Record(p.a))
    ensures Sound(AfterRepair(p), false, Some(Scope(p.policy, p.target)))
    ensures LosesRecord(p)
  {
    CutPart(p);
    SecondJobPart(p);
    SecondSettles(p);
    RepairPart(p);
    CutStageOutcome(p);
  }

  /** The log of the run. */
  lemma RunLog(p: Pair)
    requires PlanValid(p.a.plan) && PlanValid(p.c.plan)
    ensures AfterRepair(p).trace == [
              LedgerSaved(p.a, p.host), LedgerSaved(CommittingOf(p.a), p.host),
              LedgerSaved(p.c, p.host), ActiveSet(p.c.plan.jobId),
              LedgerSaved(CommittingOf(p.c), p.host), AppliedSaved(p.c.plan.jobId, Record(p.c), None),
              LedgerSaved(TerminalOf(p.c), p.host),
              AppliedSaved(p.a.plan.jobId, Record(p.a), Some(Record(p.c))), LedgerSaved(TerminalOf(p.a), p.host)]
  {
  }

  lemma LogIsCut(p: Pair)
    requires PlanValid(p.a.plan) && PlanValid(p.c.plan) && p.a.plan.jobId != p.c.plan.jobId
    ensures NeverActive(AfterRepair(p).trace, p.a.plan.jobId) && !StagesComplete(AfterRepair(p).trace)
  {
    RunLog(p);
    var t := AfterRepair(p).trace;
    assert t[0] == LedgerSaved(p.a, p.host);
  }

  lemma LogFalls(p: Pair)
    requires PlanValid(p.a.plan) && PlanValid(p.c.plan)
    requires p.a.plan.expectedEndpoint < p.c.plan.expectedEndpoint
    ensures Record(p.a).endpointRevision < Record(p.c).endpointRevision
    ensures !RecordsRise(AfterRepair(p).trace)
  {
    RunLog(p);
    var t := AfterRepair(p).trace;
    assert t[5] == AppliedSaved(p.c.plan.jobId, Record(p.c), None);
    assert t[7] == AppliedSaved(p.a.plan.jobId, Record(p.a), Some(Record(p.c)));
  }

  lemma CutStageOutcome(p: Pair)
    requires TwoJobs(p) && LedgerValid(TerminalOf(p.c))
    ensures LosesRecord(p)
  {
    LogIsCut(p);
    LogFalls(p);
  }

  // --- One such pair ------------------------------------------------------------------------

  const OLD_MAPPING := Mapping(1024, 1024, 1)
  const NEW_MAPPING := Mapping(1025, 1024, 2)
  const ADAPTER := Adapter("AUTOSTREAM_WORKER_PORT", "AUTOSTREAM_WORKER_CONTAINER_PORT")
  const CONTAINER_ID := "0123456789ab"
  const FENCE := Fence(1, 1, 1, "policy")
  const BASELINE := Baseline("env", CONTAINER_ID, "image", "digest", "v1")

  lemma PublishedIsName()
    ensures IsEnvName(ADAPTER.publishedVariable)
  {
  }

  lemma ContainerIsName()
    ensures IsEnvName(ADAPTER.containerVariable)
  {
  }

  lemma ExamplePrints()
    ensures Printable(ADAPTER, OLD_MAPPING) && Printable(ADAPTER, NEW_MAPPING)
    ensures AdapterFor(Worker) == Some(ADAPTER)
  {
    PublishedIsName();
    ContainerIsName();
  }

  lemma {:induction false} PrintNatIsShort(n: nat)
    ensures |PrintNat(n)| <= n + 1
  {
    if n >= 10 {
      PrintNatIsShort(n / 10);
    }
  }

  function ExampleBytes(m: Mapping): string {
    if Printable(ADAPTER, m) then Print(ADAPTER, m).value else ""
  }

  function ExamplePlan(job: JobId, endpoint: Int64): Plan
    requires 1 <= endpoint < 10
  {
    Plan(job, "host", "worker", Worker, 1024, 1025, LOOPBACK,
         Ports(1024, 1024, 1024), Ports(1025, 1024, 1025), endpoint, endpoint + 1, 1, 2,
         Sha(ExampleBytes(OLD_MAPPING)), Sha(ExampleBytes(NEW_MAPPING)), "approved", 1, BASELINE, FENCE, 1, "session",
         1, "plan")
  }

  function ExampleLedger(job: JobId, endpoint: Int64): Ledger
    requires 1 <= endpoint < 10
  {
    Ledger(ExamplePlan(job, endpoint), Staged, CheckpointOf(Some(ExampleBytes(OLD_MAPPING))),
           ExampleBytes(NEW_MAPPING), BASELINE, "compose", "new-compose", None)
  }

  function ExamplePair(): Pair {
    var target := Target("worker", Worker, true, LOOPBACK, 1024, 1, 1, Sha(ExampleBytes(OLD_MAPPING)),
                         "compose", "approved", 1);
    Pair(Host(Some(ExampleBytes(OLD_MAPPING)), Some(Container(CONTAINER_ID, 1024, 1024))),
         ExampleLedger("first", 1), ExampleLedger("second", 5),
         Policy(true, "host", FENCE, map["worker" := target]), target)
  }

  lemma ExampleIsStageable(job: JobId, endpoint: Int64)
    requires 1 <= endpoint < 10
    ensures Stageable(ExamplePair(), ExampleLedger(job, endpoint))
  {
    ExamplePrints();
    ExampleFits();
    assert ExampleBytes(OLD_MAPPING) != ExampleBytes(NEW_MAPPING) by {
      if ExampleBytes(OLD_MAPPING) == ExampleBytes(NEW_MAPPING) {
        PrintIsInjective(ADAPTER, OLD_MAPPING, NEW_MAPPING);
      }
    }
  }

  lemma ExampleFits()
    ensures 0 < |ExampleBytes(OLD_MAPPING)| <= MAX_ENV_BYTES
  {
    ExamplePrints();
    PrintNatIsShort(1024);
    PrintNatIsShort(1);
  }

  lemma ExampleFields()
    ensures ExamplePair().a == ExampleLedger("first", 1) && ExamplePair().c == ExampleLedger("second", 5)
    ensures ExampleLedger("first", 1).plan.jobId != ExampleLedger("second", 5).plan.jobId
    ensures ExampleLedger("first", 1).plan.expectedEndpoint < ExampleLedger("second", 5).plan.expectedEndpoint
  {
    assert "first"[0] != "second"[0];
  }

  /** The example as one of any pairs with these ledgers. */
  lemma PairOf(p: Pair, a: Ledger, c: Ledger)
    requires p.a == a && p.c == c && Stageable(p, a) && Stageable(p, c)
    requires a.plan.jobId != c.plan.jobId && a.plan.expectedEndpoint < c.plan.expectedEndpoint
    ensures TwoJobs(p)
  {
  }

  lemma ExampleIsPair()
    ensures TwoJobs(ExamplePair())
  {
    ExampleFields();
    ExampleIsStageable("first", 1);
    ExampleIsStageable("second", 5);
    PairOf(ExamplePair(), ExampleLedger("first", 1), ExampleLedger("second", 5));
  }

  /** The run exists: `ExamplePair` is a concrete state in which the record is lost. */
  lemma CutStageExample()
    ensures exists p: Pair :: TwoJobs(p) && LosesRecord(p)
  {
    ExampleIsPair();
    CutStageOverwrites(ExamplePair());
  }
}
