/**
 * The Docker port transaction as a protocol over one target: its durable store, the
 * host it acts on, the log of what was done, and the safety properties every
 * reachable state keeps. Each effect is a function on the world with a guard; the
 * lemmas show that a guarded effect keeps the invariant.
 */
module PortProtocol {
  import opened Basics
  import opened PortLedger

  datatype Container = Container(id: string, published: int, container: int)

  /** The mapping env file and the managed container. */
  datatype Host = Host(mapping: Option<string>, container: Option<Container>)

  datatype Event =
    | LedgerSaved(ledger: Ledger, host: Host)
    | ActiveSet(job: JobId)
    | AppliedSaved(job: JobId, applied: AppliedState, replaced: Option<AppliedState>)
    | GrantUsed(job: JobId, op: Operation)
    | WriteCalled(job: JobId, op: Operation)
    | RestoreCalled(job: JobId)
    | RecreateCalled(job: JobId, op: Operation, toward: Side)
    | Replied(job: JobId, result: PortResult)

  /** `calls` counts how often the log touched the host. */
  datatype World = World(
    ledgers: map<JobId, Ledger>, active: Option<JobId>, applied: Option<AppliedState>,
    host: Host, trace: seq<Event>, calls: nat)

  /** A write, a restore or a recreate. */
  predicate IsHostCall(e: Event) {
    e.WriteCalled? || e.RestoreCalled? || e.RecreateCalled?
  }

  function HostCalls(t: seq<Event>): nat {
    if t == [] then 0 else HostCalls(t[..|t| - 1]) + if IsHostCall(t[|t| - 1]) then 1 else 0
  }

  // --- Safety, stated on the log alone -------------------------------------------

  predicate IsForwardGrant(e: Event) {
    e.GrantUsed? && e.op == Forward
  }

  /** Each job uses its forward grant and calls the write at most once, the write only in a forward request. */
  ghost predicate OncePerJob(t: seq<Event>) {
    && (forall i :: 0 <= i < |t| && t[i].WriteCalled? ==> t[i].op == Forward)
    && (forall i, j :: 0 <= i < j < |t| && t[i].WriteCalled? && t[j].WriteCalled? ==> t[i].job != t[j].job)
    && (forall i, j :: 0 <= i < j < |t| && IsForwardGrant(t[i]) && IsForwardGrant(t[j]) ==> t[i].job != t[j].job)
  }

  ghost predicate SavedWith(e: Event, job: JobId, state: LedgerState) {
    e.LedgerSaved? && e.ledger.plan.jobId == job && e.ledger.state == state
  }

  ghost predicate ForwardGrant(t: seq<Event>, g: nat, job: JobId) {
    g < |t| && t[g] == GrantUsed(job, Forward)
  }

  /** The job's forward grant was consumed, and after that `grant_consumed` was saved. */
  ghost predicate Authorized(t: seq<Event>, job: JobId) {
    exists g: nat, s: nat :: g < s < |t| && ForwardGrant(t, g, job) && SavedWith(t[s], job, GrantConsumed)
  }

  /** A ledger of the job in the given state was saved. */
  ghost predicate Recorded(t: seq<Event>, job: JobId, state: LedgerState) {
    exists s: nat :: s < |t| && SavedWith(t[s], job, state)
  }

  ghost predicate SavedTerminal(t: seq<Event>, s: nat, job: JobId, result: PortResult) {
    s < |t| && SavedWith(t[s], job, Terminal) && t[s].ledger.result == Some(result)
  }

  /** A committing ledger that the applied record repeats was saved. */
  ghost predicate SavedCommitting(t: seq<Event>, s: nat, job: JobId, a: AppliedState) {
    && s < |t| && SavedWith(t[s], job, Committing)
    && LedgerValid(t[s].ledger) && a == AppliedOf(t[s].ledger.plan, t[s].ledger.result.value)
  }

  /** What must be durable before an event takes place. */
  ghost predicate Preceded(t: seq<Event>, e: Event) {
    match e
    case GrantUsed(job, op) => op == Forward ==> Recorded(t, job, GrantConsuming)
    case WriteCalled(job, _) => Authorized(t, job)
    case RecreateCalled(job, _, toward) => toward == After ==> Recorded(t, job, EnvWritten)
    case AppliedSaved(job, a, _) => exists s: nat :: SavedCommitting(t, s, job, a)
    case Replied(job, result) => exists s: nat :: SavedTerminal(t, s, job, result)
    case _ => true
  }

  /**
   * The write-ahead discipline: a forward grant is used after `grant_consuming` is saved;
   * the write is called after the grant and after `grant_consumed` is saved; a recreate
   * toward the new ports follows a saved `env_written`; the applied record follows the
   * committing ledger it repeats; a reply with a result follows the terminal ledger.
   */
  ghost predicate WriteAhead(t: seq<Event>) {
    forall i :: 0 <= i < |t| ==> Preceded(t[..i], t[i])
  }

  /** A ledger that has left `staged` never returns to it. */
  ghost predicate NeverRestaged(t: seq<Event>) {
    forall i, j :: 0 <= i < j < |t| && t[i].LedgerSaved? && t[j].LedgerSaved? &&
                   t[i].ledger.plan.jobId == t[j].ledger.plan.jobId && t[i].ledger.state != Staged
                   ==> t[j].ledger.state != Staged
  }

  /** Reconcile only ever recreates toward the old ports. */
  ghost predicate ReconcileGoesBack(t: seq<Event>) {
    forall i :: 0 <= i < |t| && t[i].RecreateCalled? && t[i].op != Forward ==> t[i].toward == Before
  }

  /** Once a ledger records a result, every later save and every later reply of that job carries it. */
  ghost predicate ResultsStable(t: seq<Event>) {
    && (forall i, j :: 0 <= i < j < |t| && t[i].LedgerSaved? && t[j].LedgerSaved? &&
                       t[i].ledger.plan.jobId == t[j].ledger.plan.jobId && t[i].ledger.result.Some?
                       ==> t[j].ledger.result == t[i].ledger.result)
    && (forall i, j :: 0 <= i < j < |t| && t[i].LedgerSaved? && t[j].Replied? &&
                       t[i].ledger.plan.jobId == t[j].job && t[i].ledger.result.Some?
                       ==> t[i].ledger.result == Some(t[j].result))
  }

  /** The mapping file and the running container are exactly the given side of the ledger. */
  ghost predicate HostOnSide(h: Host, l: Ledger, side: Side) {
    && h.mapping == Some(BytesOf(l, side))
    && h.container.Some?
    && h.container.value.published == PortsOf(l.plan, side).published
    && h.container.value.container == PortsOf(l.plan, side).container
    && (side == After ==> !ContainerIdsMatch(h.container.value.id, l.baseline.containerId))
  }

  /** A result's own digest and ports are those of the mapping file and the running container. */
  ghost predicate Describes(r: PortResult, h: Host) {
    && h.mapping.Some? && r.configSha == Some(Sha(h.mapping.value))
    && h.container.Some? && r.docker.Some?
    && h.container.value.published == r.docker.value.ports.published
    && h.container.value.container == r.docker.value.ports.container
  }

  /** The known result of a ledger is true of the host. */
  ghost predicate TrueResult(h: Host, l: Ledger) {
    l.result.Some? && HostOnSide(h, l, SideOf(l.result.value.kind)) && Describes(l.result.value, h)
  }

  /** A known result built for the side the host is on describes the host. */
  lemma KnownResultIsTrue(h: Host, l: Ledger, plan: Plan, kind: ResultKind, compose: string)
    requires LedgerValid(l) && SameIntent(plan, l.plan) && PlanValid(plan) && kind != RollbackFailed
    requires HostOnSide(h, l, SideOf(kind))
    ensures TrueResult(h, l.(plan := plan, result := Some(KnownResult(plan, kind, compose))))
  {
    SameIntentKeeps(plan, l.plan);
  }

  ghost predicate RecordsKnownResult(e: Event) {
    e.LedgerSaved? && e.ledger.result.Some? && e.ledger.result.value.kind != RollbackFailed
  }

  ghost predicate EarlierResult(t: seq<Event>, k: nat, job: JobId) {
    k < |t| && t[k].LedgerSaved? && t[k].ledger.plan.jobId == job && t[k].ledger.result.Some?
  }

  /** When a known result first becomes durable, the host is on the side it names, and as it describes it. */
  ghost predicate KnownResultsTrue(t: seq<Event>) {
    forall i :: 0 <= i < |t| && RecordsKnownResult(t[i]) ==>
                  TrueResult(t[i].host, t[i].ledger)
                  || exists k: nat :: EarlierResult(t[..i], k, t[i].ledger.plan.jobId)
  }

  ghost predicate Safe(t: seq<Event>) {
    && OncePerJob(t) && WriteAhead(t) && NeverRestaged(t) && ReconcileGoesBack(t)
    && ResultsStable(t) && KnownResultsTrue(t)
  }

  // --- Safety, stated on the store and the host -----------------------------------

  /** The mapping file holds the checkpoint bytes or the target bytes of the ledger. */
  ghost predicate MappingOnEitherSide(h: Host, l: Ledger) {
    h.mapping == Some(l.checkpoint.bytes) || h.mapping == Some(l.targetBytes)
  }

  ghost predicate Open(w: World, job: JobId) {
    job in w.ledgers && w.ledgers[job].state != Terminal
  }

  /** The active pointer never dangles, and the active open ledger brackets the mapping file. */
  ghost predicate ActiveSound(w: World) {
    && (w.active.Some? ==> w.active.value in w.ledgers)
    && (w.active.Some? && Open(w, w.active.value) ==> MappingOnEitherSide(w.host, w.ledgers[w.active.value]))
  }

  /** The job is terminal with a known result, so it has an applied record of its own. */
  predicate Settled(w: World, job: JobId) {
    && job in w.ledgers && w.ledgers[job].state == Terminal && LedgerValid(w.ledgers[job])
    && w.ledgers[job].result.value.kind != RollbackFailed
  }

  function RecordOf(l: Ledger): AppliedState
    requires LedgerValid(l) && l.result.Some? && l.result.value.kind != RollbackFailed
  {
    AppliedOf(l.plan, l.result.value)
  }

  /** The applied record repeats the known result of a settled job. */
  ghost predicate AppliedEquals(w: World, job: JobId) {
    Settled(w, job) ==> w.applied == Some(RecordOf(w.ledgers[job]))
  }

  /** The active pointer never named the job: its Stage was cut after the first write. */
  ghost predicate NeverActive(t: seq<Event>, job: JobId) {
    forall i :: 0 <= i < |t| ==> t[i] != ActiveSet(job)
  }

  /** No Stage was cut: the active pointer named every job that has a ledger. */
  ghost predicate StagesComplete(t: seq<Event>) {
    forall i :: 0 <= i < |t| && t[i].LedgerSaved? ==> !NeverActive(t, t[i].ledger.plan.jobId)
  }

  /** At most one open ledger, it is the active one, and a settled active job has its own applied record. */
  ghost predicate AtomicSound(w: World) {
    && (forall job :: Open(w, job) ==> w.active == Some(job))
    && (w.active.Some? ==> AppliedEquals(w, w.active.value))
  }

  /** After `job` had settled, a job whose Stage was cut wrote the record that now stands. */
  ghost predicate OverwrittenAt(w: World, job: JobId, k: nat) {
    && k < |w.trace| && w.trace[k].AppliedSaved? && w.trace[k].job != job
    && NeverActive(w.trace, w.trace[k].job)
    && w.applied == Some(w.trace[k].applied)
    && Recorded(w.trace[..k], job, Terminal)
  }

  ghost predicate Overwritten(w: World, job: JobId) {
    exists k: nat :: OverwrittenAt(w, job, k)
  }

  /** For both stores: an open ledger that is not the active one was never active. */
  ghost predicate PointerSound(w: World) {
    && (w.active.Some? ==> !NeverActive(w.trace, w.active.value))
    && (forall job :: Open(w, job) ==> w.active == Some(job) || NeverActive(w.trace, job))
  }

  /** For both stores: a settled active job has its own applied record unless a cut job overwrote it. */
  ghost predicate RecordSound(w: World) {
    w.active.Some? ==> AppliedEquals(w, w.active.value) || Overwritten(w, w.active.value)
  }

  // --- The inductive invariant -----------------------------------------------------

  predicate StoredAs(l: Ledger, job: JobId) {
    l.plan.jobId == job && LedgerValid(l) && Printed(l)
  }

  ghost predicate StoredWell(w: World) {
    forall job :: job in w.ledgers ==> StoredAs(w.ledgers[job], job)
  }

  /** The store remembers the last save of each job. */
  ghost predicate Remembers(l: Ledger, saved: Ledger) {
    && SameTransaction(saved, l)
    && (saved.state != Staged ==> l.state != Staged)
    && (saved.result.Some? ==> l.result == saved.result)
  }

  /** What the stored ledgers say about an event of the past. */
  ghost predicate Remembered(ledgers: map<JobId, Ledger>, e: Event) {
    match e
    case LedgerSaved(l, _) => l.plan.jobId in ledgers && Remembers(ledgers[l.plan.jobId], l)
    case WriteCalled(job, _) => job in ledgers && ledgers[job].state != Staged && ledgers[job].state != GrantConsuming
    case GrantUsed(job, op) => op == Forward ==> job in ledgers && ledgers[job].state != Staged
    case ActiveSet(job) => job in ledgers
    case AppliedSaved(job, _, _) => job in ledgers
    case _ => true
  }

  ghost predicate HistoryMatches(w: World) {
    forall i :: 0 <= i < |w.trace| ==> Remembered(w.ledgers, w.trace[i])
  }

  ghost predicate SavedNow(t: seq<Event>, s: nat, l: Ledger) {
    s < |t| && t[s].LedgerSaved? && t[s].ledger == l
  }

  /** Every ledger in the store got there by a save. */
  ghost predicate StoreFromHistory(w: World) {
    forall job :: job in w.ledgers ==> exists s: nat :: SavedNow(w.trace, s, w.ledgers[job])
  }

  ghost predicate Core(w: World) {
    && StoredWell(w) && HistoryMatches(w) && StoreFromHistory(w)
    && Safe(w.trace) && ActiveSound(w)
  }

  /** `atomic` says that the store never cuts a Stage. */
  ghost predicate Inv(w: World, atomic: bool) {
    Core(w) && PointerSound(w) && RecordSound(w) && (atomic ==> StagesComplete(w.trace))
  }

  /**
   * The invariant, folded: it says the same as `Inv`, but a proof that only passes it
   * along does not unfold it. `HeldIsInv` unfolds it.
   */
  ghost predicate Held(w: World, atomic: bool) {
    forall k {:trigger Look(k)} :: Look(k) ==> Inv(w, atomic)
  }

  lemma HeldIsInv(w: World, atomic: bool)
    ensures Held(w, atomic) <==> Inv(w, atomic)
  {
    assert Look(0);
  }

  // --- Effects ------------------------------------------------------------------------

  function Log(w: World, e: Event): World {
    w.(trace := w.trace + [e], calls := w.calls + if IsHostCall(e) then 1 else 0)
  }

  function SaveLedger(w: World, l: Ledger): World {
    Log(w, LedgerSaved(l, w.host)).(ledgers := w.ledgers[l.plan.jobId := l])
  }

  function SetActive(w: World, job: JobId): World {
    Log(w, ActiveSet(job)).(active := Some(job))
  }

  function SaveApplied(w: World, job: JobId, a: AppliedState): World {
    Log(w, AppliedSaved(job, a, w.applied)).(applied := Some(a))
  }

  function SetMapping(w: World, mapping: Option<string>): World {
    w.(host := w.host.(mapping := mapping))
  }

  function SetContainer(w: World, container: Option<Container>): World {
    w.(host := w.host.(container := container))
  }

  // --- Guards ---------------------------------------------------------------------------

  /** No other job holds the target. */
  ghost predicate Unblocked(w: World, job: JobId) {
    w.active.Some? && w.active.value != job ==> !Open(w, w.active.value)
  }

  ghost predicate NoWrite(w: World, job: JobId) {
    forall i :: 0 <= i < |w.trace| && w.trace[i].WriteCalled? ==> w.trace[i].job != job
  }

  ghost predicate NoForwardGrant(t: seq<Event>, job: JobId) {
    forall i :: 0 <= i < |t| && IsForwardGrant(t[i]) ==> t[i].job != job
  }

  ghost predicate MayStage(w: World, l: Ledger) {
    && l.plan.jobId !in w.ledgers
    && LedgerValid(l) && Printed(l) && l.state == Staged
    && w.host.mapping == Some(l.checkpoint.bytes)
    && Unblocked(w, l.plan.jobId)
  }

  ghost predicate HasForwardGrant(t: seq<Event>, job: JobId) {
    exists g: nat :: ForwardGrant(t, g, job)
  }

  ghost predicate MaySave(w: World, l: Ledger) {
    && Open(w, l.plan.jobId)
    && LedgerValid(l)
    && Unblocked(w, l.plan.jobId)
    && var last := w.ledgers[l.plan.jobId];
       && SameTransaction(last, l)
       && l.state != Staged
       && (l.state == GrantConsuming ==> last.state == Staged)
       && (l.state == GrantConsumed ==> HasForwardGrant(w.trace, l.plan.jobId))
       && (last.result.Some? ==> l.result == last.result)
       && (l.state == Committing ==> TrueResult(w.host, l))
       && (l.state == Terminal && l.result.value.kind != RollbackFailed ==>
             last.state == Committing && w.applied == Some(AppliedOf(l.plan, l.result.value)))
  }

  ghost predicate MayWrite(w: World, job: JobId) {
    && Open(w, job) && w.ledgers[job].state == GrantConsumed
    && Unblocked(w, job) && NoWrite(w, job) && Authorized(w.trace, job)
  }

  ghost predicate MayReply(w: World, job: JobId, result: PortResult) {
    job in w.ledgers && w.ledgers[job].state == Terminal && w.ledgers[job].result == Some(result)
  }

  // --- Appending one event keeps safety ------------------------------------------------------

  /** What the log must already say for `e` to be a safe next event. */
  ghost predicate Admissible(t: seq<Event>, e: Event) {
    && Preceded(t, e)
    && match e
       case GrantUsed(job, op) => op == Forward ==> NoForwardGrant(t, job)
       case WriteCalled(job, op) =>
         op == Forward && forall i :: 0 <= i < |t| && t[i].WriteCalled? ==> t[i].job != job
       case LedgerSaved(l, h) =>
         && (forall i :: 0 <= i < |t| && t[i].LedgerSaved? && t[i].ledger.plan.jobId == l.plan.jobId ==>
                           && (t[i].ledger.state != Staged ==> l.state != Staged)
                           && (t[i].ledger.result.Some? ==> l.result == t[i].ledger.result))
         && (RecordsKnownResult(e) ==>
               || TrueResult(h, l)
               || exists k: nat :: EarlierResult(t, k, l.plan.jobId))
       case Replied(job, result) =>
         forall i :: 0 <= i < |t| && t[i].LedgerSaved? && t[i].ledger.plan.jobId == job && t[i].ledger.result.Some?
                     ==> t[i].ledger.result == Some(result)
       case RecreateCalled(_, op, toward) => op == Forward || toward == Before
       case _ => true
  }

  lemma OncePerJobAppend(t: seq<Event>, e: Event)
    requires OncePerJob(t) && Admissible(t, e)
    ensures OncePerJob(t + [e])
  {
  }

  lemma WriteAheadAppend(t: seq<Event>, e: Event)
    requires WriteAhead(t) && Preceded(t, e)
    ensures WriteAhead(t + [e])
  {
    var u := t + [e];
    forall i | 0 <= i < |u| ensures Preceded(u[..i], u[i]) {
      assert u[..i] == t[..i];
      assert t[..|t|] == t;
    }
  }

  lemma NeverRestagedAppend(t: seq<Event>, e: Event)
    requires NeverRestaged(t) && Admissible(t, e)
    ensures NeverRestaged(t + [e])
  {
  }

  lemma ResultsStableAppend(t: seq<Event>, e: Event)
    requires ResultsStable(t) && Admissible(t, e)
    ensures ResultsStable(t + [e])
  {
  }

  lemma KnownResultsTrueAppend(t: seq<Event>, e: Event)
    requires KnownResultsTrue(t)
    requires RecordsKnownResult(e) ==>
               || TrueResult(e.host, e.ledger)
               || exists k: nat :: EarlierResult(t, k, e.ledger.plan.jobId)
    ensures KnownResultsTrue(t + [e])
  {
    var u := t + [e];
    forall i | 0 <= i < |u| && RecordsKnownResult(u[i])
      ensures TrueResult(u[i].host, u[i].ledger)
              || exists k: nat :: EarlierResult(u[..i], k, u[i].ledger.plan.jobId)
    {
      assert u[..i] == t[..i];
      assert t[..|t|] == t;
    }
  }

  lemma SafeAppend(t: seq<Event>, e: Event)
    requires Safe(t) && Admissible(t, e)
    ensures Safe(t + [e])
  {
    OncePerJobAppend(t, e);
    WriteAheadAppend(t, e);
    NeverRestagedAppend(t, e);
    ResultsStableAppend(t, e);
    KnownResultsTrueAppend(t, e);
  }

  // --- Guarded effects keep the invariant ---------------------------------------------------

  /** Appending an event other than a save or a write keeps the link between store and log. */
  lemma HistoryKept(w: World, e: Event)
    requires HistoryMatches(w) && Remembered(w.ledgers, e)
    ensures HistoryMatches(Log(w, e))
  {
  }

  lemma StoreKept(w: World, e: Event)
    requires StoreFromHistory(w)
    ensures StoreFromHistory(Log(w, e))
  {
    forall job | job in w.ledgers ensures exists s: nat :: SavedNow(w.trace + [e], s, w.ledgers[job]) {
      var s: nat :| SavedNow(w.trace, s, w.ledgers[job]);
      assert SavedNow(w.trace + [e], s, w.ledgers[job]);
    }
  }

  /** What the store must say for an event other than a save to enter the log. */
  ghost predicate MayLog(w: World, e: Event) {
    && !e.LedgerSaved? && Admissible(w.trace, e)
    && (e.WriteCalled? ==> e.job in w.ledgers && w.ledgers[e.job].state == GrantConsumed)
    && (IsForwardGrant(e) ==> e.job in w.ledgers && w.ledgers[e.job].state == GrantConsuming)
    && (e.ActiveSet? || e.AppliedSaved? ==> e.job in w.ledgers)
  }

  lemma LogKeepsCore(w: World, e: Event)
    requires Core(w) && MayLog(w, e)
    ensures Core(Log(w, e))
  {
    SafeAppend(w.trace, e);
    HistoryKept(w, e);
    StoreKept(w, e);
  }

  lemma NeverActiveAppend(t: seq<Event>, e: Event, job: JobId)
    ensures NeverActive(t + [e], job) <==> NeverActive(t, job) && e != ActiveSet(job)
  {
    var u := t + [e];
    if NeverActive(u, job) {
      assert forall i :: 0 <= i < |t| ==> u[i] == t[i];
      assert u[|t|] == e;
    }
  }

  /** An event that names no new active job leaves the completeness of the stages as it was. */
  lemma CompleteAppend(t: seq<Event>, e: Event)
    requires !e.ActiveSet?
    requires e.LedgerSaved? && StagesComplete(t) ==> !NeverActive(t, e.ledger.plan.jobId)
    ensures StagesComplete(t + [e]) <==> StagesComplete(t)
  {
    var u := t + [e];
    forall i | 0 <= i < |u| && u[i].LedgerSaved?
      ensures NeverActive(u, u[i].ledger.plan.jobId) <==> NeverActive(t, u[i].ledger.plan.jobId)
    {
      NeverActiveAppend(t, e, u[i].ledger.plan.jobId);
    }
    if StagesComplete(u) {
      assert forall i :: 0 <= i < |t| ==> u[i] == t[i];
    }
  }

  lemma RecordedAppend(t: seq<Event>, e: Event, k: nat)
    requires k <= |t|
    ensures (t + [e])[..k] == t[..k]
  {
  }

  /** An overwritten record stays overwritten while neither pointer nor record moves. */
  lemma OverwrittenAppend(w: World, v: World, e: Event, job: JobId)
    requires v.trace == w.trace + [e] && v.applied == w.applied && !e.ActiveSet?
    requires Overwritten(w, job)
    ensures Overwritten(v, job)
  {
    var k: nat :| OverwrittenAt(w, job, k);
    RecordedAppend(w.trace, e, k);
    NeverActiveAppend(w.trace, e, w.trace[k].job);
    assert OverwrittenAt(v, job, k);
  }

  /** An event that changes neither pointer nor record nor ledgers. */
  lemma LogKeepsPointer(w: World, e: Event)
    requires PointerSound(w) && RecordSound(w) && !e.ActiveSet? && !e.LedgerSaved?
    ensures PointerSound(Log(w, e)) && RecordSound(Log(w, e))
  {
    var v := Log(w, e);
    forall job ensures NeverActive(v.trace, job) <==> NeverActive(w.trace, job) {
      NeverActiveAppend(w.trace, e, job);
    }
    assert forall job :: Open(v, job) <==> Open(w, job);
    if w.active.Some? && !AppliedEquals(w, w.active.value) {
      OverwrittenAppend(w, v, e, w.active.value);
    }
  }

  /** An event that changes neither the ledgers nor the active pointer, applied record or mapping. */
  lemma LogKeepsInv(w: World, e: Event, atomic: bool)
    requires Inv(w, atomic) && MayLog(w, e) && !e.ActiveSet?
    ensures Inv(Log(w, e), atomic)
  {
    LogKeepsCore(w, e);
    LogKeepsPointer(w, e);
    CompleteAppend(w.trace, e);
  }

  /** Changes of the host leave pointer and record alone. */
  lemma HostKeepsPointer(w: World, h: Host)
    requires PointerSound(w) && RecordSound(w)
    ensures PointerSound(w.(host := h)) && RecordSound(w.(host := h))
  {
    var v := w.(host := h);
    assert forall job :: Open(v, job) <==> Open(w, job);
    if w.active.Some? && !AppliedEquals(w, w.active.value) {
      var k: nat :| OverwrittenAt(w, w.active.value, k);
      assert OverwrittenAt(v, w.active.value, k);
    }
  }

  /** The transaction holding the target may move the mapping file to either of its sides. */
  lemma MappingKeepsInv(w: World, job: JobId, mapping: Option<string>, atomic: bool)
    requires Inv(w, atomic)
    requires Open(w, job) && Unblocked(w, job)
    requires mapping == w.host.mapping || mapping == Some(w.ledgers[job].checkpoint.bytes)
             || mapping == Some(w.ledgers[job].targetBytes)
    ensures Inv(SetMapping(w, mapping), atomic)
  {
    HostKeepsPointer(w, w.host.(mapping := mapping));
  }

  lemma ContainerKeepsInv(w: World, container: Option<Container>, atomic: bool)
    requires Inv(w, atomic)
    ensures Inv(SetContainer(w, container), atomic)
  {
    HostKeepsPointer(w, w.host.(container := container));
  }

  lemma WriteIsAdmissible(w: World, job: JobId)
    requires MayWrite(w, job)
    ensures MayLog(w, WriteCalled(job, Forward))
    ensures Open(Log(w, WriteCalled(job, Forward)), job) && Unblocked(Log(w, WriteCalled(job, Forward)), job)
  {
  }

  /** The write call, whether or not it changed the mapping file. */
  lemma WriteKeepsInv(w: World, job: JobId, mapping: Option<string>, atomic: bool)
    requires Inv(w, atomic) && MayWrite(w, job)
    requires mapping == w.host.mapping || mapping == Some(w.ledgers[job].targetBytes)
    ensures Inv(SetMapping(Log(w, WriteCalled(job, Forward)), mapping), atomic)
  {
    WriteIsAdmissible(w, job);
    LogKeepsInv(w, WriteCalled(job, Forward), atomic);
    MappingKeepsInv(Log(w, WriteCalled(job, Forward)), job, mapping, atomic);
  }

  lemma ReplyKeepsInv(w: World, job: JobId, result: PortResult, atomic: bool)
    requires Inv(w, atomic) && MayReply(w, job, result)
    ensures Inv(Log(w, Replied(job, result)), atomic)
  {
    var s: nat :| SavedNow(w.trace, s, w.ledgers[job]);
    assert SavedTerminal(w.trace, s, job, result);
    assert Preceded(w.trace, Replied(job, result));
    LogKeepsInv(w, Replied(job, result), atomic);
  }

  /** The grant call of the forward operation. */
  lemma GrantKeepsInv(w: World, job: JobId, atomic: bool)
    requires Inv(w, atomic) && job in w.ledgers && w.ledgers[job].state == GrantConsuming
    requires NoForwardGrant(w.trace, job)
    ensures Inv(Log(w, GrantUsed(job, Forward)), atomic)
  {
    StoredIsRecorded(w, job);
    LogKeepsInv(w, GrantUsed(job, Forward), atomic);
  }

  lemma RecreateKeepsInv(w: World, job: JobId, op: Operation, toward: Side, atomic: bool)
    requires Inv(w, atomic)
    requires toward == After ==> op == Forward && job in w.ledgers && w.ledgers[job].state == EnvWritten
    ensures Inv(Log(w, RecreateCalled(job, op, toward)), atomic)
  {
    if toward == After {
      StoredIsRecorded(w, job);
    }
    LogKeepsInv(w, RecreateCalled(job, op, toward), atomic);
  }

  lemma StoredIsRecorded(w: World, job: JobId)
    requires StoreFromHistory(w) && StoredWell(w) && job in w.ledgers
    ensures Recorded(w.trace, job, w.ledgers[job].state)
  {
    var s: nat :| SavedNow(w.trace, s, w.ledgers[job]);
    assert SavedWith(w.trace[s], job, w.ledgers[job].state);
  }

  /** The applied record is written from the open, committing ledger it repeats. */
  ghost predicate MayApply(w: World, job: JobId, a: AppliedState) {
    && job in w.ledgers && w.ledgers[job].state == Committing && LedgerValid(w.ledgers[job])
    && Unblocked(w, job)
    && a == AppliedOf(w.ledgers[job].plan, w.ledgers[job].result.value)
  }

  /**
   * Writing an applied record. If another job is active and settled, the writer is a job whose
   * Stage was cut; otherwise no settled active job loses its record.
   */
  lemma AppliedKeepsInv(w: World, job: JobId, a: AppliedState, atomic: bool)
    requires Inv(w, atomic) && MayApply(w, job, a)
    ensures Inv(SaveApplied(w, job, a), atomic)
  {
    var e := AppliedSaved(job, a, w.applied);
    AppliedIsAdmissible(w, job, a);
    LogKeepsCore(w, e);
    LogKeepsPointer(w, e);
    CompleteAppend(w.trace, e);
    AppliedKeepsRecord(w, job, a);
  }

  lemma AppliedIsAdmissible(w: World, job: JobId, a: AppliedState)
    requires StoreFromHistory(w) && StoredWell(w) && MayApply(w, job, a)
    ensures MayLog(w, AppliedSaved(job, a, w.applied))
  {
    var s: nat :| SavedNow(w.trace, s, w.ledgers[job]);
    assert SavedCommitting(w.trace, s, job, a);
  }

  lemma AppliedKeepsRecord(w: World, job: JobId, a: AppliedState)
    requires PointerSound(w) && StoreFromHistory(w) && StoredWell(w) && MayApply(w, job, a)
    ensures RecordSound(SaveApplied(w, job, a))
  {
    var v := SaveApplied(w, job, a);
    if v.active.Some? && Settled(v, v.active.value) {
      assert Open(w, job);
      NeverActiveAppend(w.trace, AppliedSaved(job, a, w.applied), job);
      StoredIsRecorded(w, v.active.value);
      RecordedAppend(w.trace, AppliedSaved(job, a, w.applied), |w.trace|);
      assert w.trace[..|w.trace|] == w.trace;
      assert OverwrittenAt(v, v.active.value, |w.trace|);
    }
  }

  /** No grant was used and no write called for a job whose ledger is still staged. */
  lemma StagedIsUnused(w: World, job: JobId)
    requires HistoryMatches(w) && job in w.ledgers && w.ledgers[job].state == Staged
    ensures NoWrite(w, job) && NoForwardGrant(w.trace, job)
  {
    forall i | 0 <= i < |w.trace| && (w.trace[i].WriteCalled? || IsForwardGrant(w.trace[i]))
      ensures w.trace[i].job != job
    {
      assert Remembered(w.ledgers, w.trace[i]);
    }
  }

  /** A committing ledger whose applied record is in place may become terminal. */
  lemma CommittedMaySettle(w: World, l: Ledger)
    requires l.plan.jobId in w.ledgers && SameTransaction(w.ledgers[l.plan.jobId], l)
    requires w.ledgers[l.plan.jobId].state == l.state == Committing && w.ledgers[l.plan.jobId].result == l.result
    requires LedgerValid(l) && Unblocked(w, l.plan.jobId)
    requires w.applied == Some(AppliedOf(l.plan, l.result.value))
    ensures LedgerValid(l.(state := Terminal)) && MaySave(w, l.(state := Terminal))
  {
  }

  lemma StageIsAdmissible(w: World, l: Ledger)
    requires HistoryMatches(w) && MayStage(w, l)
    ensures Admissible(w.trace, LedgerSaved(l, w.host))
  {
  }

  lemma SaveIsAdmissible(w: World, l: Ledger)
    requires HistoryMatches(w) && MaySave(w, l)
    requires LedgerValid(w.ledgers[l.plan.jobId]) && w.ledgers[l.plan.jobId].plan.jobId == l.plan.jobId
    requires exists s: nat :: SavedNow(w.trace, s, w.ledgers[l.plan.jobId])
    ensures Admissible(w.trace, LedgerSaved(l, w.host))
  {
    var s: nat :| SavedNow(w.trace, s, w.ledgers[l.plan.jobId]);
    if w.ledgers[l.plan.jobId].state == Committing {
      assert EarlierResult(w.trace, s, l.plan.jobId);
    }
  }

  /** The new ledger still remembers an event of the past. */
  lemma SaveRemembers(w: World, l: Ledger, e: Event)
    requires Remembered(w.ledgers, e)
    requires MaySave(w, l) || l.plan.jobId !in w.ledgers
    ensures Remembered(w.ledgers[l.plan.jobId := l], e)
  {
  }

  lemma SaveKeepsHistory(w: World, l: Ledger)
    requires HistoryMatches(w)
    requires MaySave(w, l) || MayStage(w, l)
    ensures HistoryMatches(SaveLedger(w, l))
  {
    var v := SaveLedger(w, l);
    forall i | 0 <= i < |v.trace| ensures Remembered(v.ledgers, v.trace[i]) {
      if i < |w.trace| {
        SaveRemembers(w, l, w.trace[i]);
      }
    }
  }

  lemma SaveKeepsStored(w: World, l: Ledger)
    requires StoredWell(w) && StoredAs(l, l.plan.jobId)
    ensures StoredWell(SaveLedger(w, l))
  {
  }

  /** A continuing save has the printed sides of its transaction. */
  lemma SavedIsPrinted(w: World, l: Ledger)
    requires StoredWell(w) && MaySave(w, l)
    ensures StoredAs(l, l.plan.jobId)
  {
    SameTransactionKeepsPrinted(w.ledgers[l.plan.jobId], l);
  }

  lemma SaveKeepsStore(w: World, l: Ledger)
    requires StoreFromHistory(w)
    ensures StoreFromHistory(SaveLedger(w, l))
  {
    var v := SaveLedger(w, l);
    forall j | j in v.ledgers ensures exists s: nat :: SavedNow(v.trace, s, v.ledgers[j]) {
      if j == l.plan.jobId {
        assert SavedNow(v.trace, |w.trace|, l);
      } else {
        var s: nat :| SavedNow(w.trace, s, w.ledgers[j]);
        assert SavedNow(v.trace, s, v.ledgers[j]);
      }
    }
  }

  lemma SaveKeepsActive(w: World, l: Ledger)
    requires ActiveSound(w) && MaySave(w, l)
    ensures ActiveSound(SaveLedger(w, l))
  {
  }

  /** A save of an open job: nothing else opens, and a job that settles finds its own record. */
  lemma SaveKeepsPointer(w: World, l: Ledger)
    requires PointerSound(w) && RecordSound(w) && MaySave(w, l)
    ensures PointerSound(SaveLedger(w, l)) && RecordSound(SaveLedger(w, l))
  {
    var v, e := SaveLedger(w, l), LedgerSaved(l, w.host);
    forall job ensures NeverActive(v.trace, job) <==> NeverActive(w.trace, job) {
      NeverActiveAppend(w.trace, e, job);
    }
    assert forall job :: Open(v, job) ==> Open(w, job);
    if w.active.Some? && !AppliedEquals(w, w.active.value) {
      OverwrittenAppend(w, v, e, w.active.value);
    }
  }

  lemma SavedJobIsComplete(w: World, job: JobId)
    requires StoreFromHistory(w) && StoredWell(w) && job in w.ledgers && StagesComplete(w.trace)
    ensures !NeverActive(w.trace, job)
  {
    var s: nat :| SavedNow(w.trace, s, w.ledgers[job]);
  }

  lemma SaveKeepsInv(w: World, l: Ledger, atomic: bool)
    requires Inv(w, atomic) && MaySave(w, l)
    ensures Inv(SaveLedger(w, l), atomic)
  {
    SaveIsAdmissible(w, l);
    SafeAppend(w.trace, LedgerSaved(l, w.host));
    SaveKeepsHistory(w, l);
    SavedIsPrinted(w, l);
    SaveKeepsStored(w, l);
    SaveKeepsStore(w, l);
    SaveKeepsActive(w, l);
    SaveKeepsPointer(w, l);
    if atomic {
      SavedJobIsComplete(w, l.plan.jobId);
      CompleteAppend(w.trace, LedgerSaved(l, w.host));
    }
  }

  /** No event of the past concerns a job without a ledger. */
  lemma UnknownJob(w: World, job: JobId)
    requires HistoryMatches(w) && job !in w.ledgers
    ensures NeverActive(w.trace, job)
    ensures forall i :: 0 <= i < |w.trace| && w.trace[i].LedgerSaved? ==> w.trace[i].ledger.plan.jobId != job
  {
    forall i | 0 <= i < |w.trace|
      ensures w.trace[i] != ActiveSet(job)
      ensures w.trace[i].LedgerSaved? ==> w.trace[i].ledger.plan.jobId != job
    {
      assert Remembered(w.ledgers, w.trace[i]);
    }
  }

  lemma StageWriteKeepsCore(w: World, l: Ledger)
    requires Core(w) && MayStage(w, l)
    ensures Core(SaveLedger(w, l))
  {
    StageIsAdmissible(w, l);
    SafeAppend(w.trace, LedgerSaved(l, w.host));
    SaveKeepsHistory(w, l);
    SaveKeepsStored(w, l);
    SaveKeepsStore(w, l);
  }

  lemma StageWriteKeepsPointer(w: World, l: Ledger)
    requires PointerSound(w) && RecordSound(w) && HistoryMatches(w) && l.plan.jobId !in w.ledgers
    requires w.active.Some? ==> w.active.value in w.ledgers
    ensures PointerSound(SaveLedger(w, l)) && RecordSound(SaveLedger(w, l))
  {
    var v, e := SaveLedger(w, l), LedgerSaved(l, w.host);
    UnknownJob(w, l.plan.jobId);
    forall job ensures NeverActive(v.trace, job) <==> NeverActive(w.trace, job) {
      NeverActiveAppend(w.trace, e, job);
    }
    assert forall job :: Open(v, job) ==> job == l.plan.jobId || Open(w, job);
    if w.active.Some? && !AppliedEquals(w, w.active.value) {
      OverwrittenAppend(w, v, e, w.active.value);
    }
  }

  /** The file store's Stage: the ledger reaches the disk before the active pointer does. */
  lemma StageWriteKeepsInv(w: World, l: Ledger)
    requires Inv(w, false) && MayStage(w, l)
    ensures Inv(SaveLedger(w, l), false)
    ensures NeverActive(SaveLedger(w, l).trace, l.plan.jobId) && !StagesComplete(SaveLedger(w, l).trace)
  {
    StageWriteKeepsCore(w, l);
    StageWriteKeepsPointer(w, l);
    UnknownJob(w, l.plan.jobId);
    NeverActiveAppend(w.trace, LedgerSaved(l, w.host), l.plan.jobId);
    assert SaveLedger(w, l).trace[|w.trace|] == LedgerSaved(l, w.host);
  }

  lemma SetActiveKeepsPointer(w: World, job: JobId)
    requires PointerSound(w) && Open(w, job) && Unblocked(w, job)
    ensures PointerSound(SetActive(w, job)) && RecordSound(SetActive(w, job))
  {
    var v := SetActive(w, job);
    forall j ensures NeverActive(v.trace, j) <==> NeverActive(w.trace, j) && j != job {
      NeverActiveAppend(w.trace, ActiveSet(job), j);
    }
    assert forall j :: Open(v, j) <==> Open(w, j);
  }

  /** A completed Stage leaves no job behind, and completes none but its own. */
  lemma StageCompletes(w: World, l: Ledger)
    requires HistoryMatches(w) && l.plan.jobId !in w.ledgers
    ensures StagesComplete(SetActive(SaveLedger(w, l), l.plan.jobId).trace) <==> StagesComplete(w.trace)
  {
    var u, job := w.trace + [LedgerSaved(l, w.host)], l.plan.jobId;
    var v := u + [ActiveSet(job)];
    UnknownJob(w, job);
    forall j ensures NeverActive(v, j) <==> NeverActive(w.trace, j) && j != job {
      NeverActiveAppend(w.trace, LedgerSaved(l, w.host), j);
      NeverActiveAppend(u, ActiveSet(job), j);
    }
    assert forall i :: 0 <= i < |w.trace| ==> v[i] == w.trace[i];
    assert v[|w.trace|] == LedgerSaved(l, w.host) && v[|w.trace| + 1] == ActiveSet(job);
  }

  lemma StagedIsOpen(w: World, l: Ledger)
    requires MayStage(w, l) && ActiveSound(w)
    ensures Open(SaveLedger(w, l), l.plan.jobId) && Unblocked(SaveLedger(w, l), l.plan.jobId)
  {
  }

  lemma StageKeepsCore(w: World, l: Ledger)
    requires Core(w) && MayStage(w, l)
    ensures Core(SetActive(SaveLedger(w, l), l.plan.jobId))
  {
    var v := SaveLedger(w, l);
    StageWriteKeepsCore(w, l);
    LogKeepsCore(v, ActiveSet(l.plan.jobId));
    assert ActiveSound(SetActive(v, l.plan.jobId));
  }

  lemma StageKeepsInv(w: World, l: Ledger, atomic: bool)
    requires Inv(w, atomic) && MayStage(w, l)
    ensures Inv(SetActive(SaveLedger(w, l), l.plan.jobId), atomic)
  {
    StageKeepsCore(w, l);
    StageWriteKeepsPointer(w, l);
    StagedIsOpen(w, l);
    SetActiveKeepsPointer(SaveLedger(w, l), l.plan.jobId);
    StageCompletes(w, l);
  }

  // --- What follows for the store and its record ----------------------------------------------

  /** An open ledger is the active one exactly when its Stage was not cut. */
  lemma OpenIsActiveUnlessCut(w: World, atomic: bool, job: JobId)
    requires Inv(w, atomic) && Open(w, job)
    ensures w.active == Some(job) <==> !NeverActive(w.trace, job)
  {
  }

  /**
   * If no Stage was cut, for either store: at most one ledger is open, it is the active one, it
   * brackets the mapping file, and a settled active job has its own applied record.
   */
  lemma CompleteIsAtomic(w: World, atomic: bool)
    requires Inv(w, atomic) && StagesComplete(w.trace)
    ensures AtomicSound(w)
    ensures forall job :: Open(w, job) ==> MappingOnEitherSide(w.host, w.ledgers[job])
  {
    forall job | Open(w, job) ensures w.active == Some(job) {
      SavedJobIsComplete(w, job);
    }
    if w.active.Some? && !AppliedEquals(w, w.active.value) {
      var k: nat :| OverwrittenAt(w, w.active.value, k);
      WriterIsSaved(w.trace, k);
      assert false;
    }
  }

  /** The writer of an applied record has a saved ledger. */
  lemma WriterIsSaved(t: seq<Event>, k: nat)
    requires WriteAhead(t) && k < |t| && t[k].AppliedSaved?
    ensures exists s: nat :: s < |t| && t[s].LedgerSaved? && t[s].ledger.plan.jobId == t[k].job
  {
    assert Preceded(t[..k], t[k]);
    var s: nat :| SavedCommitting(t[..k], s, t[k].job, t[k].applied);
    assert t[..k][s] == t[s];
  }

  /**
   * Exactly when the applied record of a settled active job is not its own: a job whose Stage was
   * cut wrote a different record after the active job had settled.
   */
  lemma RecordDiffersExactly(w: World, atomic: bool, job: JobId)
    requires Inv(w, atomic) && w.active == Some(job) && Settled(w, job)
    ensures !AppliedEquals(w, job) <==>
            exists k: nat :: OverwrittenAt(w, job, k) && w.trace[k].applied != RecordOf(w.ledgers[job])
  {
    if !AppliedEquals(w, job) {
      var k: nat :| OverwrittenAt(w, job, k);
      assert w.trace[k].applied != RecordOf(w.ledgers[job]);
    }
  }

  /**
   * What a writer can check beforehand: it replaces the record of a settled active job only if
   * the active pointer names another job, and then its own Stage was cut.
   */
  lemma OnlyCutJobsOverwrite(w: World, job: JobId, a: AppliedState)
    requires PointerSound(w) && MayApply(w, job, a)
    requires w.active.Some? && Settled(w, w.active.value) && AppliedEquals(w, w.active.value)
    ensures w.active != Some(job) && NeverActive(w.trace, job)
    ensures AppliedEquals(SaveApplied(w, job, a), w.active.value) <==> a == RecordOf(w.ledgers[w.active.value])
  {
    assert Open(w, job);
  }

  lemma StillStageable(w: World, l: Ledger, m: Ledger)
    requires MayStage(w, l) && MayStage(w, m) && l.plan.jobId != m.plan.jobId
    requires w.active.Some? ==> w.active.value in w.ledgers
    ensures MayStage(SaveLedger(w, l), m)
  {
  }

  /**
   * Why the completeness of the stages is needed. Whenever two jobs could be staged from the
   * same state, a crash between the file store's two writes for the first leaves a ledger that
   * the second Stage does not see: both are then open.
   */
  lemma OrphanLedger(w: World, l: Ledger, m: Ledger)
    requires Inv(w, false) && MayStage(w, l) && MayStage(w, m)
    requires l.plan.jobId != m.plan.jobId
    ensures MayStage(SaveLedger(w, l), m)
    ensures var v := SetActive(SaveLedger(SaveLedger(w, l), m), m.plan.jobId);
            Inv(v, false) && Open(v, l.plan.jobId) && Open(v, m.plan.jobId) && !AtomicSound(v)
  {
    StageWriteKeepsInv(w, l);
    StillStageable(w, l, m);
    StageKeepsInv(SaveLedger(w, l), m, false);
    var v := SetActive(SaveLedger(SaveLedger(w, l), m), m.plan.jobId);
    assert Open(v, l.plan.jobId);
  }
}
