/**
 * Job claims on the agent side: a claim that recovers the active job may change its lease
 * but never its intent, and no other job is processed while one is active
 * (host_pull_claim_validation.go, host_pull_execution.go, journal.go).
 */
module Claims {
  import opened Basics

  datatype Identity = Identity(
    protocol: int, id: string, agentServiceId: string, hostId: string, transportMode: string,
    ownershipEpoch: int, policyRevision: int, targetId: string, targetType: string, serviceType: string,
    deploymentMode: string, currentVersion: string, targetVersion: string, version: string)

  /** A frozen software authorization; `body` stands for the fields only compared for equality. */
  datatype Software = Software(projection: int, wellFormed: bool, body: string)

  /** The two operations of a job, with exactly the binding each may carry. */
  datatype Payload =
    | PortJob(contract: int, binding: string)
    | SoftwareJob(update: Option<Software>, rejected: bool)

  /** `text` is compared, `parses` says whether it is a non-zero RFC 3339 time. */
  datatype Expiry = Expiry(text: string, parses: bool)

  datatype Job = Job(identity: Identity, payload: Payload, command: string, lease: nat, expiry: Expiry,
                     recoveryRequired: bool, terminal: bool)

  predicate IsWordChar(c: char) {
    '0' <= c <= '9' || 'a' <= c <= 'z' || 'A' <= c <= 'Z'
  }

  /** `identifierPattern` */
  predicate IsIdentifier(s: string) {
    && 1 <= |s| <= 128 && IsWordChar(s[0])
    && forall i :: 0 <= i < |s| ==> IsWordChar(s[i]) || s[i] in "._:-"
  }

  predicate IsPortV2(j: Job) {
    j.identity.protocol == 2 && j.payload.PortJob? && j.payload.contract == 2
  }

  predicate IsSoftwareV2(j: Job) {
    j.identity.protocol == 2 && j.payload.SoftwareJob?
  }

  predicate IsV2(j: Job) {
    IsPortV2(j) || IsSoftwareV2(j)
  }

  /** `sameRecoveredJobLease` */
  predicate SameLease(active: Job, recovered: Job) {
    if !(IsPortV2(active) && IsPortV2(recovered)) && !(IsSoftwareV2(active) && IsSoftwareV2(recovered)) then
      active.command == recovered.command
    else if active.lease == recovered.lease then
      active.command == recovered.command && active.expiry.text == recovered.expiry.text
    else
      && recovered.recoveryRequired && active.lease != 0 && active.lease < MAX_INT64
      && recovered.lease == active.lease + 1 && active.command != recovered.command
      && IsIdentifier(active.command) && IsIdentifier(recovered.command)
      && active.expiry.parses && recovered.expiry.parses
  }

  predicate Authorized(j: Job) {
    && j.payload.SoftwareJob? && j.payload.update.Some? && j.payload.update.value.wellFormed
    && j.identity.policyRevision == j.payload.update.value.projection
  }

  /** `sameRecoveredJobIntent` */
  predicate SameIntent(active: Job, recovered: Job) {
    && SameLease(active, recovered)
    && active.identity == recovered.identity
    && match (active.payload, recovered.payload)
       case (SoftwareJob(update, rejected), SoftwareJob(update', rejected')) =>
         && rejected == rejected'
         && (IsSoftwareV2(active) && (active.lease != recovered.lease || active.command != recovered.command) ==>
               !rejected && Authorized(active) && Authorized(recovered))
         && update == update'
       case (PortJob(_, _), PortJob(_, _)) => active.payload == recovered.payload
       case _ => false
  }

  // --- Chains of recoveries ----------------------------------------------------------

  /** Every job of the chain was accepted as a recovery of the one before it. */
  ghost predicate Chain(jobs: seq<Job>) {
    && |jobs| >= 1 && IsV2(jobs[0])
    && forall i :: 0 < i < |jobs| ==> SameIntent(jobs[i - 1], jobs[i])
  }

  /** How often the command changed along the chain. */
  function Renewals(jobs: seq<Job>): nat {
    if |jobs| < 2 then 0
    else Renewals(jobs[..|jobs| - 1]) + if jobs[|jobs| - 1].command != jobs[|jobs| - 2].command then 1 else 0
  }

  lemma ChainPrefix(jobs: seq<Job>)
    requires Chain(jobs) && |jobs| >= 2
    ensures Chain(jobs[..|jobs| - 1])
  {
    var init := jobs[..|jobs| - 1];
    forall i | 0 < i < |init| ensures SameIntent(init[i - 1], init[i]) {
      assert SameIntent(jobs[i - 1], jobs[i]);
    }
  }

  /**
   * Along any chain of accepted recoveries the identity and the port or software intent are
   * those of the first claim, the lease generation is the first one plus the number of
   * renewals, and it stays within 64 bits; the largest generation is never renewed.
   */
  lemma {:induction false} ChainKeepsIntent(jobs: seq<Job>)
    requires Chain(jobs)
    ensures var first, last := jobs[0], jobs[|jobs| - 1];
            && last.identity == first.identity && last.payload == first.payload
            && last.lease == first.lease + Renewals(jobs)
            && (first.lease <= MAX_INT64 ==> last.lease <= MAX_INT64)
            && (first.lease >= MAX_INT64 ==> last.lease == first.lease && last.command == first.command)
    decreases |jobs|
  {
    var n := |jobs| - 1;
    if n > 0 {
      var init := jobs[..n];
      ChainPrefix(jobs);
      ChainKeepsIntent(init);
      assert SameIntent(jobs[n - 1], jobs[n]);
    }
  }

  /** A later claim of the chain with the same lease generation has the same command and expiry. */
  lemma {:induction false} SameGenerationSameCommand(jobs: seq<Job>)
    requires Chain(jobs) && jobs[|jobs| - 1].lease == jobs[0].lease
    ensures jobs[|jobs| - 1].command == jobs[0].command
    ensures jobs[|jobs| - 1].expiry.text == jobs[0].expiry.text
    decreases |jobs|
  {
    var n := |jobs| - 1;
    if n > 0 {
      var init := jobs[..n];
      ChainPrefix(jobs);
      ChainKeepsIntent(init);
      ChainKeepsIntent(jobs);
      assert SameIntent(jobs[n - 1], jobs[n]);
      SameGenerationSameCommand(init);
    }
  }

  // --- The agent ------------------------------------------------------------------------

  /** `later` is the same job as `earlier`, at the same or a later lease. */
  predicate Descends(earlier: Job, later: Job) {
    && later.identity == earlier.identity
    && (earlier.payload == later.payload)
    && (IsV2(earlier) ==> earlier.lease <= later.lease)
    && (IsV2(earlier) && earlier.lease == later.lease ==>
          earlier.command == later.command && earlier.expiry.text == later.expiry.text)
  }

  lemma IntentDescends(a: Job, b: Job, c: Job)
    requires Descends(a, b) && SameIntent(b, c)
    ensures Descends(a, c)
  {
  }

  datatype Event = Processed(job: Job) | Cleared

  ghost predicate ClearedBetween(t: seq<Event>, i: int, j: int) {
    exists k :: 0 <= i < k < j <= |t| && t[k] == Cleared
  }

  /** Between two clears only one job is processed, with one intent and a lease that never falls. */
  ghost predicate OneJobAtATime(t: seq<Event>) {
    forall i, j :: 0 <= i < j < |t| && t[i].Processed? && t[j].Processed? ==>
                     ClearedBetween(t, i, j) || Descends(t[i].job, t[j].job)
  }

  /** The durable active job descends from everything processed since the last clear. */
  ghost predicate ActiveIsLatest(t: seq<Event>, active: Option<Job>) {
    forall i :: 0 <= i < |t| && t[i].Processed? ==>
                  ClearedBetween(t, i, |t|) || (active.Some? && Descends(t[i].job, active.value))
  }

  /** A first claim, or a recovery of the active job, descends from everything since the last clear. */
  lemma SuccessorIsLatest(t: seq<Event>, active: Option<Job>, job: Job)
    requires ActiveIsLatest(t, active)
    requires active.Some? ==> SameIntent(active.value, job)
    ensures ActiveIsLatest(t, Some(job))
  {
    forall i | 0 <= i < |t| && t[i].Processed? && !ClearedBetween(t, i, |t|) ensures Descends(t[i].job, job) {
      IntentDescends(t[i].job, active.value, job);
    }
  }

  datatype Answer = NoJob | Clear(job: Job, canceled: bool) | Offer(job: Job)

  lemma AppendProcessed(t: seq<Event>, job: Job)
    requires OneJobAtATime(t) && ActiveIsLatest(t, Some(job))
    ensures OneJobAtATime(t + [Processed(job)]) && ActiveIsLatest(t + [Processed(job)], Some(job))
  {
    var u := t + [Processed(job)];
    forall i, j | 0 <= i < j <= |t| && ClearedBetween(t, i, j)
      ensures ClearedBetween(u, i, j) && ClearedBetween(u, i, |u|)
    {
      var k :| 0 <= i < k < j && t[k] == Cleared;
      assert u[k] == Cleared;
    }
  }

  lemma AppendCleared(t: seq<Event>, active: Option<Job>)
    requires OneJobAtATime(t)
    ensures OneJobAtATime(t + [Cleared]) && ActiveIsLatest(t + [Cleared], active)
  {
    var u := t + [Cleared];
    forall i, j | 0 <= i < j <= |t| && ClearedBetween(t, i, j) ensures ClearedBetween(u, i, j) {
      var k :| 0 <= i < k < j && t[k] == Cleared;
      assert u[k] == Cleared;
    }
    assert u[|t|] == Cleared;
  }

  class Agent {
    var active: Option<Job>
    var trace: seq<Event>

    ghost predicate Valid()
      reads this
    {
      OneJobAtATime(trace) && ActiveIsLatest(trace, active)
    }

    constructor ()
      ensures Valid() && active == None && trace == []
    {
      active, trace := None, [];
    }

    method Check() returns (r: Run<bool>)
    {
      var passes: bool, crash: bool := *, *;
      return if crash then Crashed else Finished(passes);
    }

    /**
     * `Journal.SetActive`: another job or operation is refused, and so is another intent of a
     * software job or a contract 2 port job, except for a software cursor without a frozen
     * authorization whose saved plan matches (`legacy`).
     */
    method SetActive(job: Job, legacy: bool) returns (r: Run<bool>)
      requires Valid()
      modifies this`active
      ensures active == old(active) || active == Some(job)
      ensures r == Finished(true) ==> active == Some(job)
      ensures active != old(active) && old(active).Some? ==>
                && old(active).value.identity.id == job.identity.id
                && old(active).value.payload.PortJob? == job.payload.PortJob?
                && (IsPortV2(job) ==> SameIntent(old(active).value, job))
                && (job.payload.SoftwareJob? ==> SameIntent(old(active).value, job) || legacy)
      ensures old(active).Some? ==> SameIntent(old(active).value, job) ==> Valid()
      ensures old(active).None? || active == old(active) ==> Valid()
    {
      if active.Some? &&
         (active.value.identity.id != job.identity.id || active.value.payload.PortJob? != job.payload.PortJob?) {
        return Finished(false);
      }
      if active.Some? && job.payload.SoftwareJob? && !SameIntent(active.value, job) && !legacy {
        return Finished(false);
      }
      if active.Some? && IsPortV2(job) && !SameIntent(active.value, job) {
        return Finished(false);
      }
      var took: bool, reported: bool, crash: bool := *, *, *;
      if took {
        if active.None? || SameIntent(active.value, job) {
          SuccessorIsLatest(trace, active, job);
        }
        active := Some(job);
      }
      return if crash then Crashed else Finished(took && reported);
    }

    /** `executeOnce` without terminal-only software recovery */
    method ExecuteOnce(answer: Answer) returns (r: Run<bool>)
      requires Valid()
      modifies this
      ensures Valid() && old(trace) <= trace
    {
      var ready :- Check();
      if !ready || (active.Some? && (active.value.lease == 0 || active.value.lease > MAX_INT64)) {
        return Finished(false);
      }
      match answer {
        case NoJob => return Finished(true);
        case Clear(job, canceled) => r := ClearActive(job, canceled);
        case Offer(job) => r := Admit(job);
      }
    }

    /** The terminal proof for the active job, then `Journal.ClearActive`. */
    method ClearActive(job: Job, canceled: bool) returns (r: Run<bool>)
      requires Valid()
      modifies this
      ensures Valid() && old(trace) <= trace
      ensures active != old(active) ==>
                active == None && old(active).Some? && old(active).value.identity.id == job.identity.id
    {
      if active.None? {
        return Finished(false);
      }
      if canceled {
        if active.value.identity.protocol != 2 || job.identity.id != active.value.identity.id {
          return Finished(false);
        }
      } else if !SameIntent(active.value, job) || !job.terminal {
        return Finished(false);
      }
      var took: bool := *;
      if took {
        AppendCleared(trace, None);
        active, trace := None, trace + [Cleared];
      }
      r := Check();
    }

    /** A claim is processed only if it is the active job's own recovery, or nothing is active. */
    method Admit(job: Job) returns (r: Run<bool>)
      requires Valid()
      modifies this
      ensures Valid() && old(trace) <= trace
      ensures |trace| > |old(trace)| && old(active).Some? ==>
                job.recoveryRequired && SameIntent(old(active).value, job)
    {
      var bound :- Check();
      if !bound {
        if active == None && !job.recoveryRequired && job.payload.SoftwareJob? {
          var _ :- SetActive(job.(payload := job.payload.(rejected := true)), false);
        }
        return Finished(false);
      }
      if job.payload.SoftwareJob? && job.payload.rejected {
        return Finished(false);
      }
      var valid :- Check();
      if !valid || (active.Some? && (active.value.identity.id != job.identity.id || !job.recoveryRequired)) {
        return Finished(false);
      }
      if active.Some? && !SameIntent(active.value, job) {
        return Finished(false);
      }
      var legacy: bool := *;
      var saved :- SetActive(job, legacy);
      if !saved {
        return Finished(false);
      }
      AppendProcessed(trace, job);
      trace := trace + [Processed(job)];
      r := Check();
    }

    /** Any sequence of polls, with crashes anywhere. */
    method Poll(answers: seq<Answer>)
      requires Valid()
      modifies this
      ensures OneJobAtATime(trace) && old(trace) <= trace
    {
      for i := 0 to |answers|
        invariant Valid() && old(trace) <= trace
      {
        var _ := ExecuteOnce(answers[i]);
      }
    }
  }
}
