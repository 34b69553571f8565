/**
 * The three policy candidates of an active port job: before, target and rollback, all
 * derived once from the staged policy (agent_port_policy.go).
 */
module PolicyCandidates {
  import opened Basics

  /** A public URL as far as the port rewrite looks at it. */
  datatype PublicUrl =
    | NoUrl
    | Url(scheme: string, host: string, port: Option<int>, rest: string)
    | Malformed(text: string)

  datatype Endpoint = Endpoint(host: string, port: int, ssl: bool, url: PublicUrl)

  datatype Mode = Systemd | Docker

  datatype Target = Target(
    serviceId: string, mode: Mode, endpointRevision: int, appliedEndpointRevision: int,
    configRevision: int, configSha: string,
    desired: Option<Endpoint>, applied: Option<Endpoint>, listen: Option<Endpoint>, health: Option<Endpoint>)

  /** The revisions in a policy header. */
  datatype Header = Header(source: int, projection: int, executor: int, executorSha: string)

  /** `busy`: a token rotation or self-update is pending. `rest` stands for the other untouched fields. */
  datatype Policy = Policy(header: Header, busy: bool, rest: string, targets: seq<Target>)

  /** The SHA-256 digest of an advertised endpoint, modelled as injective. */
  datatype EndpointDigest = DigestOf(endpoint: Endpoint)

  datatype DockerRef = DockerRef(publishedHostIp: string, healthPort: int)

  datatype SnapshotRef = SnapshotRef(
    id: string, header: Header, endpointRevision: int, appliedEndpointRevision: int,
    configRevision: int, configSha: string, advertisedPort: int, advertisedDigest: EndpointDigest,
    listenPort: int, docker: Option<DockerRef>)

  datatype PortPlan = PortPlan(jobId: string, targetId: string,
                               before: SnapshotRef, target: SnapshotRef, rollback: SnapshotRef)

  // --- Endpoints ---------------------------------------------------------------------

  /** `portAdvertisedEndpoint`: an unchanged port keeps the URL, a changed one becomes explicit in it. */
  function Advertised(e: Endpoint, port: int): Option<Endpoint> {
    if e.url == NoUrl || e.port == port then Some(e.(port := port))
    else match e.url
      case Url(scheme, host, _, rest) => Some(e.(port := port, url := Url(scheme, host, Some(port), rest)))
      case _ => None
  }

  /** Advertising a port returns the same endpoint exactly when the port is the same. */
  lemma AdvertisedUnchanged(e: Endpoint, port: int)
    ensures Advertised(e, port) == Some(e) <==> e.port == port
  {
  }

  /**
   * Why rollback is derived from the before candidate: rewriting the target's URL back to
   * the old port does not restore a URL that had no explicit port.
   */
  lemma RewriteIsNotUndone(e: Endpoint, port: int)
    requires e.url.Url? && e.url.port == None && port != e.port
    ensures Advertised(e, port).Some?
    ensures Advertised(Advertised(e, port).value, e.port).Some?
    ensures Advertised(Advertised(e, port).value, e.port).value != e
  {
    var there := Advertised(e, port).value;
    assert Advertised(there, e.port).value.url.port == Some(e.port);
  }

  function AdvertisedOption(e: Option<Endpoint>, port: int): Option<Option<Endpoint>> {
    match e
    case None => Some(None)
    case Some(endpoint) =>
      match Advertised(endpoint, port)
      case None => None
      case Some(after) => Some(Some(after))
  }

  // --- Candidates -----------------------------------------------------------------------

  /** The selected target as the snapshot describes it. */
  function CandidateTarget(t: Target, ref: SnapshotRef): Option<Target> {
    if t.applied.None? then None
    else
      var applied := Advertised(t.applied.value, ref.advertisedPort);
      var healthPort :=
        if t.mode == Systemd then ref.listenPort
        else if ref.docker.Some? then ref.docker.value.healthPort
        else 0;
      var listen, health := AdvertisedOption(t.listen, ref.listenPort), AdvertisedOption(t.health, healthPort);
      if applied.None? || listen.None? || health.None? || (t.mode == Systemd && t.listen.None?) ||
         (t.mode == Docker && (ref.docker.None? || t.health.None?)) then None
      else Some(t.(endpointRevision := ref.endpointRevision, appliedEndpointRevision := ref.appliedEndpointRevision,
                   configRevision := ref.configRevision, configSha := ref.configSha,
                   desired := applied, applied := applied, listen := listen.value, health := health.value))
  }

  /** The position of the first target with the given service, or the number of targets. */
  function First(targets: seq<Target>, id: string): (i: nat)
    ensures i <= |targets|
    ensures i < |targets| ==> targets[i].serviceId == id
    ensures forall k :: 0 <= k < i ==> targets[k].serviceId != id
  {
    if targets == [] || targets[0].serviceId == id then 0 else 1 + First(targets[1..], id)
  }

  lemma FirstIs(targets: seq<Target>, id: string, i: nat)
    requires i < |targets| && targets[i].serviceId == id
    requires forall k :: 0 <= k < i ==> targets[k].serviceId != id
    ensures First(targets, id) == i
  {
  }

  function Candidate(policy: Policy, id: string, ref: SnapshotRef): Option<Policy> {
    var i := First(policy.targets, id);
    if i == |policy.targets| then None
    else
      match CandidateTarget(policy.targets[i], ref)
      case None => None
      case Some(t) => Some(policy.(header := ref.header, targets := policy.targets[i := t]))
  }

  /** `portPolicyCandidate`: the loop over a copy of the targets. */
  method BuildCandidate(policy: Policy, id: string, ref: SnapshotRef) returns (r: Option<Policy>)
    ensures r == Candidate(policy, id, ref)
  {
    var candidate := policy.(header := ref.header);
    for i := 0 to |candidate.targets|
      invariant forall k :: 0 <= k < i ==> policy.targets[k].serviceId != id
    {
      if candidate.targets[i].serviceId == id {
        assert First(policy.targets, id) == i;
        var t := CandidateTarget(candidate.targets[i], ref);
        if t.None? {
          return None;
        }
        return Some(candidate.(targets := candidate.targets[i := t.value]));
      }
    }
    return None;
  }

  /** Two policies that differ at most in the header and in the target at `i`. */
  predicate DifferOnlyAt(p: Policy, q: Policy, i: nat) {
    && p.busy == q.busy && p.rest == q.rest && |p.targets| == |q.targets|
    && forall k :: 0 <= k < |p.targets| && k != i ==> p.targets[k] == q.targets[k]
  }

  lemma CandidateDiffersOnce(policy: Policy, id: string, ref: SnapshotRef)
    requires Candidate(policy, id, ref).Some?
    ensures var c := Candidate(policy, id, ref).value;
            && First(c.targets, id) == First(policy.targets, id) < |policy.targets|
            && DifferOnlyAt(policy, c, First(policy.targets, id))
            && c.header == ref.header
            && c.targets[First(policy.targets, id)].applied ==
               Advertised(policy.targets[First(policy.targets, id)].applied.value, ref.advertisedPort)
  {
    FirstIs(Candidate(policy, id, ref).value.targets, id, First(policy.targets, id));
  }

  /** `portAgentPolicyMatchesSnapshot` */
  predicate MatchesSnapshot(policy: Policy, id: string, ref: SnapshotRef) {
    var i := First(policy.targets, id);
    && policy.header == ref.header && i < |policy.targets|
    && var t := policy.targets[i];
       && t.configRevision == ref.configRevision && t.configSha == ref.configSha
       && t.appliedEndpointRevision == ref.appliedEndpointRevision
       && t.applied.Some? && t.applied.value.port == ref.advertisedPort
       && DigestOf(t.applied.value) == ref.advertisedDigest
       && match t.mode
          case Systemd => ref.docker.None? && t.listen.Some? && t.listen.value.port == ref.listenPort
          case Docker =>
            && ref.docker.Some? && t.health.Some?
            && t.health.value.host == ref.docker.value.publishedHostIp
            && t.health.value.port == ref.docker.value.healthPort
  }

  // --- The journal's state ---------------------------------------------------------------------

  datatype Candidates = Candidates(before: Policy, target: Policy, rollback: Policy)

  datatype PolicyState = PolicyState(jobId: string, candidates: Candidates, active: string)

  predicate CandidateValid(policy: Policy, id: string, ref: SnapshotRef) {
    && !policy.busy && MatchesSnapshot(policy, id, ref)
    && policy.targets[First(policy.targets, id)].endpointRevision == ref.endpointRevision
  }

  predicate CandidatesValid(c: Candidates, plan: PortPlan) {
    && CandidateValid(c.before, plan.targetId, plan.before)
    && CandidateValid(c.target, plan.targetId, plan.target)
    && CandidateValid(c.rollback, plan.targetId, plan.rollback)
  }

  /** `validate` */
  predicate StateValid(s: PolicyState, plan: PortPlan) {
    && s.jobId == plan.jobId && CandidatesValid(s.candidates, plan)
    && (s.active == plan.before.id || s.active == plan.target.id || s.active == plan.rollback.id)
  }

  /** The candidates as staging derives them: target and rollback both come from before. */
  predicate Derived(c: Candidates, policy: Policy, plan: PortPlan) {
    && MatchesSnapshot(policy, plan.targetId, plan.before)
    && Candidate(policy, plan.targetId, plan.before) == Some(c.before)
    && Candidate(c.before, plan.targetId, plan.target) == Some(c.target)
    && Candidate(c.before, plan.targetId, plan.rollback) == Some(c.rollback)
  }

  function SelectedEndpoint(policy: Policy, id: string): Option<Endpoint> {
    var i := First(policy.targets, id);
    if i < |policy.targets| then policy.targets[i].applied else None
  }

  /**
   * The staged candidates differ from the staged policy only in the header and the selected
   * target. Before advertises exactly the staged endpoint. Rollback advertises the same
   * endpoint as before if and only if their ports agree, whatever the target rewrote.
   */
  lemma DerivedCandidates(c: Candidates, policy: Policy, plan: PortPlan)
    requires Derived(c, policy, plan)
    ensures var i := First(policy.targets, plan.targetId);
            && DifferOnlyAt(policy, c.before, i) && DifferOnlyAt(policy, c.target, i)
            && DifferOnlyAt(policy, c.rollback, i)
    ensures c.before.header == plan.before.header && c.target.header == plan.target.header &&
            c.rollback.header == plan.rollback.header
    ensures SelectedEndpoint(c.before, plan.targetId) == SelectedEndpoint(policy, plan.targetId)
    ensures SelectedEndpoint(c.rollback, plan.targetId) == SelectedEndpoint(c.before, plan.targetId) <==>
            plan.rollback.advertisedPort == plan.before.advertisedPort
  {
    CandidateDiffersOnce(policy, plan.targetId, plan.before);
    CandidateDiffersOnce(c.before, plan.targetId, plan.target);
    CandidateDiffersOnce(c.before, plan.targetId, plan.rollback);
    var staged := policy.targets[First(policy.targets, plan.targetId)].applied.value;
    AdvertisedUnchanged(staged, plan.before.advertisedPort);
    AdvertisedUnchanged(staged, plan.rollback.advertisedPort);
  }

  /** Staged candidates stay as they are, and an adopted rollback stays adopted. */
  predicate Kept(before: Option<PolicyState>, after: Option<PolicyState>, plan: PortPlan) {
    before.Some? ==>
      && after.Some? && after.value.candidates == before.value.candidates
      && (before.value.active == plan.rollback.id ==> after.value.active == plan.rollback.id)
  }

  datatype Step = StageStep(policy: Policy) | AdoptStep(jobId: string, snapshotId: string) | RestartStep

  /** The journal of one active port job with its plan. */
  class PolicyJournal {
    const plan: PortPlan
    var state: Option<PolicyState>
    /** What the journal file holds; a failed save may or may not have written it. */
    var durable: Option<PolicyState>
    /** After a failed save the process changes nothing any more. */
    var poisoned: bool
    /** The policy the candidates were staged from. */
    ghost var staged: Option<Policy>

    ghost predicate Valid()
      reads this
    {
      && (state.Some? <==> staged.Some?)
      && (state.Some? ==> StateValid(state.value, plan) && Derived(state.value.candidates, staged.value, plan))
      && (durable.Some? ==>
            && state.Some? && durable.value == state.value.(active := durable.value.active)
            && StateValid(durable.value, plan)
            && (durable.value.active == plan.rollback.id ==> state.value.active == plan.rollback.id))
      && (!poisoned ==> durable == state)
    }

    constructor (plan: PortPlan)
      ensures Valid() && this.plan == plan && state == None && !poisoned
    {
      this.plan := plan;
      state, durable, staged := None, None, None;
      poisoned := false;
    }

    /** `saveLocked` */
    method Save() returns (ok: bool)
      modifies this`durable, this`poisoned
      ensures durable == old(durable) || durable == state
      ensures ok <==> !poisoned
      ensures ok ==> durable == state
    {
      var took: bool, reported: bool := *, *;
      if took {
        durable := state;
      }
      ok := took && reported;
      poisoned := !ok;
    }

    /** `StagePortPolicy`: staged once, afterwards only validated. */
    method StagePolicy(policy: Policy) returns (ok: bool)
      requires Valid()
      modifies this
      ensures Valid()
      ensures old(poisoned) ==> !ok && unchanged(this)
      ensures old(state).Some? ==> unchanged(this)
      ensures ok ==> state.Some? && durable == state
      ensures Kept(old(state), state, plan) && Kept(old(durable), durable, plan)
      ensures ok && old(state).None? ==> staged == Some(policy) && state.value.active == plan.before.id
    {
      if poisoned {
        return false;
      }
      if state.Some? {
        return StateValid(state.value, plan);
      }
      if policy.busy || !MatchesSnapshot(policy, plan.targetId, plan.before) {
        return false;
      }
      var before := BuildCandidate(policy, plan.targetId, plan.before);
      if before.None? {
        return false;
      }
      var target := BuildCandidate(before.value, plan.targetId, plan.target);
      var rollback := BuildCandidate(before.value, plan.targetId, plan.rollback);
      if target.None? || rollback.None? {
        return false;
      }
      var next := PolicyState(plan.jobId, Candidates(before.value, target.value, rollback.value), plan.before.id);
      if !StateValid(next, plan) {
        return false;
      }
      state, staged := Some(next), Some(policy);
      ok := Save();
    }

    /** A snapshot the job may adopt now. */
    predicate Adoptable(jobId: string, snapshotId: string)
      reads this
    {
      && !poisoned && state.Some? && jobId == state.value.jobId
      && snapshotId in {plan.before.id, plan.target.id, plan.rollback.id}
      && (state.value.active == plan.rollback.id ==> snapshotId == plan.rollback.id)
    }

    /** `adoptPortPolicy` */
    method Adopt(jobId: string, snapshotId: string) returns (ok: bool)
      requires Valid()
      modifies this`state, this`durable, this`poisoned
      ensures Valid()
      ensures ok <==> old(Adoptable(jobId, snapshotId)) && !poisoned
      ensures !old(Adoptable(jobId, snapshotId)) ==> unchanged(this)
      ensures old(Adoptable(jobId, snapshotId)) ==> state == Some(old(state).value.(active := snapshotId))
      ensures ok ==> durable == state
      ensures Kept(old(state), state, plan) && Kept(old(durable), durable, plan)
    {
      if poisoned || state.None? || state.value.jobId != jobId || !StateValid(state.value, plan) {
        return false;
      }
      if state.value.active == plan.rollback.id && snapshotId != plan.rollback.id {
        return false;
      }
      if snapshotId != plan.before.id && snapshotId != plan.target.id && snapshotId != plan.rollback.id {
        return false;
      }
      state := Some(state.value.(active := snapshotId));
      ok := Save();
    }

    /** A new process reads the journal file and may change it again. */
    method Restart()
      requires Valid()
      modifies this
      ensures Valid() && state == old(durable) && !poisoned && durable == old(durable)
    {
      state, poisoned := durable, false;
      staged := if durable.Some? then staged else None;
    }

    /** Any sequence of stage and adopt calls and restarts, with failing saves; about the journal file. */
    method Drive(steps: seq<Step>)
      requires Valid()
      modifies this
      ensures Valid()
      ensures Kept(old(durable), durable, plan)
      ensures RestartStep !in steps ==> Kept(old(state), state, plan)
    {
      for i := 0 to |steps|
        invariant Valid()
        invariant Kept(old(durable), durable, plan)
        invariant RestartStep !in steps ==> Kept(old(state), state, plan)
      {
        match steps[i] {
          case StageStep(policy) => var _ := StagePolicy(policy);
          case AdoptStep(jobId, snapshotId) => var _ := Adopt(jobId, snapshotId);
          case RestartStep => Restart();
        }
      }
    }
  }
}
