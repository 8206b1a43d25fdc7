/** One undisturbed run after every lease has expired ends with the whole plan applied. */
module ExecutorConvergence {
  import opened Text
  import opened Provisioning
  import opened Cognito
  import opened Executor
  import opened ExecutorInvariant
  import opened ExecutorCalls
  import opened ExecutorSafety
  import opened ExecutorOrder
  import opened ExecutorTheorems

  /** The steps of worker `w` when nothing goes wrong, and the passing of time. */
  predicate Undisturbed(w: nat, step: Step) {
    step == Preloads(w) || step == Loads(w) || (step.Locks? && step.w == w) || (step.Calls? && step.w == w)
    || step == Commits(w) || step == Activates(w) || step.Tick?
  }

  /** The plan's pool has the group. */
  ghost predicate HasGroup(plan: Plan, c: Directory, g: string) {
    exists p :: OurPool(plan, c, p) && g in c.pools[p].groups
  }

  /**
   * What the outside world owes an operation: a hosted UI host for the domain, the pool the profile names, and
   * that a group listed twice exists already.
   */
  ghost predicate OpProvided(plan: Plan, op: Op, c: Directory) {
    && (op == HostedUiDomain ==> plan.domainPrefix != "")
    && (op == UserPool && plan.expectedPoolId != "" ==> plan.expectedPoolId in c.pools)
    && (op == UserGroups ==>
          forall i, j | 0 <= i < j < |plan.groups| && plan.groups[i] == plan.groups[j] ::
            HasGroup(plan, c, plan.groups[i]))
  }

  /** Every operation that has not succeeded yet has what it needs. */
  ghost predicate Provided(plan: Plan, ops: seq<Op>, t: Table, c: Directory) {
    forall op | op in ops && !Finished(t, op) :: OpProvided(plan, op, c)
  }

  /** Every in-progress record expired before `since`. */
  predicate Expired(t: Table, since: int) {
    forall op | op in t && t[op].InProgress? :: t[op].lockExpiresAt < since
  }

  /** The phases an operation can be in. */
  predicate Fits(op: Op, phase: Phase) {
    match phase
    case Begin => true
    case Create => op in {UserPool, EnvironmentAttribute, HostedUiDomain, PublicClient}
    case GroupLoop(_, _, _) => op == UserGroups
    case ProviderLoop(_, _) => op == SocialProviders
  }

  predicate RepeatedIn(groups: seq<string>, existing: set<string>) {
    forall i, j | 0 <= i < j < |groups| && groups[i] == groups[j] :: groups[i] in existing
  }

  /** How far a group or domain operation got agrees with the directory. */
  predicate OnTrack(plan: Plan, poolId: string, op: Op, phase: Phase, c: Directory) {
    && Fits(op, phase)
    && (op == HostedUiDomain && phase == Create ==> plan.domainPrefix !in c.domains)
    && (op == UserGroups && phase.GroupLoop? ==>
          && poolId in c.pools && RepeatedIn(plan.groups, phase.existing)
          && c.pools[poolId].groups ==
             phase.existing + set i | 0 <= i < phase.next && i < |plan.groups| :: plan.groups[i])
  }

  ghost predicate Goes(plan: Plan, ops: seq<Op>, s: State, w: nat, since: int) {
    w in s.workers &&
    var worker := s.workers[w];
    var pc := worker.pc;
    && InRange(ops, pc) && !pc.Abort? && pc != Done(false)
    && (forall op | op in s.table && s.table[op].InProgress? ::
          s.table[op].lockExpiresAt < since || (Holding(pc) && op == ops[pc.i]))
    && FinishedBelow(ops, s.table, Passed(ops, pc))
    && (pc.Lock? ==> since <= pc.since && !Finished(s.table, ops[pc.i]))
    && (Holding(pc) ==> !Finished(s.table, ops[pc.i]))
    && (pc.Run? ==> OnTrack(plan, TextOf(worker.outputs, UserPoolId), ops[pc.i], pc.phase, s.directory))
    && (pc.Done? ==> FinishedBelow(ops, s.table, |ops|) && (Finalize in ops ==> s.effective.Set?))
  }

  ghost predicate Solo(plan: Plan, ops: seq<Op>, s: State, w: nat, since: int) {
    Inv(plan, ops, s) && Provided(plan, ops, s.table, s.directory) && Goes(plan, ops, s, w, since)
  }

  // ------------------------------------------------ no call can be refused

  lemma UserPoolGoes(plan: Plan, outputs: Outputs, phase: Phase, c: Directory, id: string)
    requires Tidy(plan, c) && AllRight(plan, c, outputs)
    requires plan.expectedPoolId != "" ==> plan.expectedPoolId in c.pools
    ensures !CallUserPool(plan, outputs, phase, c, id).outcome.Raise?
  {
    ReadsRight(plan, c, outputs);
    hide AllRight, TextOf, NewPool;
    CardinalityAtMostOne(PoolsNamed(c, plan.poolName));
  }

  lemma PublicClientGoes(plan: Plan, outputs: Outputs, poolId: string, phase: Phase, c: Directory, id: string)
    requires Tidy(plan, c) && AllRight(plan, c, outputs) && OurPool(plan, c, poolId)
    ensures !CallPublicClient(plan, outputs, poolId, phase, c, id).outcome.Raise?
  {
    hide Tidy, AllRight, TextOf, CallPublicClient, OurPool, OurClient, ClientsNamed;
    ReadsRight(plan, c, outputs);
    ClientsOfOnePool(plan, c, poolId);
    PlannedClients(plan, c, poolId);
    ClientGoes(plan, outputs, poolId, phase, c, id);
  }

  /** The plan's client is in the plan's pool and has no secret. */
  lemma PlannedClients(plan: Plan, c: Directory, poolId: string)
    requires Tidy(plan, c) && OurPool(plan, c, poolId)
    ensures poolId in c.pools
    ensures forall i | OurClient(plan, c, i) ::
      i in c.clients && c.clients[i].poolId == poolId && !c.clients[i].hasSecret
    ensures forall i | i in ClientsNamed(c, poolId, plan.clientName) :: OurClient(plan, c, i)
  {
    hide Present;
    forall i | OurClient(plan, c, i) ensures c.clients[i].poolId == poolId && !c.clients[i].hasSecret {
      OnePool(plan, c, c.clients[i].poolId, poolId);
    }
    assert forall i | i in ClientsNamed(c, poolId, plan.clientName) :: MyClient(plan, c, i);
  }

  lemma ClientGoes(plan: Plan, outputs: Outputs, poolId: string, phase: Phase, c: Directory, id: string)
    requires poolId in c.pools && |ClientsNamed(c, poolId, plan.clientName)| <= 1
    requires forall i | OurClient(plan, c, i) ::
      i in c.clients && c.clients[i].poolId == poolId && !c.clients[i].hasSecret
    requires forall i | i in ClientsNamed(c, poolId, plan.clientName) :: OurClient(plan, c, i)
    requires TextOf(outputs, UserPoolClientId) != "" ==> OurClient(plan, c, TextOf(outputs, UserPoolClientId))
    ensures !CallPublicClient(plan, outputs, poolId, phase, c, id).outcome.Raise?
  {
    hide OurClient, ClientsNamed, TextOf, NewClient;
  }

  lemma UserGroupsGoes(plan: Plan, poolId: string, phase: Phase, c: Directory)
    requires poolId in c.pools && OnTrack(plan, poolId, UserGroups, phase, c)
    requires phase == Begin ==> RepeatedIn(plan.groups, c.pools[poolId].groups)
    ensures
      var reply := CallUserGroups(plan, poolId, phase, c);
      && !reply.outcome.Raise?
      && (reply.outcome.Continue? ==> OnTrack(plan, poolId, UserGroups, reply.outcome.phase, reply.directory))
  {
    if phase.GroupLoop? && phase.next < |plan.groups| {
      var n := phase.next;
      assert (set i | 0 <= i < n + 1 && i < |plan.groups| :: plan.groups[i])
        == (set i | 0 <= i < n && i < |plan.groups| :: plan.groups[i]) + {plan.groups[n]};
    }
  }

  /** Groups listed twice are in the pool the operation works on. */
  lemma RepeatedGroupsExist(plan: Plan, c: Directory, poolId: string)
    requires Tidy(plan, c) && OpProvided(plan, UserGroups, c) && OurPool(plan, c, poolId)
    ensures poolId in c.pools && RepeatedIn(plan.groups, c.pools[poolId].groups)
  {
    forall i, j | 0 <= i < j < |plan.groups| && plan.groups[i] == plan.groups[j]
      ensures plan.groups[i] in c.pools[poolId].groups
    {
      var p :| OurPool(plan, c, p) && plan.groups[i] in c.pools[p].groups;
      OnePool(plan, c, p, poolId);
    }
  }

  lemma SocialProvidersGoes(plan: Plan, poolId: string, clientId: string, phase: Phase, c: Directory)
    requires Tidy(plan, c) && OurPool(plan, c, poolId) && OurClient(plan, c, clientId)
    ensures !CallSocialProviders(plan, poolId, clientId, phase, c).outcome.Raise?
  {
    PlannedClients(plan, c, poolId);
    hide Tidy, OurPool, OurClient, SocialNames;
  }

  /** The phase an operation continues in fits it and costs less. */
  ghost predicate Advances(plan: Plan, op: Op, phase: Phase, reply: Reply) {
    reply.outcome.Continue? ==>
      Fits(op, reply.outcome.phase) && PhaseCost(plan, reply.outcome.phase) < PhaseCost(plan, phase)
  }

  lemma CreatesAdvance(plan: Plan, outputs: Outputs, poolId: string, phase: Phase, c: Directory, id: string)
    requires phase == Begin || phase == Create
    ensures Advances(plan, UserPool, phase, CallUserPool(plan, outputs, phase, c, id))
    ensures Advances(plan, EnvironmentAttribute, phase, CallEnvironmentAttribute(plan, poolId, phase, c))
    ensures Advances(plan, HostedUiDomain, phase, CallHostedUiDomain(plan, poolId, phase, c))
  {
  }

  lemma ClientAdvances(plan: Plan, outputs: Outputs, poolId: string, phase: Phase, c: Directory, id: string)
    requires phase == Begin || phase == Create
    ensures Advances(plan, PublicClient, phase, CallPublicClient(plan, outputs, poolId, phase, c, id))
  {
  }

  lemma LoopsAdvance(plan: Plan, poolId: string, clientId: string, phase: Phase, c: Directory)
    ensures Fits(UserGroups, phase) ==> Advances(plan, UserGroups, phase, CallUserGroups(plan, poolId, phase, c))
    ensures Fits(SocialProviders, phase) ==>
      Advances(plan, SocialProviders, phase, CallSocialProviders(plan, poolId, clientId, phase, c))
  {
  }

  lemma MfaAdvances(plan: Plan, poolId: string, phase: Phase, c: Directory)
    ensures Advances(plan, MfaConfig, phase, CallMfaConfig(plan, poolId, c))
  {
    hide MfaSetting;
  }

  lemma CallAdvances(plan: Plan, op: Op, outputs: Outputs, phase: Phase, c: Directory, id: string)
    requires Fits(op, phase)
    ensures Advances(plan, op, phase, Call(plan, op, outputs, phase, c, id))
  {
    hide CallUserPool, CallEnvironmentAttribute, CallMfaConfig, CallHostedUiDomain, CallPublicClient, CallUserGroups,
      CallSocialProviders, ActivationOutputs, Lacks, TextOf, PhaseCost;
    var poolId, clientId := TextOf(outputs, UserPoolId), TextOf(outputs, UserPoolClientId);
    match op
    case UserGroups => LoopsAdvance(plan, poolId, clientId, phase, c);
    case SocialProviders => LoopsAdvance(plan, poolId, clientId, phase, c);
    case PublicClient => ClientAdvances(plan, outputs, poolId, phase, c, id);
    case MfaConfig => MfaAdvances(plan, poolId, phase, c);
    case Finalize =>
    case _ => CreatesAdvance(plan, outputs, poolId, phase, c, id);
  }

  /** The domain operation goes on to create only a prefix nobody has. */
  lemma HostedUiDomainGoes(plan: Plan, poolId: string, phase: Phase, c: Directory)
    requires Tidy(plan, c) && OurPool(plan, c, poolId) && plan.domainPrefix != ""
    requires phase == Create ==> plan.domainPrefix !in c.domains
    ensures
      var reply := CallHostedUiDomain(plan, poolId, phase, c);
      !reply.outcome.Raise? && (reply.outcome.Continue? ==> plan.domainPrefix !in reply.directory.domains)
  {
    if plan.domainPrefix in c.domains { OnePool(plan, c, c.domains[plan.domainPrefix], poolId); }
  }

  lemma UpdatesGo(plan: Plan, poolId: string, phase: Phase, c: Directory)
    requires poolId in c.pools
    ensures !CallMfaConfig(plan, poolId, c).outcome.Raise?
    ensures !CallEnvironmentAttribute(plan, poolId, phase, c).outcome.Raise?
  {
    hide MfaSetting;
  }

  /** A worker that passed all operations before this one has what this one reads. */
  lemma Equipped(plan: Plan, ops: seq<Op>, i: nat, outputs: Outputs, c: Directory)
    requires Lists(plan, ops) && i < |ops| && (forall j | 0 <= j < i :: Provides(ops[j], outputs))
    requires AllRight(plan, c, outputs)
    ensures !Lacks(ops[i], outputs)
    ensures ops[i] != UserPool ==> OurPool(plan, c, TextOf(outputs, UserPoolId))
    ensures ops[i] == SocialProviders ==> OurClient(plan, c, TextOf(outputs, UserPoolClientId))
  {
    hide AllRight, DomainUrl, OurPool, OurClient, Lists, TextOf;
    ReadsRight(plan, c, outputs);
    forall k | k in Reads(ops[i]) ensures TextOf(outputs, k) != "" {
      var j := RequiredOutputsComeEarlier(plan, ops, i, k);
      assert Provides(ops[j], outputs);
      PresentWhenOurs(plan, c, outputs);
    }
    PresentWhenOurs(plan, c, outputs);
    if ops[i] != UserPool { assert UserPoolId in Reads(ops[i]); }
  }

  lemma PresentWhenOurs(plan: Plan, c: Directory, outputs: Outputs)
    ensures OurPool(plan, c, TextOf(outputs, UserPoolId)) ==> TextOf(outputs, UserPoolId) != ""
    ensures OurClient(plan, c, TextOf(outputs, UserPoolClientId)) ==> TextOf(outputs, UserPoolClientId) != ""
  {
  }

  /** The call of a worker that passed all operations before this one succeeds, and leaves it on track. */
  lemma CallGoes(plan: Plan, ops: seq<Op>, i: nat, outputs: Outputs, phase: Phase, c: Directory, id: string)
    requires Lists(plan, ops) && i < |ops| && (forall j | 0 <= j < i :: Provides(ops[j], outputs))
    requires Tidy(plan, c) && AllRight(plan, c, outputs) && OpProvided(plan, ops[i], c)
    requires OnTrack(plan, TextOf(outputs, UserPoolId), ops[i], phase, c)
    ensures
      var reply := Call(plan, ops[i], outputs, phase, c, id);
      && !reply.outcome.Raise?
      && (reply.outcome.Continue? ==>
            OnTrack(plan, TextOf(outputs, UserPoolId), ops[i], reply.outcome.phase, reply.directory))
  {
    hide AllRight, Lists, Tidy, CallPublicClient, CallUserPool, CallUserGroups, CallSocialProviders, Lacks, TextOf;
    hide CallHostedUiDomain, CallMfaConfig, CallEnvironmentAttribute, ActivationOutputs, PhaseCost, RepeatedIn;
    hide OurPool, OurClient, ClientsNamed, OpProvided, Provides;
    var op, poolId, clientId := ops[i], TextOf(outputs, UserPoolId), TextOf(outputs, UserPoolClientId);
    Equipped(plan, ops, i, outputs, c);
    CallAdvances(plan, op, outputs, phase, c, id);
    ProvidedFacts(plan, op, c);
    if op in {EnvironmentAttribute, MfaConfig, UserGroups} { PlannedClients(plan, c, poolId); }
    match op
    case UserPool => UserPoolGoes(plan, outputs, phase, c, id);
    case PublicClient => PublicClientGoes(plan, outputs, poolId, phase, c, id);
    case UserGroups =>
      RepeatedGroupsExist(plan, c, poolId);
      UserGroupsGoes(plan, poolId, phase, c);
    case SocialProviders => SocialProvidersGoes(plan, poolId, clientId, phase, c);
    case HostedUiDomain => HostedUiDomainGoes(plan, poolId, phase, c);
    case MfaConfig => UpdatesGo(plan, poolId, phase, c);
    case EnvironmentAttribute => UpdatesGo(plan, poolId, phase, c);
    case Finalize =>
  }

  lemma ProvidedFacts(plan: Plan, op: Op, c: Directory)
    requires OpProvided(plan, op, c)
    ensures op == HostedUiDomain ==> plan.domainPrefix != ""
    ensures op == UserPool && plan.expectedPoolId != "" ==> plan.expectedPoolId in c.pools
  {
  }

  predicate KeepsGroups(c: Directory, d: Directory) {
    forall p | p in c.pools :: p in d.pools && c.pools[p].groups <= d.pools[p].groups
  }

  lemma CreatesKeepGroups(plan: Plan, outputs: Outputs, poolId: string, phase: Phase, c: Directory, id: string)
    requires Fresh(c, id)
    ensures KeepsGroups(c, CallUserPool(plan, outputs, phase, c, id).directory)
    ensures KeepsGroups(c, CallPublicClient(plan, outputs, poolId, phase, c, id).directory)
    ensures KeepsGroups(c, CallHostedUiDomain(plan, poolId, phase, c).directory)
  {
    hide TextOf, NewPool, NewClient, PoolUrl, DomainUrl;
  }

  lemma UpdatesKeepGroups(plan: Plan, poolId: string, phase: Phase, c: Directory)
    ensures KeepsGroups(c, CallEnvironmentAttribute(plan, poolId, phase, c).directory)
    ensures KeepsGroups(c, CallMfaConfig(plan, poolId, c).directory)
  {
    hide MfaSetting;
  }

  lemma LoopsKeepGroups(plan: Plan, poolId: string, clientId: string, phase: Phase, c: Directory)
    ensures KeepsGroups(c, CallUserGroups(plan, poolId, phase, c).directory)
    ensures KeepsGroups(c, CallSocialProviders(plan, poolId, clientId, phase, c).directory)
  {
    hide MfaSetting, SocialNames;
  }

  lemma CallKeepsGroups(plan: Plan, op: Op, outputs: Outputs, phase: Phase, c: Directory, id: string)
    requires Fresh(c, id)
    ensures KeepsGroups(c, Call(plan, op, outputs, phase, c, id).directory)
  {
    hide CallUserPool, CallEnvironmentAttribute, CallMfaConfig, CallHostedUiDomain, CallPublicClient, CallUserGroups;
    hide CallSocialProviders, ActivationOutputs, Lacks, TextOf, Fresh;
    var poolId, clientId := TextOf(outputs, UserPoolId), TextOf(outputs, UserPoolClientId);
    CreatesKeepGroups(plan, outputs, poolId, phase, c, id);
    UpdatesKeepGroups(plan, poolId, phase, c);
    LoopsKeepGroups(plan, poolId, clientId, phase, c);
    assert KeepsGroups(c, c);
    hide KeepsGroups;
  }

  /** The directory keeps what the plan was promised, and successes only lessen it. */
  lemma ProvidedKept(plan: Plan, ops: seq<Op>, t: Table, u: Table, c: Directory, d: Directory)
    requires Provided(plan, ops, t, c) && KeepsGroups(c, d) && Keeps(plan, c, d)
    requires forall op | Finished(t, op) :: Finished(u, op)
    ensures Provided(plan, ops, u, d)
  {
    hide Present, Finished;
    forall g | HasGroup(plan, c, g) ensures HasGroup(plan, d, g) {
      var p :| OurPool(plan, c, p) && g in c.pools[p].groups;
      assert OurPool(plan, d, p);
    }
  }

  lemma UnfinishedIsProvided(plan: Plan, ops: seq<Op>, s: State, i: nat)
    requires Provided(plan, ops, s.table, s.directory) && i < |ops| && !Finished(s.table, ops[i])
    ensures OpProvided(plan, ops[i], s.directory)
  {
    hide OpProvided, Finished;
    assert ops[i] in ops;
  }

  // ------------------------------------------------------ the lone worker's steps

  lemma SoloCalls(plan: Plan, ops: seq<Op>, s: State, w: nat, since: int, id: string)
    requires Solo(plan, ops, s, w, since) && Enabled(plan, ops, s, Calls(w, id))
    ensures
      var s' := After(plan, ops, s, Calls(w, id));
      Provided(plan, ops, s'.table, s'.directory) && Goes(plan, ops, s', w, since)
  {
    hide Call, Inv, Provided, Lists, Tidy, Entries, AllRight, Provides, EffectiveOk, OnTrack, FinishedBelow, Keeps;
    hide KeepsGroups, Seen, TextOf;
    var worker := s.workers[w];
    var pc := worker.pc;
    WorkerFacts(plan, ops, s, w);
    assert OpProvided(plan, ops[pc.i], s.directory) by { UnfinishedIsProvided(plan, ops, s, pc.i); }
    hide OpProvided;
    CallGoes(plan, ops, pc.i, worker.outputs, pc.phase, s.directory, id);
    CallKeepsGroups(plan, ops[pc.i], worker.outputs, pc.phase, s.directory, id);
    CallKeepsResources(plan, ops, s, w, id);
    ProvidedKept(plan, ops, s.table, s.table, s.directory, CallAt(plan, ops, s, w, id).directory);
  }

  lemma SoloLocks(plan: Plan, ops: seq<Op>, s: State, w: nat, since: int, readAt: int, now: int)
    requires Solo(plan, ops, s, w, since) && Enabled(plan, ops, s, Locks(w, readAt, now))
    ensures Goes(plan, ops, After(plan, ops, s, Locks(w, readAt, now)), w, since)
  {
    hide Provided, Inv, TextOf;
    var i := s.workers[w].pc.i;
    assert LockFree(s, ops[i], now);
  }

  lemma SoloCommits(plan: Plan, ops: seq<Op>, s: State, w: nat, since: int)
    requires Solo(plan, ops, s, w, since) && Enabled(plan, ops, s, Commits(w))
    ensures Goes(plan, ops, After(plan, ops, s, Commits(w)), w, since)
  {
    hide Provided, Inv, Sanitize, OnTrack;
  }

  lemma SoloLoads(plan: Plan, ops: seq<Op>, s: State, w: nat, since: int)
    requires Solo(plan, ops, s, w, since) && Enabled(plan, ops, s, Loads(w)) && since <= s.clock
    ensures Goes(plan, ops, After(plan, ops, s, Loads(w)), w, since)
  {
    hide Provided, Inv, OnTrack;
  }

  lemma SoloActivates(plan: Plan, ops: seq<Op>, s: State, w: nat, since: int)
    requires Solo(plan, ops, s, w, since) && Enabled(plan, ops, s, Activates(w))
    ensures Goes(plan, ops, After(plan, ops, s, Activates(w)), w, since)
  {
    hide Provided, Inv, EffectiveFrom, OnTrack;
  }

  lemma SoloPreloads(plan: Plan, ops: seq<Op>, s: State, w: nat, since: int)
    requires Solo(plan, ops, s, w, since) && Enabled(plan, ops, s, Preloads(w))
    ensures Goes(plan, ops, After(plan, ops, s, Preloads(w)), w, since)
  {
    hide Provided, Inv, OnTrack;
  }

  lemma SoloTicks(plan: Plan, ops: seq<Op>, s: State, w: nat, since: int, t: int)
    requires Goes(plan, ops, s, w, since) && Enabled(plan, ops, s, Tick(t))
    ensures Goes(plan, ops, After(plan, ops, s, Tick(t)), w, since)
  {
    hide OnTrack, FinishedBelow;
  }

  lemma StepFrame(plan: Plan, ops: seq<Op>, s: State, w: nat, step: Step)
    requires Undisturbed(w, step) && Enabled(plan, ops, s, step)
    ensures s.clock <= After(plan, ops, s, step).clock
    ensures !step.Calls? ==> After(plan, ops, s, step).directory == s.directory
    ensures forall op | Finished(s.table, op) :: Finished(After(plan, ops, s, step).table, op)
  {
    hide EffectiveFrom, Sanitize, Call;
  }

  /** Whatever keeps the directory keeps what was promised. */
  lemma StillProvided(plan: Plan, ops: seq<Op>, t: Table, u: Table, c: Directory)
    requires Provided(plan, ops, t, c) && Tidy(plan, c) && forall op | Finished(t, op) :: Finished(u, op)
    ensures Provided(plan, ops, u, c)
  {
    hide Provided, Tidy, Finished;
    NothingChanged(plan, c);
    ProvidedKept(plan, ops, t, u, c, c);
  }

  lemma SoloKeeps(plan: Plan, ops: seq<Op>, s: State, w: nat, since: int, step: Step)
    requires Solo(plan, ops, s, w, since) && since <= s.clock
    requires Undisturbed(w, step) && Enabled(plan, ops, s, step) && Timely(s, step)
    ensures Solo(plan, ops, After(plan, ops, s, step), w, since) && since <= After(plan, ops, s, step).clock
  {
    hide Inv, Provided, Goes, Enabled, Timely, After, Tidy, Lists, Finished;
    StepKeeps(plan, ops, s, step);
    StepFrame(plan, ops, s, w, step);
    InvFacts(plan, ops, s);
    StillProvided(plan, ops, s.table, After(plan, ops, s, step).table, s.directory);
    match step
    case Calls(_, id) => SoloCalls(plan, ops, s, w, since, id);
    case Locks(_, readAt, now) => SoloLocks(plan, ops, s, w, since, readAt, now);
    case Commits(_) => SoloCommits(plan, ops, s, w, since);
    case Loads(_) => SoloLoads(plan, ops, s, w, since);
    case Preloads(_) => SoloPreloads(plan, ops, s, w, since);
    case Activates(_) => SoloActivates(plan, ops, s, w, since);
    case Tick(t) => SoloTicks(plan, ops, s, w, since, t);
    case _ =>
  }

  // ------------------------------------------------------- progress measure

  function PhaseCost(plan: Plan, phase: Phase): nat {
    match phase
    case Begin => |plan.groups| + |plan.providers| + 3
    case Create => 1
    case GroupLoop(_, _, next) => if next < |plan.groups| then |plan.groups| - next + 1 else 1
    case ProviderLoop(_, next) => if next < |plan.providers| then |plan.providers| - next + 1 else 1
  }

  function Times(n: nat, each: nat): nat {
    if n == 0 then 0 else each + Times(n - 1, each)
  }

  /** An upper bound on the remote calls worker `w` still needs. */
  function Cost(plan: Plan, ops: seq<Op>, pc: Pc): nat
    requires InRange(ops, pc)
  {
    var each := |plan.groups| + |plan.providers| + 10;
    match pc
    case Preload(i) => Times(|ops|, each) + 3 + (|ops| - i)
    case Load(i) => Times(|ops| - i, each) + 2
    case Lock(i, _) => Times(|ops| - i - 1, each) + 2 + each - 1
    case Run(i, _, phase) => Times(|ops| - i - 1, each) + 2 + 1 + PhaseCost(plan, phase)
    case Commit(i, _, _) => Times(|ops| - i - 1, each) + 2 + 1
    case Abort(_, _) => 1
    case Activate => 1
    case Done(_) => 0
  }

  lemma CallCosts(plan: Plan, ops: seq<Op>, s: State, w: nat, since: int, id: string)
    requires Goes(plan, ops, s, w, since) && Enabled(plan, ops, s, Calls(w, id))
    ensures
      var s' := After(plan, ops, s, Calls(w, id));
      At(ops, s', w) && Cost(plan, ops, s'.workers[w].pc) < Cost(plan, ops, s.workers[w].pc)
  {
    var pc := s.workers[w].pc;
    CallAdvances(plan, ops[pc.i], s.workers[w].outputs, pc.phase, s.directory, id);
    hide Call;
  }

  lemma OtherCosts(plan: Plan, ops: seq<Op>, s: State, w: nat, step: Step)
    requires Enabled(plan, ops, s, step)
    requires step == Preloads(w) || step == Loads(w) || step == Commits(w) || step == Activates(w)
      || (step.Locks? && step.w == w)
    ensures
      var s' := After(plan, ops, s, step);
      At(ops, s', w) && Cost(plan, ops, s'.workers[w].pc) < Cost(plan, ops, s.workers[w].pc)
  {
    hide EffectiveFrom, Sanitize;
  }

  lemma StepCosts(plan: Plan, ops: seq<Op>, s: State, w: nat, since: int, step: Step)
    requires Goes(plan, ops, s, w, since) && Undisturbed(w, step) && Enabled(plan, ops, s, step)
    ensures At(ops, After(plan, ops, s, step), w)
    ensures
      var before, after := Cost(plan, ops, s.workers[w].pc), Cost(plan, ops, After(plan, ops, s, step).workers[w].pc);
      if step.Tick? then after == before else after < before
  {
    if step.Calls? {
      CallCosts(plan, ops, s, w, since, step.freshId);
    } else if !step.Tick? {
      OtherCosts(plan, ops, s, w, step);
    }
    hide Goes, Enabled, Cost;
  }

  // ------------------------------------------------------------ main results

  ghost predicate IsSoloRun(plan: Plan, ops: seq<Op>, s: State, w: nat, steps: seq<Step>) {
    IsTimelyRun(plan, ops, s, steps) && forall k | 0 <= k < |steps| :: Undisturbed(w, steps[k])
  }

  function Work(steps: seq<Step>): nat {
    if steps == [] then 0 else (if steps[0].Tick? then 0 else 1) + Work(steps[1..])
  }

  /** No undisturbed run fails, and none makes more remote calls than `Cost` allows. */
  lemma {:induction false} SoloRunKeeps(plan: Plan, ops: seq<Op>, s: State, w: nat, since: int, steps: seq<Step>)
    requires Solo(plan, ops, s, w, since) && since <= s.clock && IsSoloRun(plan, ops, s, w, steps)
    ensures IsRun(plan, ops, s, steps) && Solo(plan, ops, EndOf(plan, ops, s, steps), w, since)
    ensures Work(steps) + Cost(plan, ops, EndOf(plan, ops, s, steps).workers[w].pc) <= Cost(plan, ops, s.workers[w].pc)
    decreases |steps|
  {
    TimelyRunIsRun(plan, ops, s, steps);
    if steps != [] {
      SoloKeeps(plan, ops, s, w, since, steps[0]);
      StepCosts(plan, ops, s, w, since, steps[0]);
      hide Solo, Undisturbed, Cost, After, Enabled;
      SoloRunKeeps(plan, ops, After(plan, ops, s, steps[0]), w, since, steps[1..]);
    }
  }

  /** New ids do not run out. */
  lemma {:induction false} LongerThanAll(ids: set<string>) returns (id: string)
    ensures Present(id) && forall x | x in ids :: |x| < |id|
  {
    if ids == {} {
      id := "a";
    } else {
      var x :| x in ids;
      var shorter := LongerThanAll(ids - {x});
      id := seq(|shorter| + |x| + 1, _ => 'a');
      assert forall y | y in ids :: y == x || y in ids - {x};
    }
  }

  lemma FreshIdExists(c: Directory) returns (id: string)
    ensures Fresh(c, id)
  {
    id := LongerThanAll(c.pools.Keys + c.clients.Keys);
    assert id in c.pools ==> id in c.pools.Keys + c.clients.Keys;
    assert id in c.clients ==> id in c.pools.Keys + c.clients.Keys;
  }

  /** The step a lone worker takes next; a call offers `id` to what it may create. */
  function NextStep(s: State, w: nat, id: string): Step
    requires w in s.workers
  {
    match s.workers[w].pc
    case Preload(_) => Preloads(w)
    case Load(_) => Loads(w)
    case Lock(_, _) => Locks(w, s.clock, s.clock)
    case Run(_, _, _) => Calls(w, id)
    case Commit(_, _, _) => Commits(w)
    case _ => Activates(w)
  }

  /** A lone worker that is not done can always go on. */
  lemma GoesOn(plan: Plan, ops: seq<Op>, s: State, w: nat, since: int, id: string)
    requires Solo(plan, ops, s, w, since) && !s.workers[w].pc.Done? && Fresh(s.directory, id)
    ensures
      var step := NextStep(s, w, id);
      Undisturbed(w, step) && !step.Tick? && Enabled(plan, ops, s, step) && Timely(s, step)
  {
    hide Tidy, Lists, Entries, Workers, AllSeen, EffectiveOk, Exclusive, OnTrack, FinishedBelow, Provided, Fresh;
    assert LeasesLive(s);
  }

  /** One more step in front of a lone run. */
  lemma SoloRunExtends(plan: Plan, ops: seq<Op>, s: State, w: nat, step: Step, rest: seq<Step>)
    requires Undisturbed(w, step) && Enabled(plan, ops, s, step) && Timely(s, step)
    requires
      var next := After(plan, ops, s, step);
      IsSoloRun(plan, ops, next, w, rest) && IsRun(plan, ops, next, rest)
    ensures IsSoloRun(plan, ops, s, w, [step] + rest) && IsRun(plan, ops, s, [step] + rest)
    ensures EndOf(plan, ops, s, [step] + rest) == EndOf(plan, ops, After(plan, ops, s, step), rest)
  {
    hide Undisturbed, Enabled, After, Timely;
    var steps := [step] + rest;
    assert steps[1..] == rest;
  }

  lemma {:induction false} RunsToTheEnd(plan: Plan, ops: seq<Op>, s: State, w: nat, since: int)
      returns (steps: seq<Step>)
    requires Solo(plan, ops, s, w, since) && since <= s.clock
    ensures IsSoloRun(plan, ops, s, w, steps) && IsRun(plan, ops, s, steps)
    ensures w in EndOf(plan, ops, s, steps).workers && EndOf(plan, ops, s, steps).workers[w].pc == Done(true)
    decreases Cost(plan, ops, s.workers[w].pc)
  {
    if s.workers[w].pc.Done? {
      steps := [];
    } else {
      var id := FreshIdExists(s.directory);
      var step := NextStep(s, w, id);
      GoesOn(plan, ops, s, w, since, id);
      SoloKeeps(plan, ops, s, w, since, step);
      StepCosts(plan, ops, s, w, since, step);
      hide Undisturbed, Cost, After, Enabled, IsSoloRun;
      var rest := RunsToTheEnd(plan, ops, After(plan, ops, s, step), w, since);
      SoloRunExtends(plan, ops, s, w, step, rest);
      steps := [step] + rest;
    }
  }

  /** A new worker, after every recorded lease ran out. */
  lemma SoloStarts(plan: Plan, ops: seq<Op>, s: State, w: nat)
    requires Inv(plan, ops, s) && Provided(plan, ops, s.table, s.directory) && w !in s.workers
    requires Expired(s.table, s.clock)
    ensures Enabled(plan, ops, s, Begins(w)) && Solo(plan, ops, After(plan, ops, s, Begins(w)), w, s.clock)
  {
    hide Inv, Provided;
    StepKeeps(plan, ops, s, Begins(w));
  }

  /**
   * From every reachable state, once all recorded leases have run out, whatever an undisturbed worker does:
   * it never fails, it makes a bounded number of remote calls, and when it is done every operation has
   * succeeded and the effective record is set.
   */
  lemma UndisturbedRunApplies(plan: Plan, ops: seq<Op>, s: State, w: nat, steps: seq<Step>)
    requires Reachable(plan, ops, s) && Provided(plan, ops, s.table, s.directory) && w !in s.workers
    requires Expired(s.table, s.clock)
    requires
      && Enabled(plan, ops, s, Begins(w))
      && IsSoloRun(plan, ops, After(plan, ops, s, Begins(w)), w, steps)
    ensures
      var begun := After(plan, ops, s, Begins(w));
      && IsRun(plan, ops, begun, steps)
      && Work(steps) <= Cost(plan, ops, Preload(0))
      && var end := EndOf(plan, ops, begun, steps);
      && w in end.workers && end.workers[w].pc != Done(false)
      && (end.workers[w].pc.Done? ==>
            (forall op | op in ops :: Finished(end.table, op)) && (Finalize in ops ==> end.effective.Set?))
  {
    ReachableKeeps(plan, ops, s);
    SoloStarts(plan, ops, s, w);
    hide Inv, Provided, Reachable, IsSoloRun, OnTrack, Cost;
    var begun := After(plan, ops, s, Begins(w));
    SoloRunKeeps(plan, ops, begun, w, s.clock, steps);
    var end := EndOf(plan, ops, begun, steps);
    if end.workers[w].pc.Done? {
      forall op | op in ops ensures Finished(end.table, op) { AllBelow(ops, end.table, op); }
    }
  }

  /** And there is such a run to the end, so the plan can always be completed. */
  lemma Converges(plan: Plan, ops: seq<Op>, s: State, w: nat) returns (steps: seq<Step>)
    requires Reachable(plan, ops, s) && Provided(plan, ops, s.table, s.directory) && w !in s.workers
    requires Expired(s.table, s.clock)
    ensures Enabled(plan, ops, s, Begins(w))
    ensures
      var begun := After(plan, ops, s, Begins(w));
      && IsSoloRun(plan, ops, begun, w, steps) && IsRun(plan, ops, begun, steps)
      && w in EndOf(plan, ops, begun, steps).workers && EndOf(plan, ops, begun, steps).workers[w].pc == Done(true)
  {
    hide Inv, Provided, Reachable, Solo;
    ReachableKeeps(plan, ops, s);
    SoloStarts(plan, ops, s, w);
    steps := RunsToTheEnd(plan, ops, After(plan, ops, s, Begins(w)), w, s.clock);
  }
}
