/** Whatever a history of failures, crashes, retries and takeovers wrote, one uninterrupted run writes as well. */
module ExecutorResume {
  import opened Text
  import opened Provisioning
  import opened Cognito
  import opened Executor
  import opened ExecutorInvariant
  import opened ExecutorCalls
  import opened ExecutorSafety
  import opened ExecutorTheorems
  import opened ExecutorConvergence

  ghost predicate PoolReserved(plan: Plan, c: Directory, p: string) {
    OurPool(plan, c, p) || (Fresh(c, p) && forall q :: !OurPool(plan, c, q))
  }

  ghost predicate ClientReserved(plan: Plan, c: Directory, i: string) {
    OurClient(plan, c, i) || (Fresh(c, i) && forall j :: !MyClient(plan, c, j))
  }

  /** The plan's pool and client have these ids, or can still get them. */
  ghost predicate Reserved(plan: Plan, c: Directory, p: string, i: string) {
    p != i && PoolReserved(plan, c, p) && ClientReserved(plan, c, i)
  }

  /** A call adds to the directory at most the resource its operation creates. */
  ghost predicate AddsAtMost(op: Op, phase: Phase, c: Directory, d: Directory, id: string) {
    && d.pools.Keys <= c.pools.Keys + (if op == UserPool && phase == Create then {id} else {})
    && d.clients.Keys <= c.clients.Keys + (if op == PublicClient && phase == Create then {id} else {})
    && (op == UserPool && phase != Create ==> d == c)
    && (phase != Create ==> forall j | j in c.clients && j in d.clients :: d.clients[j].name == c.clients[j].name)
  }

  lemma CreatesAdd(plan: Plan, outputs: Outputs, poolId: string, phase: Phase, c: Directory, id: string)
    ensures AddsAtMost(UserPool, phase, c, CallUserPool(plan, outputs, phase, c, id).directory, id)
    ensures AddsAtMost(HostedUiDomain, phase, c, CallHostedUiDomain(plan, poolId, phase, c).directory, id)
  {
    hide TextOf, NewPool, PoolUrl, DomainUrl, PoolsNamed;
  }

  lemma ClientCallAdds(plan: Plan, outputs: Outputs, poolId: string, phase: Phase, c: Directory, id: string)
    ensures AddsAtMost(PublicClient, phase, c, CallPublicClient(plan, outputs, poolId, phase, c, id).directory, id)
  {
    hide TextOf, NewClient, ClientsNamed;
  }

  lemma UpdatesAdd(plan: Plan, poolId: string, phase: Phase, c: Directory, id: string)
    ensures AddsAtMost(EnvironmentAttribute, phase, c, CallEnvironmentAttribute(plan, poolId, phase, c).directory, id)
    ensures AddsAtMost(MfaConfig, phase, c, CallMfaConfig(plan, poolId, c).directory, id)
  {
    hide MfaSetting;
  }

  lemma LoopsAdd(plan: Plan, poolId: string, clientId: string, phase: Phase, c: Directory, id: string)
    ensures AddsAtMost(UserGroups, phase, c, CallUserGroups(plan, poolId, phase, c).directory, id)
    ensures AddsAtMost(SocialProviders, phase, c, CallSocialProviders(plan, poolId, clientId, phase, c).directory, id)
  {
    hide SocialNames;
  }

  lemma CallAdds(plan: Plan, op: Op, outputs: Outputs, phase: Phase, c: Directory, id: string)
    ensures AddsAtMost(op, phase, c, Call(plan, op, outputs, phase, c, id).directory, id)
  {
    hide CallUserPool, CallEnvironmentAttribute, CallMfaConfig, CallHostedUiDomain, CallPublicClient, CallUserGroups;
    hide CallSocialProviders, ActivationOutputs, Lacks, TextOf;
    var poolId, clientId := TextOf(outputs, UserPoolId), TextOf(outputs, UserPoolClientId);
    CreatesAdd(plan, outputs, poolId, phase, c, id);
    ClientCallAdds(plan, outputs, poolId, phase, c, id);
    UpdatesAdd(plan, poolId, phase, c, id);
    LoopsAdd(plan, poolId, clientId, phase, c, id);
  }

  // ------------------------------------------------------ what a create makes

  lemma PoolIsMade(plan: Plan, outputs: Outputs, c: Directory, id: string)
    requires Present(id)
    ensures OurPool(plan, Call(plan, UserPool, outputs, Create, c, id).directory, id)
  {
    hide TextOf, PoolOutputs;
  }

  lemma ClientIsMade(plan: Plan, outputs: Outputs, c: Directory, id: string)
    requires Present(id) && !Lacks(PublicClient, outputs)
    ensures OurClient(plan, Call(plan, PublicClient, outputs, Create, c, id).directory, id)
  {
    hide TextOf, ClientOutputs, ClientsNamed;
  }

  /** A call of the right id for its operation keeps both ids reserved. */
  lemma CallReserves(plan: Plan, op: Op, outputs: Outputs, phase: Phase, c: Directory, id: string, p: string, i: string)
    requires Tidy(plan, c) && AllRight(plan, c, outputs) && Seen(plan, op, phase, c) && Fresh(c, id)
    requires Reserved(plan, c, p, i) && !Lacks(op, outputs)
    requires op == UserPool && Fresh(c, p) ==> id == p
    requires op == PublicClient && Fresh(c, i) ==> id == i
    ensures Reserved(plan, Call(plan, op, outputs, phase, c, id).directory, p, i)
  {
    hide Call, Lacks, Tidy, Present, AllRight;
    HolderCall(plan, op, outputs, phase, c, id);
    CallAdds(plan, op, outputs, phase, c, id);
    if op == UserPool && phase == Create { NoPoolSeen(plan, c); PoolIsMade(plan, outputs, c, id); }
    if op == PublicClient && phase == Create { ClientIsMade(plan, outputs, c, id); }
    var reply := Call(plan, op, outputs, phase, c, id);
    PoolStaysReserved(plan, op, phase, c, reply, id, p, i);
    ClientStaysReserved(plan, op, phase, c, reply, id, p, i);
    hide CallOk, PoolReserved, ClientReserved, AddsAtMost;
  }

  lemma NoPoolSeen(plan: Plan, c: Directory)
    requires plan.expectedPoolId == "" && PoolsNamed(c, plan.poolName) == {}
    ensures forall q :: !OurPool(plan, c, q)
  {
    forall q ensures !OurPool(plan, c, q) { assert q !in PoolsNamed(c, plan.poolName); }
  }

  lemma PoolStaysReserved(
      plan: Plan, op: Op, phase: Phase, c: Directory, reply: Reply, id: string, p: string, i: string)
    requires CallOk(plan, op, c, reply) && AddsAtMost(op, phase, c, reply.directory, id)
    requires PoolReserved(plan, c, p) && p != i
    requires op == UserPool && Fresh(c, p) ==> id == p
    requires op == UserPool && phase == Create ==>
      (forall q :: !OurPool(plan, c, q)) && OurPool(plan, reply.directory, id)
    requires op == PublicClient && phase == Create ==> id == i
    ensures PoolReserved(plan, reply.directory, p)
  {
    hide Tidy, MyClient, AllRight, Provides, Seen, Present;
    var d := reply.directory;
    if !OurPool(plan, c, p) && !(op == UserPool && phase == Create) {
      assert Fresh(d, p);
      forall q ensures !OurPool(plan, d, q) {
        assert q in PoolsNamed(d, plan.poolName) <==> q in PoolsNamed(c, plan.poolName);
        assert !OurPool(plan, c, q);
      }
    }
  }

  lemma ClientStaysReserved(
      plan: Plan, op: Op, phase: Phase, c: Directory, reply: Reply, id: string, p: string, i: string)
    requires CallOk(plan, op, c, reply) && AddsAtMost(op, phase, c, reply.directory, id) && Fresh(c, id)
    requires ClientReserved(plan, c, i) && p != i
    requires op == UserPool && phase == Create ==> id == p
    requires op == PublicClient && Fresh(c, i) ==> id == i
    requires op == PublicClient && phase == Create ==>
      (forall j :: !MyClient(plan, c, j)) && OurClient(plan, reply.directory, id)
    requires op == PublicClient && phase != Create ==>
      forall j :: MyClient(plan, reply.directory, j) ==> MyClient(plan, c, j)
    ensures ClientReserved(plan, reply.directory, i)
  {
    hide Tidy, OurPool, AllRight, Provides, Seen, Present, PoolsNamed;
  }

  // -------------------------------------------------------- the lone worker's run

  /** An id for the next call that leaves `p` to the pool and `i` to the client. */
  lemma IdFor(plan: Plan, op: Op, c: Directory, p: string, i: string) returns (id: string)
    ensures Fresh(c, id)
    ensures (op == UserPool && Fresh(c, p) ==> id == p) && (op == PublicClient && Fresh(c, i) ==> id == i)
  {
    id := FreshIdExists(c);
    if op == UserPool && Fresh(c, p) { id := p; }
    if op == PublicClient && Fresh(c, i) { id := i; }
  }

  lemma StepReserves(
      plan: Plan, ops: seq<Op>, s: State, w: nat, since: int, p: string, i: string) returns (step: Step)
    requires Solo(plan, ops, s, w, since) && !s.workers[w].pc.Done? && Reserved(plan, s.directory, p, i)
    ensures Undisturbed(w, step) && !step.Tick? && Enabled(plan, ops, s, step) && Timely(s, step)
    ensures Reserved(plan, After(plan, ops, s, step).directory, p, i)
  {
    hide Inv, Provided, Lists, Tidy, Entries, AllRight, EffectiveOk, Fresh, Reserved, Call, Lacks, EffectiveFrom,
      Sanitize;
    var worker := s.workers[w];
    WorkerFacts(plan, ops, s, w);
    var op := if worker.pc.Run? then ops[worker.pc.i] else Finalize;
    var id := IdFor(plan, op, s.directory, p, i);
    GoesOn(plan, ops, s, w, since, id);
    step := NextStep(s, w, id);
    if worker.pc.Run? {
      Equipped(plan, ops, worker.pc.i, worker.outputs, s.directory);
      hide OnTrack, OurPool, OurClient, TextOf, Seen, Provides;
      CallReserves(plan, op, worker.outputs, worker.pc.phase, s.directory, id, p, i);
    }
  }

  lemma {:induction false} RunsToTheEndWith(plan: Plan, ops: seq<Op>, s: State, w: nat, since: int, p: string,
      i: string)
      returns (steps: seq<Step>)
    requires Solo(plan, ops, s, w, since) && since <= s.clock && Reserved(plan, s.directory, p, i)
    ensures IsSoloRun(plan, ops, s, w, steps) && IsRun(plan, ops, s, steps)
    ensures
      var end := EndOf(plan, ops, s, steps);
      && Solo(plan, ops, end, w, since) && end.workers[w].pc == Done(true)
      && Reserved(plan, end.directory, p, i)
    decreases Cost(plan, ops, s.workers[w].pc)
  {
    hide Undisturbed, Cost, After, Enabled, Timely, IsSoloRun, Reserved, Inv, Provided;
    if s.workers[w].pc.Done? {
      steps := [];
      assert IsSoloRun(plan, ops, s, w, steps) by { EmptySoloRun(plan, ops, s, w); }
    } else {
      var step := StepReserves(plan, ops, s, w, since, p, i);
      SoloKeeps(plan, ops, s, w, since, step);
      StepCosts(plan, ops, s, w, since, step);
      hide Solo;
      var rest := RunsToTheEndWith(plan, ops, After(plan, ops, s, step), w, since, p, i);
      SoloRunExtends(plan, ops, s, w, step, rest);
      steps := [step] + rest;
    }
  }

  lemma EmptySoloRun(plan: Plan, ops: seq<Op>, s: State, w: nat)
    ensures IsSoloRun(plan, ops, s, w, [])
  {
  }

  /** Once the record is written, it names the reserved ids. */
  lemma ReservedIsActivated(plan: Plan, ops: seq<Op>, s: State, p: string, i: string)
    requires Inv(plan, ops, s) && s.effective.Set? && Reserved(plan, s.directory, p, i)
    ensures s.effective.auth == Activated(plan, p, i)
  {
    hide Lists, Entries, Workers, AllSeen, Exclusive, Tidy, Mine, Fresh, Present, PoolUrl, DomainUrl;
    InvFacts(plan, ops, s);
    OnePool(plan, s.directory, s.effective.auth.userPoolId, p);
    OneClient(plan, s.directory, s.effective.auth.clientId, i);
  }

  /** In an initial state the ids are reserved when nobody has them yet. */
  lemma InitiallyReserved(plan: Plan, ops: seq<Op>, s: State, p: string, i: string)
    requires Initial(plan, ops, s) && p != i && Fresh(s.directory, i)
    requires if plan.expectedPoolId != "" then p == plan.expectedPoolId && p in s.directory.pools
      else Fresh(s.directory, p)
    ensures Reserved(plan, s.directory, p, i)
  {
    assert forall j :: !MyClient(plan, s.directory, j);
  }

  /**
   * After any history of failures, crashes, retries, takeovers and half-acknowledged puts, the effective
   * record is exactly what one uninterrupted worker, alone and from any initial state, writes when Cognito
   * gives it the same two ids.
   */
  lemma ResumeEqualsUninterrupted(plan: Plan, ops: seq<Op>, s: State, s0: State, w: nat) returns (steps: seq<Step>)
    requires Reachable(plan, ops, s) && s.effective.Set?
    requires Initial(plan, ops, s0) && Provided(plan, ops, s0.table, s0.directory)
    requires plan.expectedPoolId == "" ==> Fresh(s0.directory, s.effective.auth.userPoolId)
    requires Fresh(s0.directory, s.effective.auth.clientId)
    ensures Enabled(plan, ops, s0, Begins(w))
    ensures
      var begun := After(plan, ops, s0, Begins(w));
      && IsSoloRun(plan, ops, begun, w, steps) && IsRun(plan, ops, begun, steps)
      && var end := EndOf(plan, ops, begun, steps);
      && w in end.workers && end.workers[w].pc == Done(true)
      && end.effective == s.effective
  {
    hide Inv, Reserved, Provided, Fresh, EndOf, IsSoloRun, Reachable, Initial, Activated;
    var p, i := s.effective.auth.userPoolId, s.effective.auth.clientId;
    ReachableKeeps(plan, ops, s);
    EffectiveIsOurs(plan, ops, s);
    InitialKeeps(plan, ops, s0);
    UninterruptedStarts(plan, ops, s, s0, w);
    var begun := After(plan, ops, s0, Begins(w));
    steps := RunsToTheEndWith(plan, ops, begun, w, s0.clock, p, i);
    FinalizeActivated(plan, ops, s);
    ReservedIsActivated(plan, ops, EndOf(plan, ops, begun, steps), p, i);
  }

  lemma UninterruptedStarts(plan: Plan, ops: seq<Op>, s: State, s0: State, w: nat)
    requires Reachable(plan, ops, s) && s.effective.Set?
    requires Initial(plan, ops, s0) && Provided(plan, ops, s0.table, s0.directory)
    requires plan.expectedPoolId == "" ==> Fresh(s0.directory, s.effective.auth.userPoolId)
    requires Fresh(s0.directory, s.effective.auth.clientId)
    ensures Enabled(plan, ops, s0, Begins(w)) && Solo(plan, ops, After(plan, ops, s0, Begins(w)), w, s0.clock)
    ensures Reserved(plan, After(plan, ops, s0, Begins(w)).directory, s.effective.auth.userPoolId,
      s.effective.auth.clientId)
  {
    hide Inv, Reserved, Reachable, Fresh, Solo, Activated;
    var p, i := s.effective.auth.userPoolId, s.effective.auth.clientId;
    ReachableKeeps(plan, ops, s);
    EffectiveIsOurs(plan, ops, s);
    InvFacts(plan, ops, s);
    InitialKeeps(plan, ops, s0);
    SoloStarts(plan, ops, s0, w);
    FinalizeActivated(plan, ops, s);
    FinalizeNeedsPoolAndClient(plan, ops);
    assert OpProvided(plan, UserPool, s0.directory);
    InitiallyReserved(plan, ops, s0, p, i);
  }
}
