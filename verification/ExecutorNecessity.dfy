/** An undisturbed run ends applied only if every unfinished operation was provided for. */
module ExecutorNecessity {
  import opened Text
  import opened Provisioning
  import opened Cognito
  import opened Executor
  import opened ExecutorInvariant
  import opened ExecutorCalls
  import opened ExecutorSafety
  import opened ExecutorOrder
  import opened ExecutorTheorems
  import opened ExecutorConvergence
  import opened ExecutorResume

  /** A step of worker `w`'s own program, also of its failure branch, or the passing of time. */
  predicate Alone(w: nat, step: Step) { Undisturbed(w, step) || step == Aborts(w) }

  /** Two wanted groups are the same, and the plan's pool has no such group. */
  ghost predicate Repeats(plan: Plan, c: Directory, i: nat, j: nat) {
    i < j < |plan.groups| && plan.groups[i] == plan.groups[j] && !HasGroup(plan, c, plan.groups[i])
  }

  /** How far the group loop can have come: not past the repetition. */
  ghost predicate Heading(plan: Plan, poolId: string, phase: Phase, c: Directory, i: nat, j: nat) {
    && i < j < |plan.groups| && plan.groups[i] == plan.groups[j]
    && if phase.GroupLoop? then
         && plan.groups[i] !in phase.existing && phase.next <= j
         && (phase.next > i && poolId in c.pools ==> plan.groups[i] in c.pools[poolId].groups)
       else !HasGroup(plan, c, plan.groups[i])
  }

  /** What stands in the way of operation `op`; `i` and `j` say where a group list repeats. */
  ghost predicate Obstacle(plan: Plan, op: Op, c: Directory, i: nat, j: nat) {
    || (op == HostedUiDomain && plan.domainPrefix == "")
    || (op == UserPool && plan.expectedPoolId != "" && plan.expectedPoolId !in c.pools)
    || (op == UserGroups && Repeats(plan, c, i, j))
  }

  lemma ObstacleExists(plan: Plan, op: Op, c: Directory) returns (i: nat, j: nat)
    requires !OpProvided(plan, op, c)
    ensures Obstacle(plan, op, c, i, j)
  {
    hide HasGroup;
    i, j := 0, 0;
    if op == UserGroups {
      i, j :| 0 <= i < j < |plan.groups| && plan.groups[i] == plan.groups[j] && !HasGroup(plan, c, plan.groups[i]);
    }
  }

  /** Worker `w` cannot get past operation `op`: it has failed already, or the obstacle is still there. */
  ghost predicate Blocked(plan: Plan, ops: seq<Op>, s: State, w: nat, op: Op, i: nat, j: nat) {
    && op in ops && !Finished(s.table, op) && w in s.workers
    && var worker := s.workers[w];
    var pc := worker.pc;
    InRange(ops, pc) && pc != Done(true) &&
    (pc.Abort? || pc.Done? ||
     (FinishedBelow(ops, s.table, Passed(ops, pc)) && (pc.Commit? ==> ops[pc.i] != op)
      && (pc.Run? ==> Fits(ops[pc.i], pc.phase))
      && if op == UserGroups && pc.Run? && ops[pc.i] == op
         then Heading(plan, TextOf(worker.outputs, UserPoolId), pc.phase, s.directory, i, j)
         else Obstacle(plan, op, s.directory, i, j)))
  }

  // ------------------------------------------- an obstacle stays where it is

  /** Pools that were there are as they were in name and groups; a new one has no group. */
  predicate PoolsAlike(c: Directory, d: Directory) {
    forall p | p in d.pools ::
      (p in c.pools && d.pools[p].name == c.pools[p].name && d.pools[p].groups == c.pools[p].groups)
      || (p !in c.pools && d.pools[p].groups == {})
  }

  lemma CreatesLeaveGroups(plan: Plan, outputs: Outputs, poolId: string, phase: Phase, c: Directory, id: string)
    requires Fresh(c, id)
    ensures PoolsAlike(c, CallUserPool(plan, outputs, phase, c, id).directory)
    ensures PoolsAlike(c, CallHostedUiDomain(plan, poolId, phase, c).directory)
  {
    hide TextOf, PoolUrl, DomainUrl, PoolsNamed;
  }

  lemma ClientLeavesGroups(plan: Plan, outputs: Outputs, poolId: string, phase: Phase, c: Directory, id: string)
    ensures PoolsAlike(c, CallPublicClient(plan, outputs, poolId, phase, c, id).directory)
  {
    hide TextOf, NewClient, ClientsNamed;
  }

  lemma UpdatesLeaveGroups(plan: Plan, poolId: string, phase: Phase, c: Directory)
    ensures PoolsAlike(c, CallEnvironmentAttribute(plan, poolId, phase, c).directory)
    ensures PoolsAlike(c, CallMfaConfig(plan, poolId, c).directory)
  {
    hide MfaSetting;
  }

  lemma ProvidersLeaveGroups(plan: Plan, poolId: string, clientId: string, phase: Phase, c: Directory)
    ensures PoolsAlike(c, CallSocialProviders(plan, poolId, clientId, phase, c).directory)
  {
    hide SocialNames;
  }

  lemma CallLeavesGroups(plan: Plan, op: Op, outputs: Outputs, phase: Phase, c: Directory, id: string)
    requires Fresh(c, id) && op != UserGroups
    ensures PoolsAlike(c, Call(plan, op, outputs, phase, c, id).directory)
  {
    hide CallUserPool, CallEnvironmentAttribute, CallMfaConfig, CallHostedUiDomain, CallPublicClient, CallUserGroups;
    hide CallSocialProviders, ActivationOutputs, Lacks, TextOf, Fresh;
    var poolId, clientId := TextOf(outputs, UserPoolId), TextOf(outputs, UserPoolClientId);
    CreatesLeaveGroups(plan, outputs, poolId, phase, c, id);
    ClientLeavesGroups(plan, outputs, poolId, phase, c, id);
    UpdatesLeaveGroups(plan, poolId, phase, c);
    ProvidersLeaveGroups(plan, poolId, clientId, phase, c);
    assert PoolsAlike(c, c);
    hide PoolsAlike;
  }

  lemma NoGroupAppears(plan: Plan, c: Directory, d: Directory, g: string)
    requires PoolsAlike(c, d) && !HasGroup(plan, c, g)
    ensures !HasGroup(plan, d, g)
  {
    hide Present;
    forall p | OurPool(plan, d, p) ensures g !in d.pools[p].groups {
      if p in c.pools { assert OurPool(plan, c, p); }
    }
  }

  /** The call for another operation, or one that is refused, leaves the obstacle in place. */
  lemma ObstacleStays(plan: Plan, op: Op, c: Directory, d: Directory, i: nat, j: nat)
    requires Obstacle(plan, op, c, i, j) && PoolsAlike(c, d)
    requires plan.expectedPoolId != "" ==> d.pools.Keys <= c.pools.Keys
    ensures Obstacle(plan, op, d, i, j)
  {
    hide HasGroup, PoolsAlike;
    if op == UserGroups { NoGroupAppears(plan, c, d, plan.groups[i]); }
  }

  // ------------------------------------------------- the operation it stops at

  lemma UserPoolStops(plan: Plan, outputs: Outputs, phase: Phase, c: Directory, id: string)
    requires Tidy(plan, c) && AllRight(plan, c, outputs) && Seen(plan, UserPool, phase, c)
    requires plan.expectedPoolId != "" && plan.expectedPoolId !in c.pools
    ensures CallUserPool(plan, outputs, phase, c, id).outcome.Raise?
  {
    ReadsRight(plan, c, outputs);
    hide AllRight, TextOf, NewPool, PoolOutputs;
  }

  lemma DomainStops(plan: Plan, poolId: string, phase: Phase, c: Directory)
    requires plan.domainPrefix == ""
    ensures CallHostedUiDomain(plan, poolId, phase, c).outcome.Raise?
  {
  }

  lemma GroupsStop(plan: Plan, poolId: string, phase: Phase, c: Directory, i: nat, j: nat)
    requires Heading(plan, poolId, phase, c, i, j) && (OurPool(plan, c, poolId) || poolId !in c.pools)
    ensures
      var reply := CallUserGroups(plan, poolId, phase, c);
      && !reply.outcome.Return?
      && (reply.outcome.Continue? ==> Heading(plan, poolId, reply.outcome.phase, reply.directory, i, j))
  {
    hide Present;
  }

  /** The call for the operation in the way does not return; it goes on only on the way to the repetition. */
  lemma CallStops(plan: Plan, op: Op, outputs: Outputs, phase: Phase, c: Directory, id: string, i: nat, j: nat)
    requires Tidy(plan, c) && AllRight(plan, c, outputs) && Seen(plan, op, phase, c) && Fits(op, phase)
    requires if op == UserGroups then Heading(plan, TextOf(outputs, UserPoolId), phase, c, i, j)
      else Obstacle(plan, op, c, i, j)
    ensures
      var reply := Call(plan, op, outputs, phase, c, id);
      && !reply.outcome.Return?
      && (reply.outcome.Continue? ==>
            op == UserGroups && Heading(plan, TextOf(outputs, UserPoolId), reply.outcome.phase, reply.directory, i, j))
  {
    hide CallUserPool, CallHostedUiDomain, CallUserGroups, Heading, Tidy, AllRight, Seen, TextOf, Repeats, OurClient;
    hide CallEnvironmentAttribute, CallMfaConfig, CallPublicClient, CallSocialProviders, ActivationOutputs;
    var poolId := TextOf(outputs, UserPoolId);
    ReadsRight(plan, c, outputs);
    Required(op, outputs);
    hide Lacks, OurPool;
    if op == UserPool { UserPoolStops(plan, outputs, phase, c, id); }
    if op == HostedUiDomain { DomainStops(plan, poolId, phase, c); }
    if op == UserGroups && !Lacks(op, outputs) {
      assert OurPool(plan, c, poolId);
      GroupsStop(plan, poolId, phase, c, i, j);
    }
  }

  // ------------------------------------------------------------------ the steps

  /** What the invariant says of the worker. */
  lemma AloneFacts(plan: Plan, ops: seq<Op>, s: State, w: nat, op: Op, i: nat, j: nat)
    requires Inv(plan, ops, s) && Blocked(plan, ops, s, w, op, i, j) && s.workers[w].pc.Run?
    ensures
      var worker := s.workers[w];
      && Tidy(plan, s.directory) && AllRight(plan, s.directory, worker.outputs) && worker.pc.i < |ops|
      && Seen(plan, ops[worker.pc.i], worker.pc.phase, s.directory) && Lists(plan, ops)
  {
    hide Tidy, Lists, Entries, Seen, EffectiveOk, AllRight, Provides, Obstacle, Heading, FinishedBelow;
    WorkerFacts(plan, ops, s, w);
  }

  /** A call for the operation in the way. */
  lemma BlockedCalls(plan: Plan, ops: seq<Op>, s: State, w: nat, op: Op, i: nat, j: nat, id: string)
    requires Inv(plan, ops, s) && Blocked(plan, ops, s, w, op, i, j) && Enabled(plan, ops, s, Calls(w, id))
    requires ops[s.workers[w].pc.i] == op
    ensures Blocked(plan, ops, After(plan, ops, s, Calls(w, id)), w, op, i, j)
  {
    hide Call, Inv, Tidy, Lists, AllRight, Seen, Obstacle, Heading, FinishedBelow, Finished, TextOf, Fresh;
    var worker := s.workers[w];
    AloneFacts(plan, ops, s, w, op, i, j);
    CallStops(plan, op, worker.outputs, worker.pc.phase, s.directory, id, i, j);
    CallAdvances(plan, op, worker.outputs, worker.pc.phase, s.directory, id);
    hide Fits, PhaseCost;
  }

  /** A call for another operation. */
  lemma UnblockedCalls(plan: Plan, ops: seq<Op>, s: State, w: nat, op: Op, i: nat, j: nat, id: string)
    requires Inv(plan, ops, s) && Blocked(plan, ops, s, w, op, i, j) && Enabled(plan, ops, s, Calls(w, id))
    requires ops[s.workers[w].pc.i] != op
    ensures Blocked(plan, ops, After(plan, ops, s, Calls(w, id)), w, op, i, j)
  {
    hide Call, Inv, Tidy, Lists, AllRight, Obstacle, Heading, FinishedBelow, Finished, TextOf, Fresh, PoolsAlike;
    var worker := s.workers[w];
    var pc := worker.pc;
    AloneFacts(plan, ops, s, w, op, i, j);
    var d := CallAt(plan, ops, s, w, id).directory;
    NoPoolForNamed(plan, ops[pc.i], worker.outputs, pc.phase, s.directory, id);
    CallAdvances(plan, ops[pc.i], worker.outputs, pc.phase, s.directory, id);
    if op == UserGroups || ops[pc.i] != UserGroups {
      CallLeavesGroups(plan, ops[pc.i], worker.outputs, pc.phase, s.directory, id);
      ObstacleStays(plan, op, s.directory, d, i, j);
    } else {
      OtherObstacleStays(plan, op, s.directory, d, i, j);
    }
    hide Seen, Fits, PhaseCost;
  }

  lemma OtherObstacleStays(plan: Plan, op: Op, c: Directory, d: Directory, i: nat, j: nat)
    requires Obstacle(plan, op, c, i, j) && op != UserGroups
    requires plan.expectedPoolId != "" ==> d.pools.Keys <= c.pools.Keys
    ensures Obstacle(plan, op, d, i, j)
  {
    hide Repeats;
  }

  /** When the profile names the pool, no operation makes one. */
  lemma NoPoolForNamed(plan: Plan, op: Op, outputs: Outputs, phase: Phase, c: Directory, id: string)
    requires Seen(plan, op, phase, c)
    ensures plan.expectedPoolId != "" ==> Call(plan, op, outputs, phase, c, id).directory.pools.Keys <= c.pools.Keys
  {
    hide Call, PoolsNamed, MyClient;
    CallAdds(plan, op, outputs, phase, c, id);
  }

  lemma OtherStepsStayBlocked(plan: Plan, ops: seq<Op>, s: State, w: nat, step: Step, op: Op, i: nat, j: nat)
    requires Blocked(plan, ops, s, w, op, i, j) && Enabled(plan, ops, s, step) && Alone(w, step) && !step.Calls?
    requires !step.Commits? && !step.Locks? && !step.Loads?
    ensures Blocked(plan, ops, After(plan, ops, s, step), w, op, i, j)
  {
    hide Obstacle, Heading, EffectiveFrom, TextOf;
    if step.Activates? { AllBelow(ops, s.table, op); }
  }

  lemma LoadsStayBlocked(plan: Plan, ops: seq<Op>, s: State, w: nat, op: Op, i: nat, j: nat)
    requires Blocked(plan, ops, s, w, op, i, j) && Enabled(plan, ops, s, Loads(w))
    ensures Blocked(plan, ops, After(plan, ops, s, Loads(w)), w, op, i, j)
  {
    hide Obstacle, Heading, TextOf;
    if s.workers[w].pc.i == |ops| { AllBelow(ops, s.table, op); }
  }

  lemma LocksStayBlocked(plan: Plan, ops: seq<Op>, s: State, w: nat, readAt: int, now: int, op: Op, i: nat, j: nat)
    requires Blocked(plan, ops, s, w, op, i, j) && Enabled(plan, ops, s, Locks(w, readAt, now))
    ensures Blocked(plan, ops, After(plan, ops, s, Locks(w, readAt, now)), w, op, i, j)
  {
    hide TextOf, HasGroup;
  }

  lemma CommitsStayBlocked(plan: Plan, ops: seq<Op>, s: State, w: nat, op: Op, i: nat, j: nat)
    requires Blocked(plan, ops, s, w, op, i, j) && Enabled(plan, ops, s, Commits(w))
    ensures Blocked(plan, ops, After(plan, ops, s, Commits(w)), w, op, i, j)
  {
    hide Obstacle, Heading, TextOf, Sanitize;
  }

  lemma StepStaysBlocked(plan: Plan, ops: seq<Op>, s: State, w: nat, step: Step, op: Op, i: nat, j: nat)
    requires Inv(plan, ops, s) && Blocked(plan, ops, s, w, op, i, j)
    requires Enabled(plan, ops, s, step) && Alone(w, step)
    ensures Blocked(plan, ops, After(plan, ops, s, step), w, op, i, j)
  {
    hide Inv, After, Enabled, Obstacle, Heading, FinishedBelow, Finished;
    match step
    case Calls(_, id) =>
      assert s.workers[w].pc.Run? by { CallsRun(plan, ops, s, w, id); }
      if ops[s.workers[w].pc.i] == op {
        BlockedCalls(plan, ops, s, w, op, i, j, id);
      } else {
        UnblockedCalls(plan, ops, s, w, op, i, j, id);
      }
    case Locks(_, readAt, now) => LocksStayBlocked(plan, ops, s, w, readAt, now, op, i, j);
    case Commits(_) => CommitsStayBlocked(plan, ops, s, w, op, i, j);
    case Loads(_) => LoadsStayBlocked(plan, ops, s, w, op, i, j);
    case _ => OtherStepsStayBlocked(plan, ops, s, w, step, op, i, j);
  }

  lemma CallsRun(plan: Plan, ops: seq<Op>, s: State, w: nat, id: string)
    requires Enabled(plan, ops, s, Calls(w, id))
    ensures w in s.workers && s.workers[w].pc.Run? && s.workers[w].pc.i < |ops|
  {
  }

  // ------------------------------------------------------------------- the runs

  ghost predicate IsAloneRun(plan: Plan, ops: seq<Op>, s: State, w: nat, steps: seq<Step>) {
    IsTimelyRun(plan, ops, s, steps) && forall k | 0 <= k < |steps| :: Alone(w, steps[k])
  }

  lemma {:induction false} RunStaysBlocked(
      plan: Plan, ops: seq<Op>, s: State, w: nat, steps: seq<Step>, op: Op, i: nat, j: nat)
    requires Inv(plan, ops, s) && Blocked(plan, ops, s, w, op, i, j) && IsAloneRun(plan, ops, s, w, steps)
    ensures IsRun(plan, ops, s, steps) && Blocked(plan, ops, EndOf(plan, ops, s, steps), w, op, i, j)
    decreases |steps|
  {
    hide Inv, Blocked, Alone, After, Enabled, Timely;
    TimelyRunIsRun(plan, ops, s, steps);
    if steps != [] {
      StepKeeps(plan, ops, s, steps[0]);
      StepStaysBlocked(plan, ops, s, w, steps[0], op, i, j);
      RunStaysBlocked(plan, ops, After(plan, ops, s, steps[0]), w, steps[1..], op, i, j);
    }
  }

  lemma BlockedAtFirst(plan: Plan, ops: seq<Op>, s: State, w: nat, op: Op) returns (i: nat, j: nat)
    requires w !in s.workers && op in ops && !Finished(s.table, op) && !OpProvided(plan, op, s.directory)
    ensures Blocked(plan, ops, After(plan, ops, s, Begins(w)), w, op, i, j)
  {
    hide OpProvided, Obstacle;
    i, j := ObstacleExists(plan, op, s.directory);
  }

  /** A worker that nobody disturbs ends applied only if every unfinished operation has what it needs. */
  lemma AppliesOnlyIfProvided(plan: Plan, ops: seq<Op>, s: State, w: nat, steps: seq<Step>)
    requires Reachable(plan, ops, s) && w !in s.workers && Enabled(plan, ops, s, Begins(w))
    requires IsAloneRun(plan, ops, After(plan, ops, s, Begins(w)), w, steps)
    requires
      var begun := After(plan, ops, s, Begins(w));
      && IsRun(plan, ops, begun, steps)
      && var end := EndOf(plan, ops, begun, steps);
      w in end.workers && end.workers[w].pc == Done(true)
    ensures Provided(plan, ops, s.table, s.directory)
  {
    hide Inv, Reachable, OpProvided, Alone, IsAloneRun, Finished, Obstacle, Heading, FinishedBelow;
    ReachableKeeps(plan, ops, s);
    StepKeeps(plan, ops, s, Begins(w));
    forall op | op in ops && !Finished(s.table, op) ensures OpProvided(plan, op, s.directory) {
      if !OpProvided(plan, op, s.directory) {
        var i, j := BlockedAtFirst(plan, ops, s, w, op);
        RunStaysBlocked(plan, ops, After(plan, ops, s, Begins(w)), w, steps, op, i, j);
      }
    }
  }

  ghost predicate EndsApplied(plan: Plan, ops: seq<Op>, s: State, w: nat, steps: seq<Step>) {
    && IsSoloRun(plan, ops, s, w, steps) && IsRun(plan, ops, s, steps)
    && w in EndOf(plan, ops, s, steps).workers && EndOf(plan, ops, s, steps).workers[w].pc == Done(true)
  }

  /**
   * Once all recorded leases have run out, one undisturbed worker can complete the plan exactly when every
   * operation that has not succeeded yet has what it needs.
   */
  lemma CompletesIffProvided(plan: Plan, ops: seq<Op>, s: State, w: nat)
    requires Reachable(plan, ops, s) && w !in s.workers && Expired(s.table, s.clock)
    ensures Enabled(plan, ops, s, Begins(w))
    ensures (exists steps: seq<Step> :: EndsApplied(plan, ops, After(plan, ops, s, Begins(w)), w, steps))
      <==> Provided(plan, ops, s.table, s.directory)
  {
    hide Reachable, Provided, EndOf, Expired;
    var begun := After(plan, ops, s, Begins(w));
    if Provided(plan, ops, s.table, s.directory) {
      var steps := Converges(plan, ops, s, w);
      assert EndsApplied(plan, ops, begun, w, steps);
    }
    if steps: seq<Step> :| EndsApplied(plan, ops, begun, w, steps) {
      assert IsAloneRun(plan, ops, begun, w, steps);
      AppliesOnlyIfProvided(plan, ops, s, w, steps);
    }
  }
}
