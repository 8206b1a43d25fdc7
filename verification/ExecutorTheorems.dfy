/** Safety over whole runs of one plan, from its first worker on. */
module ExecutorTheorems {
  import opened Text
  import opened Provisioning
  import opened Cognito
  import opened Executor
  import opened ExecutorInvariant
  import opened ExecutorSafety
  import opened ExecutorOrder

  lemma InitialKeeps(plan: Plan, ops: seq<Op>, s: State)
    requires Initial(plan, ops, s)
    ensures Inv(plan, ops, s) && Ordered(ops, s)
  {
    assert forall i :: !MyClient(plan, s.directory, i);
  }

  lemma {:induction false} RunKeeps(plan: Plan, ops: seq<Op>, s: State, steps: seq<Step>)
    requires Inv(plan, ops, s) && IsTimelyRun(plan, ops, s, steps)
    ensures IsRun(plan, ops, s, steps) && Inv(plan, ops, EndOf(plan, ops, s, steps))
    ensures Keeps(plan, s.directory, EndOf(plan, ops, s, steps).directory)
    decreases |steps|
  {
    hide Inv, After, Enabled, Timely;
    TimelyRunIsRun(plan, ops, s, steps);
    if steps != [] {
      StepKeeps(plan, ops, s, steps[0]);
      StepKeepsResources(plan, ops, s, steps[0]);
      RunKeeps(plan, ops, After(plan, ops, s, steps[0]), steps[1..]);
    }
  }

  lemma {:induction false} RunKeepsOrder(plan: Plan, ops: seq<Op>, s: State, steps: seq<Step>)
    requires Inv(plan, ops, s) && Ordered(ops, s) && IsTimelyRun(plan, ops, s, steps) && Acknowledged(steps)
    ensures IsRun(plan, ops, s, steps) && Ordered(ops, EndOf(plan, ops, s, steps))
    ensures Grows(s.table, EndOf(plan, ops, s, steps).table)
    decreases |steps|
  {
    hide Inv, Ordered, After, Enabled, Timely;
    TimelyRunIsRun(plan, ops, s, steps);
    if steps != [] {
      StepKeeps(plan, ops, s, steps[0]);
      StepKeepsOrder(plan, ops, s, steps[0]);
      RunKeepsOrder(plan, ops, After(plan, ops, s, steps[0]), steps[1..]);
    }
  }

  /** `s` comes about from an initial state by a timely run. */
  ghost predicate Reachable(plan: Plan, ops: seq<Op>, s: State) {
    exists s0: State, steps: seq<Step> ::
      Initial(plan, ops, s0) && IsTimelyRun(plan, ops, s0, steps) && IsRun(plan, ops, s0, steps)
      && EndOf(plan, ops, s0, steps) == s
  }

  /** In addition, every put of a final status on the way was acknowledged or did not land. */
  ghost predicate ReachableInOrder(plan: Plan, ops: seq<Op>, s: State) {
    exists s0: State, steps: seq<Step> ::
      Initial(plan, ops, s0) && IsTimelyRun(plan, ops, s0, steps) && IsRun(plan, ops, s0, steps)
      && EndOf(plan, ops, s0, steps) == s && Acknowledged(steps)
  }

  lemma ReachableKeeps(plan: Plan, ops: seq<Op>, s: State)
    requires Reachable(plan, ops, s)
    ensures Inv(plan, ops, s)
  {
    hide Inv, Initial;
    var s0: State, steps: seq<Step> :| Initial(plan, ops, s0) && IsTimelyRun(plan, ops, s0, steps)
      && IsRun(plan, ops, s0, steps) && EndOf(plan, ops, s0, steps) == s;
    InitialKeeps(plan, ops, s0);
    RunKeeps(plan, ops, s0, steps);
  }

  lemma ReachableInOrderKeeps(plan: Plan, ops: seq<Op>, s: State)
    requires ReachableInOrder(plan, ops, s)
    ensures Reachable(plan, ops, s) && Inv(plan, ops, s) && Ordered(ops, s)
  {
    hide Inv, Initial, Ordered;
    var s0: State, steps: seq<Step> :| Initial(plan, ops, s0) && IsTimelyRun(plan, ops, s0, steps)
      && IsRun(plan, ops, s0, steps) && EndOf(plan, ops, s0, steps) == s && Acknowledged(steps);
    InitialKeeps(plan, ops, s0);
    RunKeeps(plan, ops, s0, steps);
    RunKeepsOrder(plan, ops, s0, steps);
  }

  // --------------------------------------------------------- mutual exclusion

  /**
   * No operation is ever held by two workers, and a holder's lease has not run out. A worker that calls
   * Cognito or is about to commit is the one the table names; one that gives up may have succeeded unknowingly.
   */
  lemma OneHolderPerOperation(plan: Plan, ops: seq<Op>, s: State, v: nat, w: nat)
    requires Reachable(plan, ops, s)
    requires v in s.workers && w in s.workers && Holding(s.workers[v].pc) && Holding(s.workers[w].pc)
    ensures s.clock <= s.workers[v].pc.lease
    ensures s.workers[v].pc.i == s.workers[w].pc.i ==> v == w
    ensures s.workers[v].pc.i < |ops| && ops[s.workers[v].pc.i] in s.table
    ensures s.workers[v].pc.Run? || s.workers[v].pc.Commit? ==>
      s.table[ops[s.workers[v].pc.i]] == InProgress(s.workers[v].pc.lease)
  {
    ReachableKeeps(plan, ops, s);
    hide Tidy, Lists, Entries, Workers, AllSeen, EffectiveOk;
    assert HoldsLock(ops, s, s.workers[v].pc);
  }

  /** With acknowledged final puts, one worker at most executes at any time, whatever the operation. */
  lemma OneWorkerExecutes(plan: Plan, ops: seq<Op>, s: State, v: nat, w: nat)
    requires ReachableInOrder(plan, ops, s)
    requires v in s.workers && w in s.workers && Holding(s.workers[v].pc) && Holding(s.workers[w].pc)
    ensures v == w
    ensures s.workers[v].pc.i < |ops| && ops[s.workers[v].pc.i] in s.table && s.clock <= s.workers[v].pc.lease
    ensures s.table[ops[s.workers[v].pc.i]] == InProgress(s.workers[v].pc.lease)
  {
    ReachableInOrderKeeps(plan, ops, s);
    OneHolderPerOperation(plan, ops, s, v, w);
    OneHolderPerOperation(plan, ops, s, w, v);
    OrderFacts(plan, ops, s, v);
    OrderFacts(plan, ops, s, w);
    hide Inv, Reachable, ReachableInOrder;
  }

  // ---------------------------------------------------------- the directory

  lemma CardinalityAtMostOne<T>(s: set<T>)
    requires forall x, y | x in s && y in s :: x == y
    ensures |s| <= 1
  {
    if s != {} {
      var x :| x in s;
      assert s == {x};
    }
  }

  /** At most one client of the planned name, in whichever pool. */
  lemma ClientsOfOnePool(plan: Plan, c: Directory, poolId: string)
    requires Tidy(plan, c)
    ensures |ClientsNamed(c, poolId, plan.clientName)| <= 1
    ensures ClientsNamed(c, poolId, plan.clientName) != {} ==> OurPool(plan, c, poolId)
  {
    hide OurPool, Present;
    var clients := ClientsNamed(c, poolId, plan.clientName);
    assert forall i | i in clients :: MyClient(plan, c, i);
    CardinalityAtMostOne(clients);
  }

  /**
   * All runs together never make a second pool of the planned name, nor a second client of the planned name
   * in the whole directory; that client is in the plan's pool.
   */
  lemma AtMostOnePoolAndClient(plan: Plan, ops: seq<Op>, s: State)
    requires Reachable(plan, ops, s)
    ensures |PoolsNamed(s.directory, plan.poolName)| <= 1
    ensures forall p, q | OurPool(plan, s.directory, p) && OurPool(plan, s.directory, q) :: p == q
    ensures forall p :: |ClientsNamed(s.directory, p, plan.clientName)| <= 1
    ensures forall p | ClientsNamed(s.directory, p, plan.clientName) != {} :: OurPool(plan, s.directory, p)
  {
    ReachableKeeps(plan, ops, s);
    var c := s.directory;
    hide Lists, Entries, Workers, AllSeen, EffectiveOk, Exclusive;
    CardinalityAtMostOne(PoolsNamed(c, plan.poolName));
    forall p ensures |ClientsNamed(c, p, plan.clientName)| <= 1
      ensures ClientsNamed(c, p, plan.clientName) != {} ==> OurPool(plan, c, p)
    {
      ClientsOfOnePool(plan, c, p);
    }
  }

  // -------------------------------------------------------------- the table

  /** The pool and the client that the recorded operations name. */
  function PoolOf(t: Table): string {
    if Finished(t, UserPool) then TextField(t[UserPool].outputs, UserPoolId) else ""
  }

  function ClientOf(t: Table): string {
    if Finished(t, PublicClient) then TextField(t[PublicClient].outputs, UserPoolClientId) else ""
  }

  lemma InvRecords(plan: Plan, ops: seq<Op>, s: State)
    requires Inv(plan, ops, s)
    ensures Finished(s.table, UserPool) ==> OurPool(plan, s.directory, PoolOf(s.table))
    ensures Finished(s.table, PublicClient) ==> OurClient(plan, s.directory, ClientOf(s.table))
  {
    hide Tidy, Lists, Workers, AllSeen, EffectiveOk, Exclusive, OurPool, OurClient;
    if Finished(s.table, UserPool) {
      assert Right(plan, s.directory, UserPoolId, s.table[UserPool].outputs[UserPoolId]);
    }
    if Finished(s.table, PublicClient) {
      assert Right(plan, s.directory, UserPoolClientId, s.table[PublicClient].outputs[UserPoolClientId]);
    }
  }

  /** What the table records exists and is the plan's own. */
  lemma RecordedAreOurs(plan: Plan, ops: seq<Op>, s: State)
    requires Reachable(plan, ops, s)
    ensures Finished(s.table, UserPool) ==> OurPool(plan, s.directory, PoolOf(s.table))
    ensures Finished(s.table, PublicClient) ==> OurClient(plan, s.directory, ClientOf(s.table))
  {
    hide Inv, OurPool, OurClient, PoolOf, ClientOf;
    ReachableKeeps(plan, ops, s);
    InvRecords(plan, ops, s);
  }

  /** Worker `w` is about to write that `op` failed. */
  predicate GivingUp(ops: seq<Op>, s: State, w: nat, op: Op) {
    w in s.workers && s.workers[w].pc.Abort? && s.workers[w].pc.i < |ops| && ops[s.workers[w].pc.i] == op
  }

  predicate SameRecord(t: Table, u: Table, op: Op)
    requires op in t
  {
    op in u && u[op] == t[op]
  }

  /** Nobody holds `op`. */
  predicate Unheld(ops: seq<Op>, s: State, op: Op) {
    forall w | w in s.workers && Holding(s.workers[w].pc) && s.workers[w].pc.i < |ops| :: ops[s.workers[w].pc.i] != op
  }

  /** Who still holds an operation that has succeeded does not know it, and is about to give up. */
  lemma HolderOfSuccess(plan: Plan, ops: seq<Op>, s: State, w: nat, op: Op)
    requires Inv(plan, ops, s) && Finished(s.table, op)
    requires w in s.workers && Holding(s.workers[w].pc) && s.workers[w].pc.i < |ops| && ops[s.workers[w].pc.i] == op
    ensures GivingUp(ops, s, w, op)
  {
    hide Tidy, Lists, Entries, Workers, AllSeen, EffectiveOk;
    assert HoldsLock(ops, s, s.workers[w].pc);
  }

  /** The only step that changes a recorded success is the failure put of a worker that gives the operation up. */
  lemma SuccessChangesIff(plan: Plan, ops: seq<Op>, s: State, step: Step, op: Op)
    requires Reachable(plan, ops, s) && Enabled(plan, ops, s, step) && Timely(s, step) && Finished(s.table, op)
    ensures SameRecord(s.table, After(plan, ops, s, step).table, op) <==>
      !(step.Aborts? && ops[s.workers[step.w].pc.i] == op)
  {
    hide Reachable, Inv;
    ReachableKeeps(plan, ops, s);
    StepSparesSuccess(plan, ops, s, step, op);
  }

  lemma StepSparesSuccess(plan: Plan, ops: seq<Op>, s: State, step: Step, op: Op)
    requires Inv(plan, ops, s) && Enabled(plan, ops, s, step) && Timely(s, step) && Finished(s.table, op)
    ensures SameRecord(s.table, After(plan, ops, s, step).table, op) <==>
      !(step.Aborts? && ops[s.workers[step.w].pc.i] == op)
  {
    hide Inv, Call, EffectiveFrom, Foreign, Sanitize;
    if (step.Commits? || step.CommitAnswerLost?) && ops[s.workers[step.w].pc.i] == op {
      HolderOfSuccess(plan, ops, s, step.w, op);
    }
  }

  /** A success that nobody holds stays, and nobody comes to hold it. */
  lemma StepKeepsUnheld(plan: Plan, ops: seq<Op>, s: State, step: Step, op: Op)
    requires Inv(plan, ops, s) && Enabled(plan, ops, s, step) && Timely(s, step)
    requires Finished(s.table, op) && Unheld(ops, s, op)
    ensures SameRecord(s.table, After(plan, ops, s, step).table, op) && Unheld(ops, After(plan, ops, s, step), op)
  {
    hide Inv, Call, EffectiveFrom, Foreign, Sanitize;
  }

  lemma {:induction false} RunKeepsUnheld(plan: Plan, ops: seq<Op>, s: State, steps: seq<Step>, op: Op)
    requires Inv(plan, ops, s) && IsTimelyRun(plan, ops, s, steps) && Finished(s.table, op) && Unheld(ops, s, op)
    ensures IsRun(plan, ops, s, steps) && SameRecord(s.table, EndOf(plan, ops, s, steps).table, op)
    decreases |steps|
  {
    hide Inv, After, Enabled, Timely, Unheld;
    TimelyRunIsRun(plan, ops, s, steps);
    if steps != [] {
      StepKeeps(plan, ops, s, steps[0]);
      StepKeepsUnheld(plan, ops, s, steps[0], op);
      RunKeepsUnheld(plan, ops, After(plan, ops, s, steps[0]), steps[1..], op);
    }
  }

  /** Whatever timely steps follow, the record of `op` stays exactly what it is. */
  ghost predicate Permanent(plan: Plan, ops: seq<Op>, s: State, op: Op)
    requires op in s.table
  {
    forall steps: seq<Step> | IsTimelyRun(plan, ops, s, steps) && IsRun(plan, ops, s, steps) ::
      SameRecord(s.table, EndOf(plan, ops, s, steps).table, op)
  }

  /**
   * In every state of every timely run a recorded success is permanent exactly when no worker is about to give
   * its operation up.
   */
  lemma SuccessIsPermanentIff(plan: Plan, ops: seq<Op>, s: State, op: Op)
    requires Reachable(plan, ops, s) && Finished(s.table, op)
    ensures Permanent(plan, ops, s, op) <==> forall w :: !GivingUp(ops, s, w, op)
  {
    hide Inv, Reachable, EndOf;
    ReachableKeeps(plan, ops, s);
    if w :| GivingUp(ops, s, w, op) {
      GivingUpLoses(plan, ops, s, w, op);
    } else {
      forall w | w in s.workers && Holding(s.workers[w].pc) && s.workers[w].pc.i < |ops|
        ensures ops[s.workers[w].pc.i] != op
      {
        if ops[s.workers[w].pc.i] == op { HolderOfSuccess(plan, ops, s, w, op); }
      }
      forall steps: seq<Step> | IsTimelyRun(plan, ops, s, steps) && IsRun(plan, ops, s, steps)
        ensures SameRecord(s.table, EndOf(plan, ops, s, steps).table, op)
      {
        RunKeepsUnheld(plan, ops, s, steps, op);
      }
    }
  }

  lemma GivingUpLoses(plan: Plan, ops: seq<Op>, s: State, w: nat, op: Op)
    requires Finished(s.table, op) && GivingUp(ops, s, w, op)
    ensures !Permanent(plan, ops, s, op)
  {
    var steps := [Aborts(w)];
    assert steps[1..] == [];
    assert Enabled(plan, ops, s, Aborts(w)) && IsTimelyRun(plan, ops, s, steps) && IsRun(plan, ops, s, steps);
    assert EndOf(plan, ops, s, steps) == After(plan, ops, s, Aborts(w));
  }

  /** With acknowledged final puts so far nobody ever is, so whatever timely steps follow, the success stays. */
  lemma SuccessIsPermanent(plan: Plan, ops: seq<Op>, s: State, op: Op)
    requires ReachableInOrder(plan, ops, s) && Finished(s.table, op)
    ensures Permanent(plan, ops, s, op)
  {
    hide Inv, Ordered, Reachable, ReachableInOrder, Permanent;
    ReachableInOrderKeeps(plan, ops, s);
    SuccessIsPermanentIff(plan, ops, s, op);
    forall w ensures !GivingUp(ops, s, w, op) {
      if GivingUp(ops, s, w, op) { OrderFacts(plan, ops, s, w); }
    }
  }

  /** Without gaps in the order, the succeeded operations of the list are its first `n`. */
  lemma {:induction false} PrefixFrom(ops: seq<Op>, t: Table, from: nat) returns (n: nat)
    requires from <= |ops| && InOrder(ops, t) && FinishedBelow(ops, t, from)
    ensures n <= |ops| && forall j | 0 <= j < |ops| :: Finished(t, ops[j]) <==> j < n
    decreases |ops| - from
  {
    n := from;
    if from < |ops| && Finished(t, ops[from]) { n := PrefixFrom(ops, t, from + 1); }
  }

  /** The succeeded operations are a prefix of the list. */
  lemma SucceededIsPrefix(plan: Plan, ops: seq<Op>, s: State) returns (n: nat)
    requires ReachableInOrder(plan, ops, s)
    ensures n <= |ops|
    ensures forall j | 0 <= j < |ops| :: Finished(s.table, ops[j]) <==> j < n
    ensures forall op | Finished(s.table, op) :: op in ops[..n]
  {
    ReachableInOrderKeeps(plan, ops, s);
    n := PrefixFrom(ops, s.table, 0);
    forall op | Finished(s.table, op) ensures op in ops[..n] {
      KnownOperation(plan, ops, s, op);
      var j :| 0 <= j < |ops| && ops[j] == op;
      assert ops[..n][j] == op;
    }
    hide Inv, Ordered, Reachable, ReachableInOrder;
  }

  lemma KnownOperation(plan: Plan, ops: seq<Op>, s: State, op: Op)
    requires Inv(plan, ops, s) && op in s.table
    ensures op in ops
  {
    hide Tidy, Lists, Workers, AllSeen, EffectiveOk, Exclusive, AllRight, Provides;
  }

  // ---------------------------------------------------- the effective record

  /** An effective record is that of the plan's own pool and client, which exist. */
  lemma EffectiveIsOurs(plan: Plan, ops: seq<Op>, s: State)
    requires Reachable(plan, ops, s) && s.effective.Set?
    ensures
      var auth := s.effective.auth;
      && OurPool(plan, s.directory, auth.userPoolId) && OurClient(plan, s.directory, auth.clientId)
      && s.directory.clients[auth.clientId].poolId == auth.userPoolId != auth.clientId
      && auth == Activated(plan, auth.userPoolId, auth.clientId)
  {
    ReachableKeeps(plan, ops, s);
    hide Lists, Entries, Workers, AllSeen, Exclusive, Present, PoolUrl, DomainUrl;
  }

  /** When everything is recorded, the effective record is the recorded one. */
  lemma EffectiveMatches(plan: Plan, ops: seq<Op>, s: State)
    requires Inv(plan, ops, s) && s.effective.Set? && forall op | op in ops :: Finished(s.table, op)
    ensures s.effective.auth == Activated(plan, PoolOf(s.table), ClientOf(s.table))
  {
    hide Lists, Tidy, OurPool, OurClient, PoolOf, ClientOf, Finished, Entries, Workers, AllSeen, Exclusive, PoolUrl,
      DomainUrl;
    InvRecords(plan, ops, s);
    FinalizeNeedsPoolAndClient(plan, ops);
    OnePool(plan, s.directory, s.effective.auth.userPoolId, PoolOf(s.table));
    OneClient(plan, s.directory, s.effective.auth.clientId, ClientOf(s.table));
  }

  lemma FinalizeNeedsPoolAndClient(plan: Plan, ops: seq<Op>)
    requires Lists(plan, ops) && Finalize in ops
    ensures UserPool in ops && PublicClient in ops && HostedUiDomain in ops
  {
    assert Wanted(plan, Finalize);
  }

  lemma AllBelow(ops: seq<Op>, t: Table, op: Op)
    requires FinishedBelow(ops, t, |ops|) && op in ops
    ensures Finished(t, op)
  {
    var j :| 0 <= j < |ops| && ops[j] == op;
  }

  /** With acknowledged final puts it is there only after every operation succeeded, for what the table records. */
  lemma EffectiveIsRecorded(plan: Plan, ops: seq<Op>, s: State)
    requires ReachableInOrder(plan, ops, s) && s.effective.Set?
    ensures Finalize in ops && forall op | op in ops :: Finished(s.table, op)
    ensures s.effective.auth == Activated(plan, PoolOf(s.table), ClientOf(s.table))
  {
    hide Inv, FinishedBelow, InOrder, PassedFinished, LeasesRecorded, PoolOf, ClientOf, Finished, Activated;
    hide Reachable, ReachableInOrder;
    ReachableInOrderKeeps(plan, ops, s);
    FinalizeActivated(plan, ops, s);
    forall op | op in ops ensures Finished(s.table, op) { AllBelow(ops, s.table, op); }
    EffectiveMatches(plan, ops, s);
  }

  lemma FinalizeActivated(plan: Plan, ops: seq<Op>, s: State)
    requires Inv(plan, ops, s) && s.effective.Set?
    ensures Finalize in ops
  {
    hide Lists, Entries, Workers, AllSeen, Exclusive, Tidy, OurPool, OurClient, Activated;
  }

  /** Any later activation by any worker writes the very same record again. */
  lemma EffectiveIsStable(plan: Plan, ops: seq<Op>, s: State, steps: seq<Step>)
    requires Reachable(plan, ops, s) && s.effective.Set? && IsTimelyRun(plan, ops, s, steps)
    ensures IsRun(plan, ops, s, steps) && EndOf(plan, ops, s, steps).effective == s.effective
  {
    hide Inv, EndOf, Reachable;
    ReachableKeeps(plan, ops, s);
    RunKeeps(plan, ops, s, steps);
    EffectiveStaysSet(plan, ops, s, steps);
    SameEffective(plan, ops, s, EndOf(plan, ops, s, steps));
  }

  lemma {:induction false} EffectiveStaysSet(plan: Plan, ops: seq<Op>, s: State, steps: seq<Step>)
    requires IsRun(plan, ops, s, steps) && s.effective.Set?
    ensures EndOf(plan, ops, s, steps).effective.Set?
    decreases |steps|
  {
    hide Call, EffectiveFrom, Foreign, Sanitize, InRange;
    if steps != [] { EffectiveStaysSet(plan, ops, After(plan, ops, s, steps[0]), steps[1..]); }
  }

  lemma SameEffective(plan: Plan, ops: seq<Op>, s: State, t: State)
    requires Inv(plan, ops, s) && Inv(plan, ops, t) && Keeps(plan, s.directory, t.directory)
    requires s.effective.Set? && t.effective.Set?
    ensures t.effective == s.effective
  {
    hide Lists, Entries, Workers, AllSeen, Exclusive, Present, PoolUrl, DomainUrl;
    OnePool(plan, t.directory, s.effective.auth.userPoolId, t.effective.auth.userPoolId);
  }
}
