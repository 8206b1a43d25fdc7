/** Each part of the assumptions on runs is needed: without it some run breaks the guarantee. */
module ExecutorAssumptions {
  import opened Provisioning
  import opened Cognito
  import opened Executor
  import opened ExecutorInvariant
  import opened ExecutorConvergence

  /** The step keeps both assumptions. */
  predicate Clean(s: State, step: Step) { Timely(s, step) && !step.CommitAnswerLost? }

  /** A run that keeps both assumptions leads from `s` to `t`. */
  ghost predicate Leads(plan: Plan, ops: seq<Op>, s: State, t: State) {
    exists steps: seq<Step> ::
      IsTimelyRun(plan, ops, s, steps) && Acknowledged(steps) && IsRun(plan, ops, s, steps)
      && EndOf(plan, ops, s, steps) == t
  }

  /** A run leads from `s` to `t` in which `lapse` is the one step that does not keep the assumptions. */
  ghost predicate LeadsWith(plan: Plan, ops: seq<Op>, s: State, lapse: Step, t: State) {
    exists before: State :: Lapses(plan, ops, s, before, lapse, t)
  }

  ghost predicate Lapses(plan: Plan, ops: seq<Op>, s: State, before: State, lapse: Step, t: State) {
    && Leads(plan, ops, s, before) && Enabled(plan, ops, before, lapse) && !Clean(before, lapse)
    && Leads(plan, ops, After(plan, ops, before, lapse), t)
  }

  lemma Leads0(plan: Plan, ops: seq<Op>, s: State)
    ensures Leads(plan, ops, s, s)
  {
    assert IsTimelyRun(plan, ops, s, []) && IsRun(plan, ops, s, []) && EndOf(plan, ops, s, []) == s;
  }

  lemma Then(plan: Plan, ops: seq<Op>, s: State, t: State, step: Step) returns (u: State)
    requires Leads(plan, ops, s, t) && Enabled(plan, ops, t, step) && Clean(t, step)
    ensures u == After(plan, ops, t, step) && Leads(plan, ops, s, u)
  {
    hide Enabled, After, Timely;
    u := After(plan, ops, t, step);
    var steps: seq<Step> :| IsTimelyRun(plan, ops, s, steps) && Acknowledged(steps) && IsRun(plan, ops, s, steps)
      && EndOf(plan, ops, s, steps) == t;
    RunExtends(plan, ops, s, steps, step);
  }

  /** The lapse itself, after which a clean run goes on. */
  lemma Lapse(plan: Plan, ops: seq<Op>, s: State, before: State, lapse: Step) returns (u: State)
    requires Leads(plan, ops, s, before) && Enabled(plan, ops, before, lapse) && !Clean(before, lapse)
    ensures u == After(plan, ops, before, lapse) && Leads(plan, ops, u, u)
    ensures forall t | Leads(plan, ops, u, t) :: LeadsWith(plan, ops, s, lapse, t)
  {
    hide Enabled, After, Clean, Leads;
    u := After(plan, ops, before, lapse);
    Leads0(plan, ops, u);
    forall t | Leads(plan, ops, u, t) ensures LeadsWith(plan, ops, s, lapse, t) {
      assert Lapses(plan, ops, s, before, lapse, t);
    }
  }

  /** A new worker gets through its preload without having read anything. */
  lemma {:induction false} Arrives(plan: Plan, ops: seq<Op>, s: State, t: State, w: nat, i: nat) returns (u: State)
    requires Leads(plan, ops, s, t) && (forall op :: !Finished(t.table, op)) && i <= |ops|
    requires w in t.workers && t.workers[w] == Worker(Preload(i), map[])
    ensures Leads(plan, ops, s, u) && u == t.(workers := t.workers[w := Worker(Load(0), map[])])
    decreases |ops| - i
  {
    u := Then(plan, ops, s, t, Preloads(w));
    if i < |ops| {
      assert !Finished(t.table, ops[i]);
      var next := t.workers[w := Worker(Preload(i + 1), map[])];
      assert u == t.(workers := next);
      u := Arrives(plan, ops, s, u, w, i + 1);
      assert next[w := Worker(Load(0), map[])] == t.workers[w := Worker(Load(0), map[])];
    }
  }

  lemma Joins(plan: Plan, ops: seq<Op>, s: State, t: State, w: nat) returns (u: State)
    requires Leads(plan, ops, s, t) && (forall op :: !Finished(t.table, op)) && w !in t.workers && ops != []
    ensures Leads(plan, ops, s, u) && u == t.(workers := t.workers[w := Worker(Lock(0, t.clock), map[])])
  {
    u := Then(plan, ops, s, t, Begins(w));
    u := Arrives(plan, ops, s, u, w, 0);
    assert !Finished(u.table, ops[0]);
    u := Then(plan, ops, s, u, Loads(w));
    assert u.workers == t.workers[w := Worker(Lock(0, t.clock), map[])];
  }

  lemma Takes(plan: Plan, ops: seq<Op>, s: State, t: State, w: nat) returns (u: State)
    requires Leads(plan, ops, s, t) && At(ops, t, w) && t.workers[w].pc == Lock(0, t.clock)
      && LockFree(t, ops[0], t.clock)
    ensures Leads(plan, ops, s, u) && u == t.(
      table := t.table[ops[0] := InProgress(t.clock + LEASE)],
      workers := t.workers[w := t.workers[w].(pc := Run(0, t.clock + LEASE, Begin))])
  {
    u := Then(plan, ops, s, t, Locks(w, t.clock, t.clock));
  }

  /** The name search of a worker that knows no pool finds none. */
  lemma Searches(plan: Plan, ops: seq<Op>, s: State, t: State, w: nat, lease: int) returns (u: State)
    requires Leads(plan, ops, s, t) && At(ops, t, w) && t.workers[w] == Worker(Run(0, lease, Begin), map[])
    requires ops[0] == UserPool && plan.expectedPoolId == "" && PoolsNamed(t.directory, plan.poolName) == {}
    ensures Leads(plan, ops, s, u)
    ensures u == t.(workers := t.workers[w := Worker(Run(0, lease, Create), map[])])
  {
    var id := FreshIdExists(t.directory);
    u := Then(plan, ops, s, t, Calls(w, id));
  }

  lemma Creates(plan: Plan, ops: seq<Op>, s: State, t: State, w: nat, lease: int) returns (id: string, u: State)
    requires Leads(plan, ops, s, t) && At(ops, t, w) && t.workers[w] == Worker(Run(0, lease, Create), map[])
    requires ops[0] == UserPool
    ensures Leads(plan, ops, s, u) && Fresh(t.directory, id)
    ensures u == t.(
      directory := t.directory.(pools := t.directory.pools[id := NewPool(plan)]),
      workers := t.workers[w := Worker(Commit(0, lease, PoolOutputs(plan, id)), map[])])
  {
    id := FreshIdExists(t.directory);
    u := Then(plan, ops, s, t, Calls(w, id));
  }

  lemma FirstIsUserPool(plan: Plan, ops: seq<Op>)
    requires Lists(plan, ops) && ops != []
    ensures ops[0] == UserPool
  {
    assert Wanted(plan, ops[0]) && UserPool in ops;
    var i :| 0 <= i < |ops| && ops[i] == UserPool;
  }

  /** Worker 0 finds no pool. */
  lemma FindsNoPool(plan: Plan, ops: seq<Op>, s: State) returns (t: State)
    requires Initial(plan, ops, s) && ops != [] && ops[0] == UserPool && plan.expectedPoolId == ""
    ensures Leads(plan, ops, s, t) && t.table == map[UserPool := InProgress(s.clock + LEASE)]
    ensures t.directory == s.directory && t.clock == s.clock
    ensures t.workers == map[0 := Worker(Run(0, s.clock + LEASE, Create), map[])]
  {
    hide Leads;
    assert PoolsNamed(s.directory, plan.poolName) == {};
    Leads0(plan, ops, s);
    t := Joins(plan, ops, s, s, 0);
    t := Takes(plan, ops, s, t, 0);
    t := Searches(plan, ops, s, t, 0, s.clock + LEASE);
  }

  /** Worker 1 takes the expired lock over and also finds no pool. */
  lemma TakesOver(plan: Plan, ops: seq<Op>, s: State, t: State) returns (u: State)
    requires Leads(plan, ops, s, t) && ops != [] && ops[0] == UserPool && plan.expectedPoolId == ""
    requires t.workers.Keys == {0} && PoolsNamed(t.directory, plan.poolName) == {}
    requires UserPool in t.table && t.table[UserPool].InProgress? && t.table[UserPool].lockExpiresAt < t.clock
    requires forall op :: !Finished(t.table, op)
    ensures Leads(plan, ops, s, u) && u.directory == t.directory
    ensures u.workers == t.workers[1 := Worker(Run(0, t.clock + LEASE, Create), map[])]
  {
    u := Joins(plan, ops, s, t, 1);
    u := Takes(plan, ops, s, u, 1);
    u := Searches(plan, ops, s, u, 1, t.clock + LEASE);
    assert u.workers == t.workers[1 := Worker(Run(0, t.clock + LEASE, Create), map[])];
  }

  /** Two workers execute the same operation. */
  predicate TwoExecute(s: State, v: nat, w: nat) {
    && v != w && v in s.workers && w in s.workers && s.workers[v].pc.Run? && s.workers[w].pc.Run?
    && s.workers[v].pc.i == s.workers[w].pc.i
  }

  /**
   * Time that passes a holder's lease, as the only lapse: every plan with an operation has a run in which two
   * workers execute it.
   */
  lemma OutlivingALeaseAdmitsASecondHolder(plan: Plan, ops: seq<Op>, s: State) returns (lapse: Step, t: State)
    requires Initial(plan, ops, s) && ops != []
    ensures lapse.Tick? && LeadsWith(plan, ops, s, lapse, t) && TwoExecute(t, 0, 1)
  {
    hide Leads, LeadsWith;
    Leads0(plan, ops, s);
    t := Joins(plan, ops, s, s, 0);
    t := Takes(plan, ops, s, t, 0);
    lapse := Tick(s.clock + LEASE + 1);
    var late := Lapse(plan, ops, s, t, lapse);
    t := Joins(plan, ops, late, late, 1);
    t := Takes(plan, ops, late, t, 1);
  }

  /**
   * A lock put that lands after the lease it was computed for, as the only lapse: it is granted, and so is the
   * next one.
   */
  lemma LateLockAdmitsASecondHolder(plan: Plan, ops: seq<Op>, s: State) returns (lapse: Step, t: State)
    requires Initial(plan, ops, s) && ops != []
    ensures lapse.Locks? && LeadsWith(plan, ops, s, lapse, t) && TwoExecute(t, 0, 1)
  {
    hide Leads, LeadsWith;
    Leads0(plan, ops, s);
    t := Joins(plan, ops, s, s, 0);
    t := Then(plan, ops, s, t, Tick(s.clock + LEASE + 1));
    lapse := Locks(0, s.clock, s.clock);
    var late := Lapse(plan, ops, s, t, lapse);
    t := Joins(plan, ops, late, late, 1);
    t := Takes(plan, ops, late, t, 1);
  }

  /** Time that passes a holder's lease, as the only lapse: every plan that makes a pool has a run that makes two. */
  lemma OutlivingALeaseMakesTwoPools(plan: Plan, ops: seq<Op>, s: State) returns (lapse: Step, t: State)
    requires Initial(plan, ops, s) && ops != [] && plan.expectedPoolId == ""
    ensures lapse.Tick? && LeadsWith(plan, ops, s, lapse, t) && |PoolsNamed(t.directory, plan.poolName)| > 1
  {
    hide Leads, LeadsWith;
    FirstIsUserPool(plan, ops);
    assert PoolsNamed(s.directory, plan.poolName) == {};
    t := FindsNoPool(plan, ops, s);
    assert 0 in t.workers && Holding(t.workers[0].pc) && t.workers[0].pc.lease == s.clock + LEASE;
    lapse := Tick(s.clock + LEASE + 1);
    var late := Lapse(plan, ops, s, t, lapse);
    var u := TakesOver(plan, ops, late, late);
    var b, v := Creates(plan, ops, late, u, 1, late.clock + LEASE);
    var a;
    a, t := Creates(plan, ops, late, v, 0, s.clock + LEASE);
    CardinalityOfPair(a, b, PoolsNamed(t.directory, plan.poolName));
  }

  lemma CardinalityOfPair<T>(a: T, b: T, s: set<T>)
    requires a != b && {a, b} <= s
    ensures |s| > 1
  {
    assert s == {a, b} + (s - {a, b});
  }

  /** The first operation, in a plan whose pool exists or is to be made, gets as far as its final write. */
  lemma Produces(plan: Plan, ops: seq<Op>, s: State, t: State, w: nat, lease: int) returns (u: State)
    requires Leads(plan, ops, s, t) && At(ops, t, w) && t.workers[w] == Worker(Run(0, lease, Begin), map[])
    requires ops[0] == UserPool
    requires if plan.expectedPoolId == "" then PoolsNamed(t.directory, plan.poolName) == {}
      else plan.expectedPoolId in t.directory.pools
    ensures Leads(plan, ops, s, u) && At(ops, u, w) && u.table == t.table && u.workers.Keys == t.workers.Keys
    ensures u.workers[w].pc.Commit? && u.workers[w].pc.i == 0 && u.workers[w].pc.lease == lease
  {
    if plan.expectedPoolId == "" {
      u := Searches(plan, ops, s, t, w, lease);
      var id;
      id, u := Creates(plan, ops, s, u, w, lease);
    } else {
      var id := FreshIdExists(t.directory);
      u := Then(plan, ops, s, t, Calls(w, id));
    }
  }

  /**
   * A half-acknowledged final put, as the only lapse: the success that it recorded is overwritten by a failure.
   * Every plan with an operation has such a run, unless the pool it names is missing and nothing can succeed.
   */
  lemma AmbiguousCommitUndoesSuccess(plan: Plan, ops: seq<Op>, s: State) returns (lapse: Step, t: State, u: State)
    requires Initial(plan, ops, s) && ops != []
    requires plan.expectedPoolId == "" || plan.expectedPoolId in s.directory.pools
    ensures lapse.CommitAnswerLost? && LeadsWith(plan, ops, s, lapse, t) && Finished(t.table, ops[0])
    ensures Leads(plan, ops, t, u) && !Finished(u.table, ops[0])
  {
    hide Leads, LeadsWith;
    lapse, t := Ambiguous(plan, ops, s);
    u := GivesUp(plan, ops, t, 0, t.workers[0].pc.lease);
  }

  /** A new worker gets through its preload, whatever it reads. */
  lemma {:induction false} Preloaded(plan: Plan, ops: seq<Op>, s: State, t: State, w: nat, i: nat, outputs: Outputs)
      returns (u: State, o: Outputs)
    requires Leads(plan, ops, s, t) && i <= |ops| && w in t.workers && t.workers[w] == Worker(Preload(i), outputs)
    ensures Leads(plan, ops, s, u) && u == t.(workers := t.workers[w := Worker(Load(0), o)])
    decreases |ops| - i
  {
    hide Leads;
    u := Then(plan, ops, s, t, Preloads(w));
    o := outputs;
    if i < |ops| {
      var next := u.workers[w];
      u, o := Preloaded(plan, ops, s, u, w, i + 1, next.outputs);
      assert t.workers[w := next][w := Worker(Load(0), o)] == t.workers[w := Worker(Load(0), o)];
    }
  }

  /** A new worker skips the first operation, which has succeeded, and takes the second. */
  lemma TakesSecond(plan: Plan, ops: seq<Op>, s: State, t: State, w: nat) returns (u: State)
    requires Leads(plan, ops, s, t) && w !in t.workers && |ops| > 1 && Finished(t.table, ops[0]) && ops[1] !in t.table
    ensures Leads(plan, ops, s, u) && w in u.workers && u.workers[w].pc == Run(1, t.clock + LEASE, Begin)
    ensures u.table == t.table[ops[1] := InProgress(t.clock + LEASE)]
    ensures forall v | v in t.workers :: v in u.workers && u.workers[v] == t.workers[v]
  {
    hide Leads;
    u := Then(plan, ops, s, t, Begins(w));
    var o;
    u, o := Preloaded(plan, ops, s, u, w, 0, map[]);
    u := Then(plan, ops, s, u, Loads(w));
    u := Then(plan, ops, s, u, Loads(w));
    u := Then(plan, ops, s, u, Locks(w, u.clock, u.clock));
  }

  /**
   * The same lapse lets two workers hold operations at once, and leaves a record behind an operation that has
   * not succeeded.
   */
  lemma AmbiguousCommitBreaksTheOrder(plan: Plan, ops: seq<Op>, s: State) returns (lapse: Step, t: State, u: State)
    requires Initial(plan, ops, s) && |ops| > 1
    requires plan.expectedPoolId == "" || plan.expectedPoolId in s.directory.pools
    ensures lapse.CommitAnswerLost? && LeadsWith(plan, ops, s, lapse, t) && 0 in t.workers && 1 in t.workers
    ensures Holding(t.workers[0].pc) && Holding(t.workers[1].pc)
    ensures Leads(plan, ops, t, u) && !Finished(u.table, ops[0]) && ops[1] in u.table
  {
    hide Leads, LeadsWith;
    assert ops[0] != ops[1] by { assert Rank(ops[0]) < Rank(ops[1]); }
    var late;
    lapse, late := Ambiguous(plan, ops, s);
    t := TakesSecond(plan, ops, late, late, 1);
    u := GivesUp(plan, ops, t, 0, t.workers[0].pc.lease);
  }

  /** Worker 0 holds the first operation, which has succeeded without its knowing. */
  lemma Ambiguous(plan: Plan, ops: seq<Op>, s: State) returns (lapse: Step, u: State)
    requires Initial(plan, ops, s) && ops != []
    requires plan.expectedPoolId == "" || plan.expectedPoolId in s.directory.pools
    ensures lapse.CommitAnswerLost? && Leads(plan, ops, u, u)
    ensures forall t | Leads(plan, ops, u, t) :: LeadsWith(plan, ops, s, lapse, t)
    ensures u.table.Keys == {ops[0]} && Finished(u.table, ops[0])
    ensures u.workers.Keys == {0} && u.workers[0].pc.Abort? && u.workers[0].pc.i == 0
  {
    hide Leads, LeadsWith, Sanitize;
    FirstIsUserPool(plan, ops);
    assert plan.expectedPoolId == "" ==> PoolsNamed(s.directory, plan.poolName) == {};
    Leads0(plan, ops, s);
    var t := Joins(plan, ops, s, s, 0);
    t := Takes(plan, ops, s, t, 0);
    t := Produces(plan, ops, s, t, 0, t.clock + LEASE);
    lapse := CommitAnswerLost(0);
    u := Lapse(plan, ops, s, t, lapse);
  }

  /** The failure put of a worker that gives up. */
  lemma GivesUp(plan: Plan, ops: seq<Op>, t: State, w: nat, lease: int) returns (u: State)
    requires At(ops, t, w) && t.workers[w].pc == Abort(0, lease)
    ensures Leads(plan, ops, t, u) && u.table == t.table[ops[0] := FailedEntry]
  {
    hide Leads;
    Leads0(plan, ops, t);
    u := Then(plan, ops, t, t, Aborts(w));
  }

  /**
   * A lock put that fails in an unexpected way, as the only lapse: its failure record opens the operation to a
   * second holder.
   */
  lemma UnexpectedLockFailureAdmitsASecondHolder(plan: Plan, ops: seq<Op>, s: State) returns (lapse: Step, t: State)
    requires Initial(plan, ops, s) && ops != []
    ensures lapse.LockFails? && LeadsWith(plan, ops, s, lapse, t) && TwoExecute(t, 0, 2)
  {
    hide Leads, LeadsWith;
    Leads0(plan, ops, s);
    t := Joins(plan, ops, s, s, 0);
    t := Takes(plan, ops, s, t, 0);
    t := Joins(plan, ops, s, t, 1);
    lapse := LockFails(1, t.clock, false);
    var late := Lapse(plan, ops, s, t, lapse);
    t := Fails(plan, ops, late, late, 1);
    t := Joins(plan, ops, late, t, 2);
    t := Takes(plan, ops, late, t, 2);
  }

  /** A worker whose lock put failed unexpectedly records a failure over whatever is there. */
  lemma Fails(plan: Plan, ops: seq<Op>, s: State, t: State, w: nat) returns (u: State)
    requires Leads(plan, ops, s, t) && At(ops, t, w) && t.workers[w].pc.Abort? && t.workers[w].pc.i == 0
    ensures Leads(plan, ops, s, u)
    ensures u == t.(
      table := t.table[ops[0] := FailedEntry],
      workers := t.workers[w := t.workers[w].(pc := Done(false))])
  {
    u := Then(plan, ops, s, t, Aborts(w));
  }
}
