/**
 * `_cognito_executor_apply` as the loop it is, over a state table and a directory it updates in place.
 * Every invocation is proved to be a run of the step system, so the theorems about runs are about this loop.
 */
module ApplyLoop {
  import opened Provisioning
  import opened Cognito
  import opened Executor
  import opened ExecutorInvariant
  import opened ExecutorConvergence
  import opened ExecutorNecessity
  import opened ExecutorTheorems

  /** Some id that is fresh in the directory. */
  ghost function NewId(c: Directory): (id: string)
    ensures Fresh(c, id)
  {
    assert exists id: string :: Fresh(c, id) by { var id := FreshIdExists(c); }
    var id: string :| Fresh(c, id);
    id
  }

  /** Ids for new resources can always be given: what the loop's results ask of `newId` can be met. */
  lemma FreshIdsCanBeGiven() returns (newId: Directory -> string)
    ensures forall c :: Fresh(c, newId(c))
  {
    newId := (c: Directory) => NewId(c);
  }

  /** The remote state one invocation works on. */
  class Deployment {
    const plan: Plan
    const ops: seq<Op>
    /** The ids Cognito gives to new resources. */
    const newId: Directory -> string
    var table: map<Op, Entry>
    var directory: Directory
    var effective: Effective
    var clock: int

    constructor (plan: Plan, ops: seq<Op>, newId: Directory -> string, s: State)
      ensures this.plan == plan && this.ops == ops && this.newId == newId
      ensures Shows(s)
    {
      this.plan, this.ops, this.newId := plan, ops, newId;
      table, directory, effective, clock := s.table, s.directory, s.effective, s.clock;
    }

    /** The remote part of step-system state `s`. */
    predicate Shows(s: State)
      reads this
    {
      s.table == table && s.directory == directory && s.effective == effective && s.clock == clock
    }

    ghost predicate IdsAreFresh() {
      forall c :: Fresh(c, newId(c))
    }

    /** The invocation so far, as a run from `s` in which only `w` moves; `cur` is where it stands. */
    ghost predicate Tracks(s: State, w: nat, cur: State, worker: Worker)
      reads this
    {
      OwnRun(plan, ops, s, w, cur) && Shows(cur) && w in cur.workers && cur.workers[w] == worker
      && InRange(ops, worker.pc)
    }

    /** `_write_operation_state` with status `in-progress`: the put is conditional. */
    method PutInProgress(op: Op) returns (granted: bool)
      modifies this`table
      ensures granted == (op !in old(table) || old(table)[op].FailedEntry?
        || (old(table)[op].InProgress? && old(table)[op].lockExpiresAt < clock))
      ensures table == if granted then old(table)[op := InProgress(clock + LEASE)] else old(table)
    {
      granted := true;
      if op in table {
        match table[op]
        case FailedEntry =>
        case InProgress(lockExpiresAt) => granted := lockExpiresAt < clock;
        case Succeeded(_) => granted := false;
      }
      if granted {
        table := table[op := InProgress(clock + LEASE)];
      }
    }

    /** `_load_existing_operation_outputs`. */
    method LoadExistingOperationOutputs(ghost s: State, w: nat, ghost begun: State)
        returns (outputs: Outputs, ghost cur: State)
      requires Tracks(s, w, begun, Worker(Preload(0), map[]))
      ensures Tracks(s, w, cur, Worker(Load(0), outputs))
    {
      outputs := map[];
      cur := begun;
      for i := 0 to |ops|
        invariant Tracks(s, w, cur, Worker(Preload(i), outputs))
      {
        cur := Advance(plan, ops, s, w, cur, Preloads(w));
        if ops[i] in table && table[ops[i]].Succeeded? {
          outputs := outputs + table[ops[i]].outputs;
        }
      }
      cur := Advance(plan, ops, s, w, cur, Preloads(w));
    }

    /** The lock, the operation's calls and its final write. */
    method ApplyOperation(ghost s: State, w: nat, ghost before: State, i: nat, outputs: Outputs)
        returns (succeeded: bool, produced: Outputs, ghost cur: State)
      requires IdsAreFresh() && i < |ops|
      requires Tracks(s, w, before, Worker(Lock(i, clock), outputs))
      modifies this`table, this`directory
      ensures succeeded ==> Tracks(s, w, cur, Worker(Load(i + 1), outputs + produced))
      ensures !succeeded ==> Tracks(s, w, cur, Worker(Done(false), outputs))
    {
      hide OwnRun, Call, Sanitize, PhaseCost, Fits;
      produced := map[];
      cur := LockStep(plan, ops, s, w, before, i, outputs);
      succeeded := PutInProgress(ops[i]);
      if !succeeded {
        return;
      }
      var outcome: Outcome;
      outcome, cur := RunOperation(s, w, cur, i, outputs);
      cur := FinalWriteStep(plan, ops, s, w, cur, i, clock + LEASE, outcome, outputs);
      if outcome.Raise? {
        table := table[ops[i] := FailedEntry];
        succeeded := false;
      } else {
        produced := outcome.outputs;
        table := table[ops[i] := Succeeded(Sanitize(produced))];
      }
    }

    /** `_execute_cognito_operation`: calls until the operation returns or raises. */
    method RunOperation(ghost s: State, w: nat, ghost before: State, i: nat, outputs: Outputs)
        returns (outcome: Outcome, ghost cur: State)
      requires IdsAreFresh() && i < |ops|
      requires Tracks(s, w, before, Worker(Run(i, clock + LEASE, Begin), outputs))
      modifies this`directory
      ensures !outcome.Continue? && Tracks(s, w, cur, Worker(AfterReply(i, clock + LEASE, outcome), outputs))
    {
      hide OwnRun, Call, PhaseCost, Fresh;
      outcome, cur := Continue(Begin), before;
      while outcome.Continue?
        invariant outcome.Continue? ==> Fits(ops[i], outcome.phase)
        invariant Tracks(s, w, cur, Worker(AfterReply(i, clock + LEASE, outcome), outputs))
        decreases if outcome.Continue? then 1 + PhaseCost(plan, outcome.phase) else 0
      {
        var id := newId(directory);
        assert Fresh(directory, id);
        cur := CallStep(plan, ops, s, w, cur, i, clock + LEASE, outcome.phase, outputs, id);
        hide Fits;
        var reply := Call(plan, ops[i], outputs, outcome.phase, directory, id);
        outcome, directory := reply.outcome, reply.directory;
      }
    }

    /** After the last operation: the effective record, when the plan ends with activation. */
    method WriteEffectiveState(ghost s: State, w: nat, ghost before: State, outputs: Outputs) returns (ghost end: State)
      requires Tracks(s, w, before, Worker(Load(|ops|), outputs))
      modifies this`effective
      ensures Tracks(s, w, end, Worker(Done(true), outputs))
    {
      hide OwnRun, EffectiveFrom;
      end := LoadStep(plan, ops, s, w, before, |ops|, outputs);
      if Finalize in ops {
        end := ActivateStep(plan, ops, s, w, end, outputs);
        effective := Set(EffectiveFrom(plan, outputs));
      }
    }

    /** One whole invocation. */
    method Apply(ghost s: State, w: nat) returns (applied: bool, ghost end: State)
      requires IdsAreFresh() && Shows(s) && w !in s.workers
      modifies this`table, this`directory, this`effective
      ensures OwnRun(plan, ops, s, w, end) && Shows(end)
      ensures w in end.workers && end.workers[w].pc == Done(applied)
    {
      end := Starts(plan, ops, s, w);
      hide OwnRun, EffectiveFrom, IdsAreFresh;
      var outputs;
      outputs, end := LoadExistingOperationOutputs(s, w, end);
      var i := 0;
      while i < |ops|
        invariant i <= |ops| && Tracks(s, w, end, Worker(Load(i), outputs))
      {
        end := LoadStep(plan, ops, s, w, end, i, outputs);
        if ops[i] in table && table[ops[i]].Succeeded? {
          outputs := outputs + table[ops[i]].outputs;
        } else {
          var produced;
          applied, produced, end := ApplyOperation(s, w, end, i, outputs);
          if !applied {
            return;
          }
          outputs := outputs + produced;
        }
        i := i + 1;
      }
      end := WriteEffectiveState(s, w, end, outputs);
      applied := true;
    }

    /**
     * Convergence of the loop itself: whatever history of crashes and failures left the remote state behind, one
     * undisturbed invocation after the leases ran out ends `applied` exactly when every unfinished operation has
     * what it needs, and then with every operation recorded as succeeded and the effective record of the
     * recorded pool and client.
     */
    method ApplyUndisturbed(ghost s: State, w: nat) returns (applied: bool)
      requires IdsAreFresh() && Shows(s) && w !in s.workers
      requires Reachable(plan, ops, s) && Expired(s.table, s.clock)
      modifies this`table, this`directory, this`effective
      ensures applied <==> Provided(plan, ops, s.table, s.directory)
      ensures applied ==> forall op | op in ops :: Finished(table, op)
      ensures applied && Finalize in ops ==> effective == Set(Activated(plan, PoolOf(table), ClientOf(table)))
    {
      ghost var end;
      applied, end := Apply(s, w);
      if Provided(plan, ops, s.table, s.directory) { OwnRunApplies(plan, ops, s, w, end); }
      if applied { OwnRunWasProvided(plan, ops, s, w, end); }
      hide OwnRun, Inv, Provided, OnTrack, Activated, PoolOf, ClientOf, IdsAreFresh;
      if applied {
        forall op | op in ops ensures Finished(table, op) { AllBelow(ops, table, op); }
        if Finalize in ops { EffectiveMatches(plan, ops, end); }
      }
    }
  }

  function AfterReply(i: nat, lease: int, outcome: Outcome): Pc {
    match outcome
    case Continue(phase) => Run(i, lease, phase)
    case Return(outputs) => Commit(i, lease, outputs)
    case Raise => Abort(i, lease)
  }

  /** A step of worker `w`'s own program, with nothing lost or delayed. */
  predicate Own(w: nat, step: Step) {
    (Undisturbed(w, step) && !step.Tick?) || step == Aborts(w)
  }

  /** `t` is reached from `s` by worker `w` beginning and then taking its own steps only. */
  ghost predicate OwnRun(plan: Plan, ops: seq<Op>, s: State, w: nat, t: State) {
    && Enabled(plan, ops, s, Begins(w))
    && exists steps: seq<Step> :: OwnSteps(plan, ops, After(plan, ops, s, Begins(w)), w, steps, t)
  }

  ghost predicate OwnSteps(plan: Plan, ops: seq<Op>, s: State, w: nat, steps: seq<Step>, t: State) {
    && IsTimelyRun(plan, ops, s, steps) && IsRun(plan, ops, s, steps) && EndOf(plan, ops, s, steps) == t
    && forall k | 0 <= k < |steps| :: Own(w, steps[k])
  }

  lemma Starts(plan: Plan, ops: seq<Op>, s: State, w: nat) returns (t: State)
    requires w !in s.workers
    ensures OwnRun(plan, ops, s, w, t)
    ensures t == s.(workers := s.workers[w := Worker(Preload(0), map[])])
  {
    t := After(plan, ops, s, Begins(w));
    assert OwnSteps(plan, ops, t, w, [], t);
  }

  lemma Advance(plan: Plan, ops: seq<Op>, s: State, w: nat, t: State, step: Step) returns (u: State)
    requires OwnRun(plan, ops, s, w, t) && Enabled(plan, ops, t, step) && Own(w, step) && Timely(t, step)
    ensures u == After(plan, ops, t, step) && OwnRun(plan, ops, s, w, u)
  {
    u := After(plan, ops, t, step);
    var s1 := After(plan, ops, s, Begins(w));
    var steps: seq<Step> :| OwnSteps(plan, ops, s1, w, steps, t);
    hide Enabled, After, Own, Timely;
    RunExtends(plan, ops, s1, steps, step);
    assert OwnSteps(plan, ops, s1, w, steps + [step], u);
  }

  /** From a state in which nothing blocks it, a worker never needs its failure branch. */
  lemma {:induction false} OwnStepsKeepSolo(plan: Plan, ops: seq<Op>, s: State, w: nat, since: int, steps: seq<Step>,
      t: State)
    requires Solo(plan, ops, s, w, since) && since <= s.clock && OwnSteps(plan, ops, s, w, steps, t)
    ensures Solo(plan, ops, t, w, since)
    decreases |steps|
  {
    if steps != [] {
      assert Undisturbed(w, steps[0]);
      SoloKeeps(plan, ops, s, w, since, steps[0]);
      hide Solo, Undisturbed, After, Enabled, Timely;
      OwnStepsKeepSolo(plan, ops, After(plan, ops, s, steps[0]), w, since, steps[1..], t);
    }
  }

  /** An undisturbed invocation after every recorded lease ran out. */
  lemma OwnRunApplies(plan: Plan, ops: seq<Op>, s: State, w: nat, t: State)
    requires Reachable(plan, ops, s) && Provided(plan, ops, s.table, s.directory) && Expired(s.table, s.clock)
    requires OwnRun(plan, ops, s, w, t)
    ensures Solo(plan, ops, t, w, s.clock)
  {
    ReachableKeeps(plan, ops, s);
    SoloStarts(plan, ops, s, w);
    hide Solo, Enabled, Inv;
    var steps: seq<Step> :| OwnSteps(plan, ops, After(plan, ops, s, Begins(w)), w, steps, t);
    OwnStepsKeepSolo(plan, ops, After(plan, ops, s, Begins(w)), w, s.clock, steps, t);
  }

  /** An undisturbed invocation that ends applied had all it needed. */
  lemma OwnRunWasProvided(plan: Plan, ops: seq<Op>, s: State, w: nat, t: State)
    requires Reachable(plan, ops, s) && OwnRun(plan, ops, s, w, t)
    requires w !in s.workers && w in t.workers && t.workers[w].pc == Done(true)
    ensures Provided(plan, ops, s.table, s.directory)
  {
    hide Reachable, Enabled, Provided, EndOf, Undisturbed;
    var begun := After(plan, ops, s, Begins(w));
    var steps: seq<Step> :| OwnSteps(plan, ops, begun, w, steps, t);
    assert IsAloneRun(plan, ops, begun, w, steps) by {
      forall k | 0 <= k < |steps| ensures Alone(w, steps[k]) { assert Own(w, steps[k]); }
    }
    AppliesOnlyIfProvided(plan, ops, s, w, steps);
  }

  /** `u` is `t` with the given remote parts and worker `w` at `worker`. */
  predicate Became(t: State, w: nat, u: State, table: map<Op, Entry>, directory: Directory, effective: Effective,
      worker: Worker) {
    && u.table == table && u.directory == directory && u.effective == effective && u.clock == t.clock
    && w in u.workers && u.workers[w] == worker
  }

  lemma LoadStep(plan: Plan, ops: seq<Op>, s: State, w: nat, t: State, i: nat, outputs: Outputs) returns (u: State)
    requires OwnRun(plan, ops, s, w, t) && w in t.workers && t.workers[w] == Worker(Load(i), outputs) && i <= |ops|
    ensures OwnRun(plan, ops, s, w, u)
    ensures Became(t, w, u, t.table, t.directory, t.effective,
      if i == |ops| then Worker(if Finalize in ops then Activate else Done(true), outputs)
      else if Finished(t.table, ops[i]) then Worker(Load(i + 1), outputs + t.table[ops[i]].outputs)
      else Worker(Lock(i, t.clock), outputs))
  {
    hide OwnRun;
    u := Advance(plan, ops, s, w, t, Loads(w));
  }

  lemma LockStep(plan: Plan, ops: seq<Op>, s: State, w: nat, t: State, i: nat, outputs: Outputs) returns (u: State)
    requires OwnRun(plan, ops, s, w, t) && w in t.workers && t.workers[w] == Worker(Lock(i, t.clock), outputs)
      && i < |ops|
    ensures OwnRun(plan, ops, s, w, u)
    ensures
      if LockFree(t, ops[i], t.clock) then
        Became(t, w, u, t.table[ops[i] := InProgress(t.clock + LEASE)], t.directory, t.effective,
          Worker(Run(i, t.clock + LEASE, Begin), outputs))
      else Became(t, w, u, t.table, t.directory, t.effective, Worker(Done(false), outputs))
  {
    hide OwnRun;
    u := Advance(plan, ops, s, w, t, Locks(w, t.clock, t.clock));
  }

  lemma CallStep(plan: Plan, ops: seq<Op>, s: State, w: nat, t: State, i: nat, lease: int, phase: Phase,
      outputs: Outputs, id: string)
      returns (u: State)
    requires OwnRun(plan, ops, s, w, t) && w in t.workers && t.workers[w] == Worker(Run(i, lease, phase), outputs)
    requires i < |ops| && Fresh(t.directory, id) && Fits(ops[i], phase)
    ensures OwnRun(plan, ops, s, w, u)
    ensures
      var reply := Call(plan, ops[i], outputs, phase, t.directory, id);
      && Became(t, w, u, t.table, reply.directory, t.effective, Worker(AfterReply(i, lease, reply.outcome), outputs))
      && Advances(plan, ops[i], phase, reply)
  {
    hide OwnRun;
    CallAdvances(plan, ops[i], outputs, phase, t.directory, id);
    hide Call, Advances;
    u := Advance(plan, ops, s, w, t, Calls(w, id));
  }

  lemma FinalWriteStep(plan: Plan, ops: seq<Op>, s: State, w: nat, t: State, i: nat, lease: int, outcome: Outcome,
      outputs: Outputs)
      returns (u: State)
    requires OwnRun(plan, ops, s, w, t) && w in t.workers && !outcome.Continue? && i < |ops|
    requires t.workers[w] == Worker(AfterReply(i, lease, outcome), outputs)
    ensures OwnRun(plan, ops, s, w, u)
    ensures
      if outcome.Raise? then
        Became(t, w, u, t.table[ops[i] := FailedEntry], t.directory, t.effective, Worker(Done(false), outputs))
      else
        Became(t, w, u, t.table[ops[i] := Succeeded(Sanitize(outcome.outputs))], t.directory, t.effective,
          Worker(Load(i + 1), outputs + outcome.outputs))
  {
    hide OwnRun;
    u := Advance(plan, ops, s, w, t, if outcome.Raise? then Aborts(w) else Commits(w));
  }

  lemma ActivateStep(plan: Plan, ops: seq<Op>, s: State, w: nat, t: State, outputs: Outputs) returns (u: State)
    requires OwnRun(plan, ops, s, w, t) && w in t.workers && t.workers[w] == Worker(Activate, outputs)
    ensures OwnRun(plan, ops, s, w, u)
    ensures Became(t, w, u, t.table, t.directory, Set(EffectiveFrom(plan, outputs)), Worker(Done(true), outputs))
  {
    hide OwnRun, EffectiveFrom;
    u := Advance(plan, ops, s, w, t, Activates(w));
  }

}
