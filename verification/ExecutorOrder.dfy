/**
 * What runs keep in addition when no put of the final status is half-acknowledged: operations succeed in
 * their order, one at a time, and for good.
 */
module ExecutorOrder {
  import opened Provisioning
  import opened Cognito
  import opened Executor
  import opened ExecutorInvariant
  import opened ExecutorSafety

  /** Recorded successes are never changed. */
  predicate Grows(t: Table, t': Table) {
    forall op | Finished(t, op) :: op in t' && t'[op] == t[op]
  }

  predicate FinishedBelow(ops: seq<Op>, t: Table, n: nat)
    requires n <= |ops|
  {
    forall j | 0 <= j < n :: Finished(t, ops[j])
  }

  /** An operation has a record only when all operations before it have succeeded. */
  predicate InOrder(ops: seq<Op>, t: Table) {
    forall j, k | 0 <= j < k < |ops| && ops[k] in t :: Finished(t, ops[j])
  }

  predicate PassedFinished(ops: seq<Op>, s: State) {
    forall w | w in s.workers && InRange(ops, s.workers[w].pc) ::
      FinishedBelow(ops, s.table, Passed(ops, s.workers[w].pc))
  }

  /** A holder's lease is the recorded one. */
  predicate LeasesRecorded(ops: seq<Op>, s: State) {
    forall w | w in s.workers && Holding(s.workers[w].pc) && InRange(ops, s.workers[w].pc) ::
      ops[s.workers[w].pc.i] in s.table && s.table[ops[s.workers[w].pc.i]] == InProgress(s.workers[w].pc.lease)
  }

  predicate ActivatedLast(ops: seq<Op>, s: State) {
    s.effective.Set? ==> FinishedBelow(ops, s.table, |ops|)
  }

  ghost predicate Ordered(ops: seq<Op>, s: State) {
    InOrder(ops, s.table) && PassedFinished(ops, s) && LeasesRecorded(ops, s) && ActivatedLast(ops, s)
  }

  lemma GrowsBelow(ops: seq<Op>, t: Table, t': Table, n: nat)
    requires n <= |ops| && FinishedBelow(ops, t, n) && Grows(t, t')
    ensures FinishedBelow(ops, t', n)
  {
  }

  /** Worker `w` moves or leaves; it passes nothing that has not succeeded. */
  lemma MovedInOrder(ops: seq<Op>, s: State, s': State, w: nat)
    requires Ordered(ops, s) && OthersStay(s, s', w) && s'.table == s.table
    requires s'.effective == s.effective || FinishedBelow(ops, s.table, |ops|)
    requires w in s'.workers && InRange(ops, s'.workers[w].pc) ==>
      FinishedBelow(ops, s.table, Passed(ops, s'.workers[w].pc))
    requires w in s'.workers && Holding(s'.workers[w].pc) ==>
      && w in s.workers && Holding(s.workers[w].pc) && InRange(ops, s.workers[w].pc)
      && s.workers[w].pc.i == s'.workers[w].pc.i && s.workers[w].pc.lease == s'.workers[w].pc.lease
    ensures Ordered(ops, s')
  {
    hide FinishedBelow, InOrder;
  }

  /** Worker `w` writes a record that was no success, for the operation it has come to. */
  lemma WroteInOrder(plan: Plan, ops: seq<Op>, s: State, s': State, w: nat, i: nat, e: Entry)
    requires Ordered(ops, s) && Lists(plan, ops) && OthersStay(s, s', w) && i < |ops|
    requires s'.table == s.table[ops[i] := e] && s'.effective == s.effective
    requires FinishedBelow(ops, s.table, i) && !Finished(s.table, ops[i])
    requires forall v | v in s.workers && v != w && Holding(s.workers[v].pc) :: s.workers[v].pc.i != i
    requires w in s'.workers && InRange(ops, s'.workers[w].pc)
    requires Passed(ops, s'.workers[w].pc) <= if e.Succeeded? then i + 1 else i
    requires Holding(s'.workers[w].pc) ==> s'.workers[w].pc.i == i && e == InProgress(s'.workers[w].pc.lease)
    ensures Grows(s.table, s'.table) && Ordered(ops, s')
  {
    assert Grows(s.table, s'.table);
    InOrderKept(plan, ops, s.table, i, e);
    hide InOrder;
    forall v | v in s'.workers && InRange(ops, s'.workers[v].pc)
      ensures FinishedBelow(ops, s'.table, Passed(ops, s'.workers[v].pc))
    {
      if v != w { GrowsBelow(ops, s.table, s'.table, Passed(ops, s.workers[v].pc)); }
    }
    assert LeasesRecorded(ops, s') by { RecordedKept(plan, ops, s, s', w, i, e); }
  }

  lemma RecordedKept(plan: Plan, ops: seq<Op>, s: State, s': State, w: nat, i: nat, e: Entry)
    requires LeasesRecorded(ops, s) && Lists(plan, ops) && OthersStay(s, s', w) && i < |ops|
    requires s'.table == s.table[ops[i] := e]
    requires forall v | v in s.workers && v != w && Holding(s.workers[v].pc) :: s.workers[v].pc.i != i
    requires w in s'.workers
    requires Holding(s'.workers[w].pc) ==> s'.workers[w].pc.i == i && e == InProgress(s'.workers[w].pc.lease)
    ensures LeasesRecorded(ops, s')
  {
    hide Lists;
    forall v | v in s'.workers && Holding(s'.workers[v].pc) && InRange(ops, s'.workers[v].pc)
      ensures ops[s'.workers[v].pc.i] in s'.table
      ensures s'.table[ops[s'.workers[v].pc.i]] == InProgress(s'.workers[v].pc.lease)
    {
      if v != w { DistinctOps(plan, ops, s.workers[v].pc.i, i); }
    }
  }

  lemma InOrderKept(plan: Plan, ops: seq<Op>, t: Table, i: nat, e: Entry)
    requires InOrder(ops, t) && Lists(plan, ops) && i < |ops| && FinishedBelow(ops, t, i) && !Finished(t, ops[i])
    ensures InOrder(ops, t[ops[i] := e])
  {
    var t' := t[ops[i] := e];
    hide Lists;
    forall j, k | 0 <= j < k < |ops| && ops[k] in t' ensures Finished(t', ops[j]) {
      if k != i { DistinctOps(plan, ops, k, i); }
      if j != i { DistinctOps(plan, ops, j, i); }
    }
  }

  // --------------------------------------------------------------- the steps

  lemma OrderFacts(plan: Plan, ops: seq<Op>, s: State, w: nat)
    requires Inv(plan, ops, s) && Ordered(ops, s) && w in s.workers
    ensures InRange(ops, s.workers[w].pc) && FinishedBelow(ops, s.table, Passed(ops, s.workers[w].pc))
      && Lists(plan, ops)
    ensures
      var pc := s.workers[w].pc;
      Holding(pc) ==>
        && pc.i < |ops| && ops[pc.i] in s.table && s.table[ops[pc.i]] == InProgress(pc.lease)
        && forall v | v in s.workers && v != w && Holding(s.workers[v].pc) :: s.workers[v].pc.i != pc.i
  {
    hide Tidy, Lists, Entries, AllSeen, EffectiveOk, AllRight, Provides;
    if Holding(s.workers[w].pc) { HolderAlone(plan, ops, s, w); }
    assert WorkerOk(plan, ops, s.directory, s.workers[w]);
  }

  lemma WritesKeepOrder(plan: Plan, ops: seq<Op>, s: State, step: Step)
    requires Inv(plan, ops, s) && Ordered(ops, s) && Enabled(plan, ops, s, step)
    requires step.Locks? || step.Commits? || step.Aborts?
    ensures Grows(s.table, After(plan, ops, s, step).table) && Ordered(ops, After(plan, ops, s, step))
  {
    hide Inv, Lists, Ordered, Sanitize, FinishedBelow;
    var w, s' := step.w, After(plan, ops, s, step);
    var i := s.workers[w].pc.i;
    OrderFacts(plan, ops, s, w);
    if !step.Locks? {
      WroteInOrder(plan, ops, s, s', w, i, s'.table[ops[i]]);
    } else if LockFree(s, ops[i], step.now) {
      NobodyHolds(plan, ops, s, i, step.now);
      WroteInOrder(plan, ops, s, s', w, i, s'.table[ops[i]]);
    } else {
      NothingBelow(ops, s.table);
      MovedInOrder(ops, s, s', w);
    }
  }

  lemma NothingBelow(ops: seq<Op>, t: Table)
    ensures FinishedBelow(ops, t, 0)
  {
  }

  lemma MovesKeepOrder(plan: Plan, ops: seq<Op>, s: State, step: Step)
    requires Inv(plan, ops, s) && Ordered(ops, s) && Enabled(plan, ops, s, step)
    requires step.Begins? || step.Preloads? || step.Loads? || step.Calls? || step.Activates? || step.CallFails?
      || step.CallAnswerLost? || step.CommitFails? || step.Crash?
    ensures After(plan, ops, s, step).table == s.table && Ordered(ops, After(plan, ops, s, step))
  {
    hide Inv, Lists, Ordered, Call, EffectiveFrom;
    var w, s' := step.w, After(plan, ops, s, step);
    if w in s.workers { OrderFacts(plan, ops, s, w); }
    assert OthersStay(s, s', w);
    MovedInOrder(ops, s, s', w);
  }

  /**
   * No step changes a recorded success, or records an operation out of order, unless a final put is
   * half-acknowledged.
   */
  lemma StepKeepsOrder(plan: Plan, ops: seq<Op>, s: State, step: Step)
    requires Inv(plan, ops, s) && Ordered(ops, s) && Enabled(plan, ops, s, step) && Timely(s, step)
    requires !step.CommitAnswerLost?
    ensures Grows(s.table, After(plan, ops, s, step).table) && Ordered(ops, After(plan, ops, s, step))
  {
    if step.Locks? || step.Commits? || step.Aborts? {
      WritesKeepOrder(plan, ops, s, step);
    } else if step.Tick? || step.Outside? {
      hide FinishedBelow, Foreign;
    } else {
      MovesKeepOrder(plan, ops, s, step);
    }
  }
}
