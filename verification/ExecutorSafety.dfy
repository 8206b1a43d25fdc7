/** Every step that keeps the timing and delivery assumption keeps the executor's invariant. */
module ExecutorSafety {
  import opened Text
  import opened Provisioning
  import opened Cognito
  import opened Executor
  import opened ExecutorInvariant
  import opened ExecutorCalls

  /** Operations are listed once, so workers at different positions work on different operations. */
  lemma DistinctOps(plan: Plan, ops: seq<Op>, i: nat, j: nat)
    requires Lists(plan, ops) && i < |ops| && j < |ops| && i != j
    ensures ops[i] != ops[j]
  {
  }

  // --------------------------------------------------- only a worker moves

  /** All workers but `w` stay as they are. */
  ghost predicate OthersStay(s: State, s': State, w: nat) {
    forall v | v != w :: (v in s'.workers <==> v in s.workers) && (v in s.workers ==> s'.workers[v] == s.workers[v])
  }

  /** Worker `w` goes on as `x`: it takes no lock, and what it may be about to do it has looked up. */
  ghost predicate GoesOnAs(plan: Plan, ops: seq<Op>, s: State, w: nat, x: Worker) {
    && WorkerOk(plan, ops, s.directory, x)
    && (x.pc.Lock? ==> x.pc.since <= s.clock)
    && (Holding(x.pc) ==>
          && w in s.workers && Holding(s.workers[w].pc) && s.workers[w].pc.i == x.pc.i && HoldsLock(ops, s, x.pc)
          && (x.pc.Run? ==> Seen(plan, ops[x.pc.i], x.pc.phase, s.directory)))
  }

  /** Worker `w` moves or leaves, and nothing else changes but perhaps the effective record. */
  lemma Moved(plan: Plan, ops: seq<Op>, s: State, s': State, w: nat)
    requires Inv(plan, ops, s) && OthersStay(s, s', w)
    requires s'.table == s.table && s'.directory == s.directory && s'.clock == s.clock
    requires EffectiveOk(plan, ops, s'.effective, s.directory)
    requires w in s'.workers ==> GoesOnAs(plan, ops, s, w, s'.workers[w])
    ensures Inv(plan, ops, s')
  {
    hide Tidy, Lists, Entries, WorkerOk, Seen, EffectiveOk;
    assert Exclusive(ops, s');
  }

  lemma InvFacts(plan: Plan, ops: seq<Op>, s: State)
    requires Inv(plan, ops, s)
    ensures EffectiveOk(plan, ops, s.effective, s.directory) && Tidy(plan, s.directory) && Lists(plan, ops)
  {
    hide Tidy, Lists, Entries, Workers, Exclusive, AllSeen, EffectiveOk;
  }

  lemma WorkerFacts(plan: Plan, ops: seq<Op>, s: State, w: nat)
    requires Inv(plan, ops, s) && w in s.workers
    ensures WorkerOk(plan, ops, s.directory, s.workers[w]) && Entries(plan, ops, s.table, s.directory)
    ensures EffectiveOk(plan, ops, s.effective, s.directory) && Tidy(plan, s.directory) && Lists(plan, ops)
    ensures Holding(s.workers[w].pc) ==> HoldsLock(ops, s, s.workers[w].pc)
    ensures s.workers[w].pc.Run? ==> Seen(plan, ops[s.workers[w].pc.i], s.workers[w].pc.phase, s.directory)
  {
    hide Tidy, Lists, Entries, Seen, EffectiveOk;
    assert WorkerOk(plan, ops, s.directory, s.workers[w]);
    assert s.workers[w].pc.Run? ==> s.workers[w].pc.i < |ops|;
  }

  /** Merging a recorded success. */
  lemma Loaded(plan: Plan, ops: seq<Op>, s: State, outputs: Outputs, op: Op)
    requires Entries(plan, ops, s.table, s.directory) && AllRight(plan, s.directory, outputs) && IsSucceeded(s, op)
    ensures AllRight(plan, s.directory, outputs + s.table[op].outputs)
    ensures Provides(op, outputs + s.table[op].outputs)
  {
    RightTogether(plan, s.directory, outputs, s.table[op].outputs);
    hide AllRight;
  }

  lemma ProvidesMore(ops: seq<Op>, n: nat, outputs: Outputs, more: Outputs)
    requires n <= |ops| && forall j | 0 <= j < n :: Provides(ops[j], outputs)
    ensures forall j | 0 <= j < n :: Provides(ops[j], outputs + more)
  {
  }

  lemma PreloadsKeep(plan: Plan, ops: seq<Op>, s: State, w: nat)
    requires Inv(plan, ops, s) && Enabled(plan, ops, s, Preloads(w))
    ensures Inv(plan, ops, After(plan, ops, s, Preloads(w)))
  {
    hide Inv, Entries, AllRight, EffectiveOk, Provides, Seen, Tidy, Lists;
    var worker := s.workers[w];
    WorkerFacts(plan, ops, s, w);
    if worker.pc.i < |ops| && IsSucceeded(s, ops[worker.pc.i]) {
      Loaded(plan, ops, s, worker.outputs, ops[worker.pc.i]);
    }
    assert GoesOnAs(plan, ops, s, w, AfterPreload(ops, s, w).workers[w]);
    Moved(plan, ops, s, AfterPreload(ops, s, w), w);
  }

  lemma LoadsKeep(plan: Plan, ops: seq<Op>, s: State, w: nat)
    requires Inv(plan, ops, s) && Enabled(plan, ops, s, Loads(w))
    ensures Inv(plan, ops, After(plan, ops, s, Loads(w)))
  {
    hide Inv, Entries, AllRight, EffectiveOk, Provides, Seen, Tidy, Lists;
    var worker := s.workers[w];
    WorkerFacts(plan, ops, s, w);
    if worker.pc.i < |ops| && IsSucceeded(s, ops[worker.pc.i]) {
      Loaded(plan, ops, s, worker.outputs, ops[worker.pc.i]);
      ProvidesMore(ops, worker.pc.i, worker.outputs, s.table[ops[worker.pc.i]].outputs);
    }
    assert GoesOnAs(plan, ops, s, w, AfterLoad(ops, s, w).workers[w]);
    Moved(plan, ops, s, AfterLoad(ops, s, w), w);
  }

  lemma SmallMovesKeep(plan: Plan, ops: seq<Op>, s: State, step: Step)
    requires Inv(plan, ops, s) && Enabled(plan, ops, s, step)
    requires step.Begins? || step.CallFails? || step.CommitFails? || step.Crash?
    ensures Inv(plan, ops, After(plan, ops, s, step))
  {
    hide Inv, Entries, EffectiveOk, Provides, Seen, Tidy, Lists;
    var s' := After(plan, ops, s, step);
    InvFacts(plan, ops, s);
    if step.w in s.workers { WorkerFacts(plan, ops, s, step.w); }
    assert OthersStay(s, s', step.w);
    Moved(plan, ops, s, s', step.w);
  }

  // ------------------------------------------------------------- activation

  lemma SanitizedField(v: Value, fields: map<Key, Value>, k: Key)
    requires SanitizeValue(v) == SanitizeValue(Record(fields))
    requires k in fields && Stored(k) && fields[k].Text?
    ensures v.Record? && k in v.fields && v.fields[k] == fields[k]
  {
    assert k in SanitizeValue(Record(fields)).fields;
    assert k in SanitizeValue(v).fields;
    assert SanitizeValue(v.fields[k]) == SanitizeValue(fields[k]);
  }

  lemma CarriedFields(plan: Plan, v: Value, poolId: string, clientId: string, domain: string)
    requires SanitizeValue(v) == SanitizeValue(ActivationOutputs(plan, poolId, clientId, domain)[Activation])
    ensures v.Record?
    ensures TextField(v.fields, Issuer) == PoolUrl(plan, poolId)
    ensures TextField(v.fields, ClientId) == clientId
    ensures TextField(v.fields, HostedUiDomainUrl) == domain
  {
    var full := ActivationOutputs(plan, poolId, clientId, domain)[Activation].fields;
    SanitizedField(v, full, Issuer);
    SanitizedField(v, full, ClientId);
    SanitizedField(v, full, HostedUiDomainUrl);
  }

  /** A worker that has every output, fresh or reloaded, writes the record of our pool and client. */
  lemma CarriedActivation(plan: Plan, ops: seq<Op>, c: Directory, outputs: Outputs)
    requires Tidy(plan, c) && AllRight(plan, c, outputs) && UserPoolId in outputs && Activation in outputs
      && Finalize in ops
    ensures EffectiveOk(plan, ops, Set(EffectiveFrom(plan, outputs)), c)
  {
    hide Tidy, Mine, MyClient, SanitizeValue, ActivationOutputs;
    assert Right(plan, c, UserPoolId, outputs[UserPoolId]) && Right(plan, c, Activation, outputs[Activation]);
    var p, i :| IsActivation(plan, c, p, i, outputs[Activation]);
    OnePool(plan, c, p, outputs[UserPoolId].text);
    CarriedFields(plan, outputs[Activation], p, i, DomainUrl(plan));
    DomainUrlTrimmed(plan);
    assert PoolUrl(plan, p)[0] == 'h';
  }

  lemma ActivatesKeep(plan: Plan, ops: seq<Op>, s: State, w: nat)
    requires Inv(plan, ops, s) && Enabled(plan, ops, s, Activates(w))
    ensures Inv(plan, ops, After(plan, ops, s, Activates(w)))
  {
    hide Inv, EffectiveFrom, EffectiveOk, AllRight, Provides, Seen, Tidy, Lists;
    var worker := s.workers[w];
    WorkerFacts(plan, ops, s, w);
    assert UserPoolId in worker.outputs && Activation in worker.outputs by {
      HasEverything(plan, ops, worker.outputs);
    }
    CarriedActivation(plan, ops, s.directory, worker.outputs);
    Moved(plan, ops, s, After(plan, ops, s, Activates(w)), w);
  }

  lemma HasEverything(plan: Plan, ops: seq<Op>, outputs: Outputs)
    requires Lists(plan, ops) && Finalize in ops && forall j | 0 <= j < |ops| :: Provides(ops[j], outputs)
    ensures UserPoolId in outputs && Activation in outputs
  {
    assert Wanted(plan, Finalize) && UserPool in ops;
    forall op | op in ops ensures Provides(op, outputs) {
      var j :| 0 <= j < |ops| && ops[j] == op;
    }
  }

  // ------------------------------------------------------- the table changes

  /** Worker `w` writes the record of operation `i`, which no other worker holds, and goes on. */
  lemma Wrote(plan: Plan, ops: seq<Op>, s: State, s': State, w: nat, i: nat, e: Entry)
    requires Inv(plan, ops, s) && OthersStay(s, s', w) && w in s'.workers && i < |ops|
    requires s'.table == s.table[ops[i] := e] && s'.directory == s.directory && s'.clock == s.clock
    requires s'.effective == s.effective
    requires e.Succeeded? ==> AllRight(plan, s.directory, e.outputs) && Provides(ops[i], e.outputs)
    requires forall v | v in s.workers && v != w && Holding(s.workers[v].pc) :: s.workers[v].pc.i != i
    requires WorkerOk(plan, ops, s.directory, s'.workers[w]) && !s'.workers[w].pc.Lock?
    requires Holding(s'.workers[w].pc) ==>
      s'.workers[w].pc.i == i && HoldsLock(ops, s', s'.workers[w].pc)
      && (s'.workers[w].pc.Run? ==> s'.workers[w].pc.phase == Begin)
    ensures Inv(plan, ops, s')
  {
    hide Tidy, AllRight, Provides, WorkerOk, EffectiveOk, Lists;
    WriteExcludes(plan, ops, s, s', w, i, e);
    hide Exclusive;
  }

  lemma WriteExcludes(plan: Plan, ops: seq<Op>, s: State, s': State, w: nat, i: nat, e: Entry)
    requires Exclusive(ops, s) && Lists(plan, ops) && OthersStay(s, s', w) && w in s'.workers && i < |ops|
    requires s'.table == s.table[ops[i] := e] && s'.clock == s.clock
    requires forall v | v in s.workers && v != w && Holding(s.workers[v].pc) :: s.workers[v].pc.i != i
    requires Holding(s'.workers[w].pc) ==> s'.workers[w].pc.i == i && HoldsLock(ops, s', s'.workers[w].pc)
    ensures Exclusive(ops, s')
  {
    hide Lists;
    forall v | v in s'.workers && Holding(s'.workers[v].pc) ensures HoldsLock(ops, s', s'.workers[v].pc) {
      if v != w {
        assert HoldsLock(ops, s, s.workers[v].pc);
        DistinctOps(plan, ops, s.workers[v].pc.i, i);
      }
    }
  }

  /** A lock put that is granted finds nobody at work on that operation. */
  lemma NobodyHolds(plan: Plan, ops: seq<Op>, s: State, i: nat, now: int)
    requires Inv(plan, ops, s) && i < |ops| && LockFree(s, ops[i], now) && now <= s.clock
    ensures forall v | v in s.workers && Holding(s.workers[v].pc) :: s.workers[v].pc.i != i
  {
    hide Tidy, Lists, Entries, Workers, AllSeen, EffectiveOk;
    forall v | v in s.workers && Holding(s.workers[v].pc) ensures s.workers[v].pc.i != i {
      assert HoldsLock(ops, s, s.workers[v].pc);
    }
  }

  /** The conditional put never displaces a live holder or a success, and admits no second holder. */
  lemma LocksKeep(plan: Plan, ops: seq<Op>, s: State, w: nat, readAt: int, now: int)
    requires Inv(plan, ops, s) && Enabled(plan, ops, s, Locks(w, readAt, now)) && Timely(s, Locks(w, readAt, now))
    ensures Inv(plan, ops, After(plan, ops, s, Locks(w, readAt, now)))
  {
    hide Inv, Entries, EffectiveOk, AllRight, Provides, Tidy, Lists, LockFree;
    var worker, s' := s.workers[w], After(plan, ops, s, Locks(w, readAt, now));
    var i := worker.pc.i;
    WorkerFacts(plan, ops, s, w);
    if LockFree(s, ops[i], now) {
      NobodyHolds(plan, ops, s, i, now);
      Wrote(plan, ops, s, s', w, i, InProgress(readAt + LEASE));
    } else {
      Moved(plan, ops, s, s', w);
    }
  }

  lemma HolderAlone(plan: Plan, ops: seq<Op>, s: State, w: nat)
    requires Inv(plan, ops, s) && w in s.workers && Holding(s.workers[w].pc)
    ensures forall v | v in s.workers && v != w && Holding(s.workers[v].pc) :: s.workers[v].pc.i != s.workers[w].pc.i
  {
    hide Tidy, Lists, Entries, Workers, AllSeen, EffectiveOk;
  }

  /** The failed write of a holder that gives up. */
  lemma AbortsKeep(plan: Plan, ops: seq<Op>, s: State, w: nat)
    requires Inv(plan, ops, s) && Enabled(plan, ops, s, Aborts(w))
    ensures Inv(plan, ops, After(plan, ops, s, Aborts(w)))
  {
    hide Inv, Entries, EffectiveOk, AllRight, Provides, Tidy, Lists;
    WorkerFacts(plan, ops, s, w);
    HolderAlone(plan, ops, s, w);
    Wrote(plan, ops, s, After(plan, ops, s, Aborts(w)), w, s.workers[w].pc.i, FailedEntry);
  }

  /** What a commit records and what the worker keeps in memory are both the plan's own. */
  lemma Recorded(plan: Plan, ops: seq<Op>, c: Directory, worker: Worker)
    requires WorkerOk(plan, ops, c, worker) && worker.pc.Commit?
    ensures
      var i, produced := worker.pc.i, worker.pc.produced;
      && AllRight(plan, c, Sanitize(produced)) && Provides(ops[i], Sanitize(produced))
      && WorkerOk(plan, ops, c, Worker(Load(i + 1), worker.outputs + produced))
      && WorkerOk(plan, ops, c, Worker(Abort(i, worker.pc.lease), worker.outputs + produced))
  {
    var i, produced := worker.pc.i, worker.pc.produced;
    SanitizedRight(plan, c, ops[i], produced);
    RightTogether(plan, c, worker.outputs, produced);
    ProvidesMore(ops, i, worker.outputs, produced);
    hide AllRight, Sanitize;
  }

  /** The succeeded write, whether or not its answer arrives. */
  lemma CommitsKeep(plan: Plan, ops: seq<Op>, s: State, w: nat)
    requires Inv(plan, ops, s) && Enabled(plan, ops, s, Commits(w)) && Enabled(plan, ops, s, CommitAnswerLost(w))
    ensures Inv(plan, ops, After(plan, ops, s, Commits(w)))
    ensures Inv(plan, ops, After(plan, ops, s, CommitAnswerLost(w)))
  {
    hide Inv, Entries, EffectiveOk, AllRight, Provides, Tidy, Lists, WorkerOk, Sanitize;
    var worker := s.workers[w];
    WorkerFacts(plan, ops, s, w);
    HolderAlone(plan, ops, s, w);
    Recorded(plan, ops, s.directory, worker);
    var e := Succeeded(Sanitize(worker.pc.produced));
    Wrote(plan, ops, s, After(plan, ops, s, Commits(w)), w, worker.pc.i, e);
    Wrote(plan, ops, s, After(plan, ops, s, CommitAnswerLost(w)), w, worker.pc.i, e);
  }

  // --------------------------------------------------- the directory changes

  /** Workers other than `w` have seen what they rely on, whatever `w` did for its own operation. */
  ghost predicate StillSeen(plan: Plan, op: Op, c: Directory, d: Directory) {
    && (op != UserPool ==> PoolsNamed(d, plan.poolName) == PoolsNamed(c, plan.poolName))
    && (op != PublicClient ==> forall i :: MyClient(plan, d, i) <==> MyClient(plan, c, i))
  }

  lemma SeenKept(plan: Plan, op: Op, c: Directory, d: Directory, other: Op, phase: Phase)
    requires StillSeen(plan, op, c, d) && other != op && Seen(plan, other, phase, c)
    ensures Seen(plan, other, phase, d)
  {
    hide PoolsNamed, MyClient;
  }

  /** Worker `w` changed the directory for operation `i`, which it holds, and goes on. */
  lemma Called(plan: Plan, ops: seq<Op>, s: State, s': State, w: nat, i: nat)
    requires Inv(plan, ops, s) && At(ops, s, w) && Holding(s.workers[w].pc) && s.workers[w].pc.i == i < |ops|
    requires s'.workers.Keys == s.workers.Keys && OthersStay(s, s', w)
    requires s'.table == s.table && s'.clock == s.clock && s'.effective == s.effective
    requires Tidy(plan, s'.directory) && Keeps(plan, s.directory, s'.directory)
    requires StillSeen(plan, ops[i], s.directory, s'.directory)
    requires WorkerOk(plan, ops, s'.directory, s'.workers[w])
    requires Holding(s'.workers[w].pc) && s'.workers[w].pc.i == i && HoldsLock(ops, s, s'.workers[w].pc)
    requires s'.workers[w].pc.Run? ==> Seen(plan, ops[i], s'.workers[w].pc.phase, s'.directory)
    ensures Inv(plan, ops, s')
  {
    hide Tidy, Keeps, Lists, Entries, StillSeen, EffectiveOk, AllRight, Provides;
    var c, d := s.directory, s'.directory;
    EntriesKept(plan, ops, s.table, c, d);
    HolderAlone(plan, ops, s, w);
    EffectiveKept(plan, ops, s.effective, c, d);
    OthersKept(plan, ops, s, s', w, i);
    assert Exclusive(ops, s');
    hide WorkerOk, Seen, HoldsLock;
  }

  lemma EffectiveKept(plan: Plan, ops: seq<Op>, e: Effective, c: Directory, d: Directory)
    requires EffectiveOk(plan, ops, e, c) && Keeps(plan, c, d)
    ensures EffectiveOk(plan, ops, e, d)
  {
    hide OurPool, OurClient;
  }

  lemma OthersKept(plan: Plan, ops: seq<Op>, s: State, s': State, w: nat, i: nat)
    requires Workers(plan, ops, s) && AllSeen(plan, ops, s) && Lists(plan, ops) && i < |ops|
    requires OthersStay(s, s', w) && Keeps(plan, s.directory, s'.directory)
    requires StillSeen(plan, ops[i], s.directory, s'.directory)
    requires forall v | v in s.workers && v != w && Holding(s.workers[v].pc) :: s.workers[v].pc.i != i
    ensures forall v | v in s'.workers && v != w ::
      && WorkerOk(plan, ops, s'.directory, s'.workers[v])
      && (s'.workers[v].pc.Run? ==>
            Seen(plan, ops[s'.workers[v].pc.i], s'.workers[v].pc.phase, s'.directory))
  {
    hide Keeps, Lists, StillSeen, Seen;
    forall v | v in s'.workers && v != w
      ensures WorkerOk(plan, ops, s'.directory, s'.workers[v])
      ensures s'.workers[v].pc.Run? ==>
        Seen(plan, ops[s'.workers[v].pc.i], s'.workers[v].pc.phase, s'.directory)
    {
      WorkerKept(plan, ops, s.directory, s'.directory, s.workers[v]);
      var pc := s.workers[v].pc;
      if pc.Run? {
        DistinctOps(plan, ops, pc.i, i);
        SeenKept(plan, ops[i], s.directory, s'.directory, ops[pc.i], pc.phase);
      }
    }
  }

  /** The call of a holder, whether its answer arrives or not. */
  lemma CallsKeep(plan: Plan, ops: seq<Op>, s: State, w: nat, id: string)
    requires Inv(plan, ops, s) && Enabled(plan, ops, s, Calls(w, id)) && Enabled(plan, ops, s, CallAnswerLost(w, id))
    ensures Inv(plan, ops, After(plan, ops, s, Calls(w, id)))
    ensures Inv(plan, ops, After(plan, ops, s, CallAnswerLost(w, id)))
  {
    hide Inv, Call, Entries, EffectiveOk, AllRight, Provides, Seen, Tidy, Lists, Keeps, PoolsNamed, MyClient;
    var worker, reply := s.workers[w], CallAt(plan, ops, s, w, id);
    var pc := worker.pc;
    WorkerFacts(plan, ops, s, w);
    HolderCall(plan, ops[pc.i], worker.outputs, pc.phase, s.directory, id);
    WorkerKept(plan, ops, s.directory, reply.directory, worker);
    Called(plan, ops, s, After(plan, ops, s, Calls(w, id)), w, pc.i);
    Called(plan, ops, s, After(plan, ops, s, CallAnswerLost(w, id)), w, pc.i);
  }

  lemma OutsideAlike(plan: Plan, c: Directory, d: Directory)
    requires Tidy(plan, c) && Foreign(plan, c, d)
    ensures Alike(plan, c, d)
  {
    hide Present;
    assert forall i :: MyClient(plan, c, i) <==> MyClient(plan, d, i);
    assert forall p :: Mine(plan, c, p) <==> Mine(plan, d, p);
    assert forall p :: p in PoolsNamed(d, plan.poolName) ==> Mine(plan, d, p);
    assert forall p :: p in PoolsNamed(c, plan.poolName) ==> Mine(plan, c, p);
  }

  lemma OutsideKeeps(plan: Plan, ops: seq<Op>, s: State, d: Directory)
    requires Inv(plan, ops, s) && Enabled(plan, ops, s, Outside(d))
    ensures Inv(plan, ops, After(plan, ops, s, Outside(d)))
  {
    hide Tidy, Keeps, Lists, Entries, EffectiveOk, Foreign, PoolsNamed, MyClient, WorkerOk;
    var c, s' := s.directory, After(plan, ops, s, Outside(d));
    OutsideAlike(plan, c, d);
    EntriesKept(plan, ops, s.table, c, d);
    EffectiveKept(plan, ops, s.effective, c, d);
    forall w | w in s.workers ensures WorkerOk(plan, ops, d, s.workers[w]) {
      WorkerKept(plan, ops, c, d, s.workers[w]);
    }
  }

  lemma TickKeeps(plan: Plan, ops: seq<Op>, s: State, clock: int)
    requires Inv(plan, ops, s) && Enabled(plan, ops, s, Tick(clock)) && Timely(s, Tick(clock))
    ensures Inv(plan, ops, After(plan, ops, s, Tick(clock)))
  {
    hide Tidy, Lists, Entries, WorkerOk, Seen, EffectiveOk;
  }

  // ----------------------------------------------------------- main theorem

  /** An answer can be lost exactly when it could have arrived. */
  lemma Siblings(plan: Plan, ops: seq<Op>, s: State, step: Step)
    requires Enabled(plan, ops, s, step)
    ensures step.Commits? ==> Enabled(plan, ops, s, CommitAnswerLost(step.w))
    ensures step.CommitAnswerLost? ==> Enabled(plan, ops, s, Commits(step.w))
    ensures step.Calls? ==> Enabled(plan, ops, s, CallAnswerLost(step.w, step.freshId))
    ensures step.CallAnswerLost? ==> Enabled(plan, ops, s, Calls(step.w, step.freshId))
  {
  }

  lemma StepKeeps(plan: Plan, ops: seq<Op>, s: State, step: Step)
    requires Inv(plan, ops, s) && Enabled(plan, ops, s, step) && Timely(s, step)
    ensures Inv(plan, ops, After(plan, ops, s, step))
  {
    Siblings(plan, ops, s, step);
    assert !step.LockFails?;
    hide Inv, After, Enabled, Timely;
    match step
    case Preloads(w) => PreloadsKeep(plan, ops, s, w);
    case Loads(w) => LoadsKeep(plan, ops, s, w);
    case Locks(w, readAt, now) => LocksKeep(plan, ops, s, w, readAt, now);
    case Calls(w, id) => CallsKeep(plan, ops, s, w, id);
    case CallAnswerLost(w, id) => CallsKeep(plan, ops, s, w, id);
    case Commits(w) => CommitsKeep(plan, ops, s, w);
    case CommitAnswerLost(w) => CommitsKeep(plan, ops, s, w);
    case Aborts(w) => AbortsKeep(plan, ops, s, w);
    case Activates(w) => ActivatesKeep(plan, ops, s, w);
    case Tick(t) => TickKeeps(plan, ops, s, t);
    case Outside(d) => OutsideKeeps(plan, ops, s, d);
    case LockFails(_, _, _) => assert false;
    case _ => SmallMovesKeep(plan, ops, s, step);
  }

  /** No step loses a resource of the plan. */
  lemma StepKeepsResources(plan: Plan, ops: seq<Op>, s: State, step: Step)
    requires Inv(plan, ops, s) && Enabled(plan, ops, s, step)
    ensures Keeps(plan, s.directory, After(plan, ops, s, step).directory)
  {
    hide Inv, Call, Keeps, Sanitize, EffectiveFrom, Tidy, Lists, Foreign;
    Siblings(plan, ops, s, step);
    InvFacts(plan, ops, s);
    NothingChanged(plan, s.directory);
    if step.Calls? || step.CallAnswerLost? {
      CallKeepsResources(plan, ops, s, step.w, step.freshId);
    } else if step.Outside? {
      OutsideAlike(plan, s.directory, step.directory);
    }
  }

  lemma CallKeepsResources(plan: Plan, ops: seq<Op>, s: State, w: nat, id: string)
    requires Inv(plan, ops, s) && Enabled(plan, ops, s, Calls(w, id))
    ensures Keeps(plan, s.directory, CallAt(plan, ops, s, w, id).directory)
  {
    hide Inv, Call, Keeps, Tidy, Lists, Entries, EffectiveOk, AllRight, Provides, Seen, MyClient, PoolsNamed;
    var worker := s.workers[w];
    WorkerFacts(plan, ops, s, w);
    HolderCall(plan, ops[worker.pc.i], worker.outputs, worker.pc.phase, s.directory, id);
  }
}
