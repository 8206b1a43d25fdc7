/** The invariant of the executor's step system: everything is tied to the directory, nothing to the table's history. */
module ExecutorInvariant {
  import opened Text
  import opened Provisioning
  import opened Cognito
  import opened Executor

  type Table = map<Op, Entry>

  predicate Finished(t: Table, op: Op) { op in t && t[op].Succeeded? }

  // --------------------------------------------------------- the directory

  predicate OurPool(plan: Plan, c: Directory, p: string) { Present(p) && Mine(plan, c, p) }

  predicate OurClient(plan: Plan, c: Directory, i: string) { Present(i) && MyClient(plan, c, i) }

  /** One pool of the planned name, which is ours; one client of the planned name, in it; the domain, for it. */
  ghost predicate Tidy(plan: Plan, c: Directory) {
    && (plan.expectedPoolId == "" || Present(plan.expectedPoolId))
    && (forall p, q | p in c.pools && q in c.pools && c.pools[p].name == plan.poolName == c.pools[q].name :: p == q)
    && (forall p | p in c.pools && c.pools[p].name == plan.poolName ::
          if plan.expectedPoolId != "" then p == plan.expectedPoolId else Present(p) && c.pools[p].tags == plan.tags)
    && (forall i, j | MyClient(plan, c, i) && MyClient(plan, c, j) :: i == j)
    && (forall i | MyClient(plan, c, i) ::
          Present(i) && !c.clients[i].hasSecret && OurPool(plan, c, c.clients[i].poolId) && i != c.clients[i].poolId)
    && (plan.domainPrefix in c.domains ==> OurPool(plan, c, c.domains[plan.domainPrefix]))
  }

  lemma OnePool(plan: Plan, c: Directory, p: string, q: string)
    requires Tidy(plan, c) && OurPool(plan, c, p) && OurPool(plan, c, q)
    ensures p == q
  {
  }

  lemma OneClient(plan: Plan, c: Directory, i: string, j: string)
    requires Tidy(plan, c) && OurClient(plan, c, i) && OurClient(plan, c, j)
    ensures i == j
  {
  }

  /** No resource of the plan is lost. */
  ghost predicate Keeps(plan: Plan, c: Directory, d: Directory) {
    && (forall p | OurPool(plan, c, p) :: OurPool(plan, d, p))
    && (forall i | OurClient(plan, c, i) :: OurClient(plan, d, i))
  }

  // ------------------------------------------------------------ the outputs

  /** An output value names the plan's own resource, up to what the sanitizer drops. */
  ghost predicate Right(plan: Plan, c: Directory, k: Key, v: Value) {
    match k
    case UserPoolId => v.Text? && OurPool(plan, c, v.text)
    case UserPoolClientId => v.Text? && OurClient(plan, c, v.text)
    case HostedUiDomainUrl => v == Text(DomainUrl(plan))
    case Activation => exists p, i :: IsActivation(plan, c, p, i, v)
    case _ => true
  }

  ghost predicate IsActivation(plan: Plan, c: Directory, p: string, i: string, v: Value) {
    && OurPool(plan, c, p) && OurClient(plan, c, i)
    && SanitizeValue(v) == SanitizeValue(ActivationOutputs(plan, p, i, DomainUrl(plan))[Activation])
  }

  ghost predicate AllRight(plan: Plan, c: Directory, o: Outputs) {
    forall k | k in o :: Right(plan, c, k, o[k])
  }

  /** The keys later operations and the effective record rely on. */
  predicate Provides(op: Op, o: Outputs) {
    && (op == UserPool ==> UserPoolId in o) && (op == PublicClient ==> UserPoolClientId in o)
    && (op == HostedUiDomain ==> HostedUiDomainUrl in o) && (op == Finalize ==> Activation in o)
  }

  ghost predicate Entries(plan: Plan, ops: seq<Op>, t: Table, c: Directory) {
    forall op | op in t ::
      op in ops && (t[op].Succeeded? ==> AllRight(plan, c, t[op].outputs) && Provides(op, t[op].outputs))
  }

  // ----------------------------------------------------------- the workers

  ghost predicate WorkerOk(plan: Plan, ops: seq<Op>, c: Directory, worker: Worker) {
    && InRange(ops, worker.pc)
    && (!worker.pc.Done? ==>
          && AllRight(plan, c, worker.outputs)
          && forall j | 0 <= j < Passed(ops, worker.pc) :: Provides(ops[j], worker.outputs))
    && (worker.pc.Commit? ==> AllRight(plan, c, worker.pc.produced) && Provides(ops[worker.pc.i], worker.pc.produced))
    && (worker.pc.Activate? ==> Finalize in ops)
  }

  ghost predicate Workers(plan: Plan, ops: seq<Op>, s: State) {
    forall w | w in s.workers :: WorkerOk(plan, ops, s.directory, s.workers[w])
  }

  /** A holder's lease has not run out and is the recorded one, unless its success landed without its knowing. */
  predicate HoldsLock(ops: seq<Op>, s: State, pc: Pc)
    requires Holding(pc)
  {
    && pc.i < |ops| && ops[pc.i] in s.table && s.clock <= pc.lease
    && (s.table[ops[pc.i]] == InProgress(pc.lease) || (pc.Abort? && s.table[ops[pc.i]].Succeeded?))
  }

  /** Every holder holds its operation's lock, and no operation has two holders. */
  predicate Exclusive(ops: seq<Op>, s: State) {
    && (forall w | w in s.workers && Holding(s.workers[w].pc) :: HoldsLock(ops, s, s.workers[w].pc))
    && (forall v, w | v in s.workers && w in s.workers && Holding(s.workers[v].pc) && Holding(s.workers[w].pc)
          && s.workers[v].pc.i == s.workers[w].pc.i :: v == w)
  }

  predicate LeasesLive(s: State) {
    forall w | w in s.workers && s.workers[w].pc.Lock? :: s.workers[w].pc.since <= s.clock
  }

  /** What a worker that is about to create has seen in the directory. */
  ghost predicate Seen(plan: Plan, op: Op, phase: Phase, c: Directory) {
    && (phase == Create && op == UserPool ==> plan.expectedPoolId == "" && PoolsNamed(c, plan.poolName) == {})
    && (phase == Create && op == PublicClient ==> forall i :: !MyClient(plan, c, i))
  }

  ghost predicate AllSeen(plan: Plan, ops: seq<Op>, s: State) {
    forall w | w in s.workers && s.workers[w].pc.Run? && s.workers[w].pc.i < |ops| ::
      Seen(plan, ops[s.workers[w].pc.i], s.workers[w].pc.phase, s.directory)
  }

  // ------------------------------------------------------------ activation

  /** The effective record that belongs to a pool and a client: no trace of retries is left in it. */
  function Activated(plan: Plan, poolId: string, clientId: string): EffectiveAuth {
    EffectiveAuth(PoolUrl(plan, poolId), DomainUrl(plan), clientId, poolId, plan.configHash)
  }

  ghost predicate EffectiveOk(plan: Plan, ops: seq<Op>, e: Effective, c: Directory) {
    e.Set? ==>
      && Finalize in ops
      && OurPool(plan, c, e.auth.userPoolId) && OurClient(plan, c, e.auth.clientId)
      && e.auth == Activated(plan, e.auth.userPoolId, e.auth.clientId)
  }

  ghost predicate Inv(plan: Plan, ops: seq<Op>, s: State) {
    && Lists(plan, ops) && Tidy(plan, s.directory)
    && Entries(plan, ops, s.table, s.directory) && Workers(plan, ops, s)
    && Exclusive(ops, s) && LeasesLive(s) && AllSeen(plan, ops, s)
    && EffectiveOk(plan, ops, s.effective, s.directory)
  }

  // ---------------------------------------------------------------- framing

  lemma RightKept(plan: Plan, c: Directory, d: Directory, o: Outputs)
    requires AllRight(plan, c, o) && Keeps(plan, c, d)
    ensures AllRight(plan, d, o)
  {
    hide OurPool, OurClient, ActivationOutputs, SanitizeValue;
    forall k | k in o ensures Right(plan, d, k, o[k]) {
      assert Right(plan, c, k, o[k]);
      if k == Activation {
        var p, i :| IsActivation(plan, c, p, i, o[k]);
        assert IsActivation(plan, d, p, i, o[k]);
      }
    }
  }

  lemma WorkerKept(plan: Plan, ops: seq<Op>, c: Directory, d: Directory, worker: Worker)
    requires WorkerOk(plan, ops, c, worker) && Keeps(plan, c, d)
    ensures WorkerOk(plan, ops, d, worker)
  {
    hide AllRight, Keeps, Provides;
    if !worker.pc.Done? { RightKept(plan, c, d, worker.outputs); }
    if worker.pc.Commit? { RightKept(plan, c, d, worker.pc.produced); }
  }

  lemma EntriesKept(plan: Plan, ops: seq<Op>, t: Table, c: Directory, d: Directory)
    requires Entries(plan, ops, t, c) && Keeps(plan, c, d)
    ensures Entries(plan, ops, t, d)
  {
    hide AllRight, Keeps, Provides;
    forall op | op in t && t[op].Succeeded? ensures AllRight(plan, d, t[op].outputs) {
      RightKept(plan, c, d, t[op].outputs);
    }
  }

  lemma RightTogether(plan: Plan, c: Directory, a: Outputs, b: Outputs)
    requires AllRight(plan, c, a) && AllRight(plan, c, b)
    ensures AllRight(plan, c, a + b)
  {
    hide Right;
  }

  /** Sanitizing keeps an output right and provided. */
  lemma SanitizedRight(plan: Plan, c: Directory, op: Op, o: Outputs)
    requires AllRight(plan, c, o)
    ensures AllRight(plan, c, Sanitize(o))
    ensures Provides(op, o) ==> Provides(op, Sanitize(o))
  {
    hide OurPool, OurClient, ActivationOutputs;
    var r := Sanitize(o);
    forall k | k in r ensures Right(plan, c, k, r[k]) {
      assert Right(plan, c, k, o[k]);
      if k == Activation {
        var p, i :| IsActivation(plan, c, p, i, o[k]);
        SanitizeValueIdempotent(o[k]);
        assert IsActivation(plan, c, p, i, r[k]);
      }
    }
  }
}
