/**
 * `_cognito_executor_apply` as a step system: any number of workers run one plan against one DynamoDB
 * state table and one Cognito directory, interleaved at every read and write of the table and every change of the
 * directory, and may crash anywhere.
 */
module Executor {
  import opened Text
  import opened Provisioning
  import opened Cognito

  const LEASE := 900

  /** A stored operation record; `lockExpiresAt` is meaningful while the status is `InProgress`. */
  datatype Entry = InProgress(lockExpiresAt: int) | Succeeded(outputs: Outputs) | FailedEntry

  datatype EffectiveAuth = EffectiveAuth(
    issuer: string, hostedUiDomain: string, clientId: string, userPoolId: string, configHash: string)

  datatype Effective = Unset | Set(auth: EffectiveAuth)

  /** Program counter of one invocation; `i` indexes the operation list. */
  datatype Pc =
    | Preload(i: nat)
    | Load(i: nat)
    | Lock(i: nat, since: int)
    | Run(i: nat, lease: int, phase: Phase)
    | Commit(i: nat, lease: int, produced: Outputs)
    | Abort(i: nat, lease: int)
    | Activate
    | Done(applied: bool)

  datatype Worker = Worker(pc: Pc, outputs: Outputs)

  datatype State = State(
    table: map<Op, Entry>, effective: Effective, directory: Directory, clock: int, workers: map<nat, Worker>)

  datatype Step =
    // the program
    | Begins(w: nat)
    | Preloads(w: nat)
    | Loads(w: nat)
    | Locks(w: nat, readAt: int, now: int)
    | Calls(w: nat, freshId: string)
    | Commits(w: nat)
    | Aborts(w: nat)
    | Activates(w: nat)
    // failures the program sees
    | CallFails(w: nat)
    | CallAnswerLost(w: nat, freshId: string)
    | CommitFails(w: nat)
    | CommitAnswerLost(w: nat)
    | LockFails(w: nat, readAt: int, landed: bool)
    // the world
    | Crash(w: nat)
    | Tick(clock: int)
    | Outside(directory: Directory)

  /** A worker holds an operation from its successful lock put until its final write. */
  predicate Holding(pc: Pc) { pc.Run? || pc.Commit? || pc.Abort? }

  /** How many operations the worker has behind it. */
  function Passed(ops: seq<Op>, pc: Pc): nat {
    match pc
    case Preload(_) => 0
    case Activate => |ops|
    case Done(_) => 0
    case _ => pc.i
  }

  predicate InRange(ops: seq<Op>, pc: Pc) {
    match pc
    case Preload(i) => i <= |ops|
    case Load(i) => i <= |ops|
    case Lock(i, _) => i < |ops|
    case Run(i, _, _) => i < |ops|
    case Commit(i, _, _) => i < |ops|
    case Abort(i, _) => i < |ops|
    case _ => true
  }

  predicate IsSucceeded(s: State, op: Op) { op in s.table && s.table[op].Succeeded? }

  /** The condition expression of the in-progress put. */
  predicate LockFree(s: State, op: Op, now: int) {
    op !in s.table || s.table[op].FailedEntry? || (s.table[op].InProgress? && s.table[op].lockExpiresAt < now)
  }

  /** `_write_effective_auth_state`: the activation record first, the flat outputs as a fallback. */
  function EffectiveFrom(plan: Plan, outputs: Outputs): EffectiveAuth {
    var a := if Activation in outputs && outputs[Activation].Record? then outputs[Activation].fields else map[];
    EffectiveAuth(
      FirstText(a, Issuer, TextField(outputs, Issuer)),
      FirstText(a, HostedUiDomainUrl, TextField(outputs, HostedUiDomainUrl)),
      FirstText(a, ClientId, FirstText(outputs, ClientId, TextField(outputs, UserPoolClientId))),
      TextField(outputs, UserPoolId), plan.configHash)
  }

  function TextField(fields: map<Key, Value>, k: Key): string {
    if k in fields && fields[k].Text? then fields[k].text else ""
  }

  function FirstText(fields: map<Key, Value>, k: Key, otherwise: string): string {
    if TextField(fields, k) != "" then TextField(fields, k) else otherwise
  }

  /** Someone else's change: it leaves the resources the plan names alone. */
  ghost predicate Foreign(plan: Plan, c: Directory, d: Directory) {
    && (forall p | p in c.pools || p in d.pools ::
          Mine(plan, c, p) || Mine(plan, d, p) ==> p in c.pools && p in d.pools && c.pools[p] == d.pools[p])
    && (forall i | i in c.clients || i in d.clients ::
          MyClient(plan, c, i) || MyClient(plan, d, i) ==>
            i in c.clients && i in d.clients && c.clients[i] == d.clients[i])
    && (plan.domainPrefix in c.domains || plan.domainPrefix in d.domains ==>
          plan.domainPrefix in c.domains && plan.domainPrefix in d.domains
          && c.domains[plan.domainPrefix] == d.domains[plan.domainPrefix])
  }

  predicate Mine(plan: Plan, c: Directory, p: string) {
    p in c.pools && (c.pools[p].name == plan.poolName || p == plan.expectedPoolId)
  }

  predicate MyClient(plan: Plan, c: Directory, i: string) {
    i in c.clients && c.clients[i].name == plan.clientName
  }

  // -------------------------------------------------------------- one step

  /** Worker `w` is present; `StepStaysPlaced` shows that the range condition never blocks it. */
  predicate At(ops: seq<Op>, s: State, w: nat) {
    w in s.workers && InRange(ops, s.workers[w].pc)
  }

  ghost predicate Enabled(plan: Plan, ops: seq<Op>, s: State, step: Step) {
    match step
    case Begins(w) => w !in s.workers
    case Preloads(w) => At(ops, s, w) && s.workers[w].pc.Preload?
    case Loads(w) => At(ops, s, w) && s.workers[w].pc.Load?
    case Locks(w, readAt, now) =>
      At(ops, s, w) && s.workers[w].pc.Lock? && s.workers[w].pc.since <= readAt <= now <= s.clock
    case Calls(w, id) => At(ops, s, w) && s.workers[w].pc.Run? && Fresh(s.directory, id)
    case Commits(w) => At(ops, s, w) && s.workers[w].pc.Commit?
    case Aborts(w) => At(ops, s, w) && s.workers[w].pc.Abort?
    case Activates(w) => At(ops, s, w) && s.workers[w].pc.Activate?
    case CallFails(w) => At(ops, s, w) && s.workers[w].pc.Run?
    case CallAnswerLost(w, id) => At(ops, s, w) && s.workers[w].pc.Run? && Fresh(s.directory, id)
    case CommitFails(w) => At(ops, s, w) && s.workers[w].pc.Commit?
    case CommitAnswerLost(w) => At(ops, s, w) && s.workers[w].pc.Commit?
    case LockFails(w, readAt, _) =>
      At(ops, s, w) && s.workers[w].pc.Lock? && s.workers[w].pc.since <= readAt <= s.clock
    case Crash(w) => w in s.workers
    case Tick(t) => t >= s.clock
    case Outside(d) => Foreign(plan, s.directory, d)
  }

  function Move(s: State, w: nat, pc: Pc): State
    requires w in s.workers
  {
    s.(workers := s.workers[w := s.workers[w].(pc := pc)])
  }

  function CallAt(plan: Plan, ops: seq<Op>, s: State, w: nat, freshId: string): Reply
    requires At(ops, s, w) && s.workers[w].pc.Run?
  {
    Call(plan, ops[s.workers[w].pc.i], s.workers[w].outputs, s.workers[w].pc.phase, s.directory, freshId)
  }

  function AfterLoad(ops: seq<Op>, s: State, w: nat): State
    requires At(ops, s, w) && s.workers[w].pc.Load?
  {
    var worker := s.workers[w];
    var i := worker.pc.i;
    if i == |ops| then Move(s, w, if Finalize in ops then Activate else Done(true))
    else if IsSucceeded(s, ops[i]) then
      s.(workers := s.workers[w := Worker(Load(i + 1), worker.outputs + s.table[ops[i]].outputs)])
    else Move(s, w, Lock(i, s.clock))
  }

  function AfterPreload(ops: seq<Op>, s: State, w: nat): State
    requires At(ops, s, w) && s.workers[w].pc.Preload?
  {
    var worker := s.workers[w];
    var i := worker.pc.i;
    if i == |ops| then Move(s, w, Load(0))
    else if IsSucceeded(s, ops[i]) then
      s.(workers := s.workers[w := Worker(Preload(i + 1), worker.outputs + s.table[ops[i]].outputs)])
    else Move(s, w, Preload(i + 1))
  }

  function AfterCall(plan: Plan, ops: seq<Op>, s: State, w: nat, freshId: string): State
    requires At(ops, s, w) && s.workers[w].pc.Run?
  {
    var pc := s.workers[w].pc;
    var reply := CallAt(plan, ops, s, w, freshId);
    Move(s.(directory := reply.directory), w,
      match reply.outcome
      case Continue(phase) => Run(pc.i, pc.lease, phase)
      case Return(outputs) => Commit(pc.i, pc.lease, outputs)
      case Raise => Abort(pc.i, pc.lease))
  }

  /** The succeeded write; `operation_outputs.update` just before it is visible to this worker only. */
  function AfterCommit(ops: seq<Op>, s: State, w: nat): State
    requires At(ops, s, w) && s.workers[w].pc.Commit?
  {
    var worker := s.workers[w];
    var pc := worker.pc;
    s.(table := s.table[ops[pc.i] := Succeeded(Sanitize(pc.produced))],
       workers := s.workers[w := Worker(Load(pc.i + 1), worker.outputs + pc.produced)])
  }

  ghost function After(plan: Plan, ops: seq<Op>, s: State, step: Step): State
    requires Enabled(plan, ops, s, step)
  {
    match step
    case Begins(w) => s.(workers := s.workers[w := Worker(Preload(0), map[])])
    case Preloads(w) => AfterPreload(ops, s, w)
    case Loads(w) => AfterLoad(ops, s, w)
    case Locks(w, readAt, now) =>
      var i := s.workers[w].pc.i;
      if LockFree(s, ops[i], now) then
        Move(s.(table := s.table[ops[i] := InProgress(readAt + LEASE)]), w, Run(i, readAt + LEASE, Begin))
      else Move(s, w, Done(false))
    case Calls(w, id) => AfterCall(plan, ops, s, w, id)
    case Commits(w) => AfterCommit(ops, s, w)
    case Aborts(w) => Move(s.(table := s.table[ops[s.workers[w].pc.i] := FailedEntry]), w, Done(false))
    case Activates(w) => Move(s.(effective := Set(EffectiveFrom(plan, s.workers[w].outputs))), w, Done(true))
    case CallFails(w) => Move(s, w, Abort(s.workers[w].pc.i, s.workers[w].pc.lease))
    case CallAnswerLost(w, id) =>
      Move(s.(directory := CallAt(plan, ops, s, w, id).directory), w, Abort(s.workers[w].pc.i, s.workers[w].pc.lease))
    case CommitFails(w) => Move(s, w, Abort(s.workers[w].pc.i, s.workers[w].pc.lease))
    case CommitAnswerLost(w) => Move(AfterCommit(ops, s, w), w, Abort(s.workers[w].pc.i, s.workers[w].pc.lease))
    case LockFails(w, readAt, landed) =>
      var i := s.workers[w].pc.i;
      var written := if landed then s.(table := s.table[ops[i] := InProgress(readAt + LEASE)]) else s;
      Move(written, w, Abort(i, readAt + LEASE))
    case Crash(w) => s.(workers := s.workers - {w})
    case Tick(t) => s.(clock := t)
    case Outside(d) => s.(directory := d)
  }

  // ------------------------------------------------------------------ runs

  /**
   * The timing and delivery assumption: the in-progress put lands (before the lease it writes runs out) or
   * is rejected by its condition, and no holder outlives its lease.
   */
  predicate Timely(s: State, step: Step) {
    match step
    case Locks(_, readAt, _) => s.clock <= readAt + LEASE
    case LockFails(_, _, _) => false
    case Tick(t) => forall w | w in s.workers && Holding(s.workers[w].pc) :: t <= s.workers[w].pc.lease
    case _ => true
  }

  ghost predicate WellPlaced(ops: seq<Op>, s: State) {
    forall w | w in s.workers :: InRange(ops, s.workers[w].pc)
  }

  /** A possible behaviour: each step is enabled where it happens. */
  ghost predicate IsRun(plan: Plan, ops: seq<Op>, s: State, steps: seq<Step>)
    decreases |steps|
  {
    (steps == [] || (Enabled(plan, ops, s, steps[0]) && IsRun(plan, ops, After(plan, ops, s, steps[0]), steps[1..])))
  }

  ghost predicate IsTimelyRun(plan: Plan, ops: seq<Op>, s: State, steps: seq<Step>)
    decreases |steps|
  {
    (steps == [] ||
     (Enabled(plan, ops, s, steps[0]) && Timely(s, steps[0])
      && IsTimelyRun(plan, ops, After(plan, ops, s, steps[0]), steps[1..])))
  }

  /** In addition, no put of the final status is half-acknowledged: when it lands, the worker learns of it. */
  predicate Acknowledged(steps: seq<Step>) { forall step | step in steps :: !step.CommitAnswerLost? }

  ghost function EndOf(plan: Plan, ops: seq<Op>, s: State, steps: seq<Step>): State
    requires IsRun(plan, ops, s, steps)
    decreases |steps|
  {
    if steps == [] then s else EndOf(plan, ops, After(plan, ops, s, steps[0]), steps[1..])
  }

  lemma {:induction false} TimelyRunIsRun(plan: Plan, ops: seq<Op>, s: State, steps: seq<Step>)
    requires IsTimelyRun(plan, ops, s, steps)
    ensures IsRun(plan, ops, s, steps)
    decreases |steps|
  {
    hide Enabled, After, Timely;
    if steps != [] { TimelyRunIsRun(plan, ops, After(plan, ops, s, steps[0]), steps[1..]); }
  }

  /** One more step at the end of a run. */
  lemma {:induction false} RunExtends(plan: Plan, ops: seq<Op>, s: State, steps: seq<Step>, step: Step)
    requires IsRun(plan, ops, s, steps) && Enabled(plan, ops, EndOf(plan, ops, s, steps), step)
    ensures IsRun(plan, ops, s, steps + [step])
    ensures EndOf(plan, ops, s, steps + [step]) == After(plan, ops, EndOf(plan, ops, s, steps), step)
    ensures IsTimelyRun(plan, ops, s, steps) && Timely(EndOf(plan, ops, s, steps), step) ==>
      IsTimelyRun(plan, ops, s, steps + [step])
    decreases |steps|
  {
    hide Enabled, After, Timely;
    var all := steps + [step];
    if steps == [] {
      assert all[1..] == [];
    } else {
      assert all[0] == steps[0] && all[1..] == steps[1..] + [step];
      RunExtends(plan, ops, After(plan, ops, s, steps[0]), steps[1..], step);
    }
  }

  /** Every step keeps program counters inside the operation list, so every enabled step can be taken. */
  lemma StepStaysPlaced(plan: Plan, ops: seq<Op>, s: State, step: Step)
    requires WellPlaced(ops, s) && Enabled(plan, ops, s, step)
    ensures WellPlaced(ops, After(plan, ops, s, step))
  {
    hide Call, Sanitize, EffectiveFrom, Foreign;
  }

  /** Nothing has happened yet and nobody has a resource the plan names, except the pool the profile names. */
  ghost predicate Initial(plan: Plan, ops: seq<Op>, s: State) {
    && Lists(plan, ops)
    && s.table == map[] && s.effective == Unset && s.workers == map[]
    && (forall p | p in s.directory.pools && s.directory.pools[p].name == plan.poolName ::
          p == plan.expectedPoolId != "")
    && (forall i | i in s.directory.clients :: s.directory.clients[i].name != plan.clientName)
    && plan.domainPrefix !in s.directory.domains
    && (plan.expectedPoolId != "" ==> Present(plan.expectedPoolId))
  }

}
