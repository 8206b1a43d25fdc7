/** The provisioning plan of auth_service.py: operations, their outputs, and the planner. */
module Provisioning {
  import opened Text

  /** The operations the executor knows, in the order the planner lists them. */
  datatype Op =
    | UserPool | EnvironmentAttribute | MfaConfig | HostedUiDomain
    | PublicClient | UserGroups | SocialProviders | Finalize

  datatype Status = Planned | Provisioning | Active | Suspended | Failed

  /** Keys of the `operation_outputs` dictionary and of the nested activation record. */
  datatype Key =
    | UserPoolId | Issuer | UserEnvironmentAttribute | MfaConfiguration | SoftwareTokenMfaEnabled
    | HostedUiDomainPrefix | HostedUiDomainUrl | UserPoolClientId | ClientId
    | Groups | CreatedGroups | IdentityProviders | Activation | ActivationStatus

  datatype Value = Text(text: string) | Flag(flag: bool) | Texts(texts: seq<string>) | Record(fields: map<Key, Value>)

  type Outputs = map<Key, Value>

  datatype Provider = Provider(name: string, enabled: bool)

  /** The reconciliation tags of a user pool: managedBy, domain, tenantId, authProfileId. */
  datatype Tags = Tags(managedBy: string, domain: string, tenantId: string, authProfileId: string)

  datatype Plan = Plan(
    status: Status,
    environmentAttribute: string,  // "" when the profile declares no environment claim
    mfaMode: string,
    totpEnabled: bool,
    providers: seq<Provider>,
    groups: seq<string>,
    domainPrefix: string,          // "" when the hosted UI host is missing
    expectedPoolId: string,        // "" when the profile names no user pool
    poolName: string,
    clientName: string,
    tags: Tags,
    region: string,
    configHash: string)

  datatype Operation = Operation(id: Op, expectedStatus: Status, dependsOn: seq<Op>)

  predicate MfaEnabled(mode: string) { mode != "off" }

  // ---------------------------------------------------------------- planner

  function Rank(op: Op): nat {
    match op
    case UserPool => 0 case EnvironmentAttribute => 1 case MfaConfig => 2 case HostedUiDomain => 3
    case PublicClient => 4 case UserGroups => 5 case SocialProviders => 6 case Finalize => 7
  }

  /** Which operations a plan must contain, stated without the order or the branches of the planner. */
  predicate Wanted(plan: Plan, op: Op) {
    var claim, mfa := plan.environmentAttribute != "", MfaEnabled(plan.mfaMode);
    match plan.status
    case Active => (op == UserPool && (claim || mfa)) || (op == EnvironmentAttribute && claim)
      || (op == MfaConfig && mfa)
    case Suspended => false
    case Failed => false
    case _ =>
      match op
      case EnvironmentAttribute => claim
      case MfaConfig => mfa
      case SocialProviders => plan.providers != []
      case _ => true
  }

  /** The outputs an operation refuses to run without (`_required_output`). */
  function Reads(op: Op): set<Key> {
    match op
    case UserPool => {}
    case SocialProviders => {UserPoolId, UserPoolClientId}
    case Finalize => {UserPoolId, UserPoolClientId, HostedUiDomainUrl}
    case _ => {UserPoolId}
  }

  /** The one operation that writes a given output key. */
  function Owner(k: Key): Op {
    match k
    case UserPoolId => UserPool case Issuer => UserPool
    case UserEnvironmentAttribute => EnvironmentAttribute
    case MfaConfiguration => MfaConfig case SoftwareTokenMfaEnabled => MfaConfig
    case HostedUiDomainPrefix => HostedUiDomain case HostedUiDomainUrl => HostedUiDomain
    case UserPoolClientId => PublicClient case ClientId => PublicClient
    case Groups => UserGroups case CreatedGroups => UserGroups
    case IdentityProviders => SocialProviders
    case Activation => Finalize case ActivationStatus => Finalize
  }

  /** An operation list is exactly the wanted operations, in rank order and so without repetition. */
  ghost predicate Lists(plan: Plan, ops: seq<Op>) {
    && (forall op :: op in ops <==> Wanted(plan, op))
    && (forall i, j | 0 <= i < j < |ops| :: Rank(ops[i]) < Rank(ops[j]))
  }

  function Ids(operations: seq<Operation>): (ids: seq<Op>)
    ensures |ids| == |operations|
    ensures forall i | 0 <= i < |ids| :: ids[i] == operations[i].id
  {
    seq(|operations|, i requires 0 <= i < |operations| => operations[i].id)
  }

  /** What an operation other than `Finalize` depends on. */
  function Dependencies(plan: Plan, op: Op): seq<Op> {
    match op
    case UserPool => []
    case PublicClient => [UserPool] + if plan.environmentAttribute != "" then [EnvironmentAttribute] else []
    case UserGroups => [PublicClient]
    case SocialProviders => [PublicClient]
    case _ => [UserPool]
  }

  ghost predicate RankOrdered(ops: seq<Op>) {
    forall i, j | 0 <= i < j < |ops| :: Rank(ops[i]) < Rank(ops[j])
  }

  /** The status and the dependencies of a planned operation; `Finalize` depends on all the others, in order. */
  ghost predicate WellFormed(plan: Plan, o: Operation) {
    && (o.expectedStatus == if plan.status == Active || o.id == Finalize then Active else Provisioning)
    && if o.id == Finalize then
         RankOrdered(o.dependsOn) && forall d :: d in o.dependsOn <==> Wanted(plan, d) && d != Finalize
       else o.dependsOn == Dependencies(plan, o.id)
  }

  /** The planner's progress: exactly the wanted operations of rank below `n` are listed, in rank order. */
  ghost predicate ListsBelow(plan: Plan, operations: seq<Operation>, n: nat) {
    var ids := Ids(operations);
    && (forall op :: op in ids <==> Wanted(plan, op) && Rank(op) < n)
    && (forall i, j | 0 <= i < j < |ids| :: Rank(ids[i]) < Rank(ids[j]))
    && (forall o | o in operations :: WellFormed(plan, o))
  }

  /** No operation of rank from `n` up to `m` is wanted. */
  ghost predicate Gap(plan: Plan, n: nat, m: nat) {
    forall op | n <= Rank(op) < m :: !Wanted(plan, op)
  }

  lemma Append(plan: Plan, operations: seq<Operation>, n: nat, o: Operation)
    requires ListsBelow(plan, operations, n) && n <= Rank(o.id) && Gap(plan, n, Rank(o.id))
    requires Wanted(plan, o.id) && WellFormed(plan, o)
    ensures ListsBelow(plan, operations + [o], Rank(o.id) + 1)
  {
    var ids := Ids(operations);
    var longer := Ids(operations + [o]);
    assert longer == ids + [o.id];
    assert forall i | 0 <= i < |ids| :: ids[i] in ids;
  }

  /** The fixed part of a setup plan: these operations are wanted and follow each other. */
  lemma SetupOperation(plan: Plan, o: Operation)
    requires plan.status in {Planned, Provisioning} && o.expectedStatus == Provisioning
    requires o.id in {HostedUiDomain, PublicClient, UserGroups} || (o.id == SocialProviders && plan.providers != [])
    requires o.dependsOn == Dependencies(plan, o.id)
    ensures Wanted(plan, o.id) && WellFormed(plan, o) && Gap(plan, Rank(o.id), Rank(o.id))
  {
  }

  lemma FinalizeWellFormed(plan: Plan, operations: seq<Operation>, n: nat)
    requires ListsBelow(plan, operations, n) && plan.status in {Planned, Provisioning}
    requires n == if plan.providers != [] then 7 else 6
    ensures Gap(plan, n, 7)
    ensures WellFormed(plan, Operation(Finalize, Active, Ids(operations))) && Wanted(plan, Finalize)
  {
  }

  lemma Finish(plan: Plan, operations: seq<Operation>, n: nat)
    requires ListsBelow(plan, operations, n) && Gap(plan, n, 8)
    ensures Lists(plan, Ids(operations))
    ensures forall o | o in operations :: WellFormed(plan, o)
  {
  }

  /** `_plan_operation` followed by the append. */
  method Add(plan: Plan, operations: seq<Operation>, ghost n: nat, o: Operation) returns (longer: seq<Operation>)
    requires ListsBelow(plan, operations, n) && n <= Rank(o.id) && Gap(plan, n, Rank(o.id))
    requires Wanted(plan, o.id) && WellFormed(plan, o)
    ensures longer == operations + [o] && ListsBelow(plan, longer, Rank(o.id) + 1)
  {
    Append(plan, operations, n, o);
    longer := operations + [o];
  }

  method ProvisioningOperations(plan: Plan) returns (operations: seq<Operation>)
    ensures Lists(plan, Ids(operations))
    ensures forall o | o in operations :: WellFormed(plan, o)
  {
    if plan.status == Active {
      operations := ActiveOperations(plan);
    } else if plan.status in {Suspended, Failed} {
      operations := [];
    } else {
      operations := SetupOperations(plan);
    }
  }

  method ActiveOperations(plan: Plan) returns (operations: seq<Operation>)
    requires plan.status == Active
    ensures Lists(plan, Ids(operations))
    ensures forall o | o in operations :: WellFormed(plan, o)
  {
    operations := CoreOperations(plan, Active);
    Finish(plan, operations, 3);
  }

  /** The pool, attribute and MFA operations, which both branches of the planner build alike. */
  method CoreOperations(plan: Plan, expected: Status) returns (operations: seq<Operation>)
    requires plan.status in {Planned, Provisioning, Active}
    requires expected == if plan.status == Active then Active else Provisioning
    ensures ListsBelow(plan, operations, 3)
  {
    var claim, mfa := plan.environmentAttribute != "", MfaEnabled(plan.mfaMode);
    operations := [];
    if plan.status != Active || claim || mfa {
      operations := Add(plan, operations, 0, Operation(UserPool, expected, []));
    }
    assert ListsBelow(plan, operations, 1);
    if claim {
      operations := Add(plan, operations, 1, Operation(EnvironmentAttribute, expected, [UserPool]));
    }
    assert ListsBelow(plan, operations, 2);
    if mfa {
      operations := Add(plan, operations, 2, Operation(MfaConfig, expected, [UserPool]));
    }
  }

  method SetupOperations(plan: Plan) returns (operations: seq<Operation>)
    requires plan.status in {Planned, Provisioning}
    ensures Lists(plan, Ids(operations))
    ensures forall o | o in operations :: WellFormed(plan, o)
  {
    hide ListsBelow, Lists, WellFormed, Gap, Wanted;
    operations := CoreOperations(plan, Provisioning);
    var publicClientDependencies := [UserPool] + if plan.environmentAttribute != "" then [EnvironmentAttribute] else [];
    var domain := Operation(HostedUiDomain, Provisioning, [UserPool]);
    var client := Operation(PublicClient, Provisioning, publicClientDependencies);
    var groups := Operation(UserGroups, Provisioning, [PublicClient]);
    SetupOperation(plan, domain);
    operations := Add(plan, operations, 3, domain);
    SetupOperation(plan, client);
    operations := Add(plan, operations, 4, client);
    SetupOperation(plan, groups);
    operations := Add(plan, operations, 5, groups);
    ghost var n := 6;
    if plan.providers != [] {
      var social := Operation(SocialProviders, Provisioning, [PublicClient]);
      SetupOperation(plan, social);
      operations := Add(plan, operations, 6, social);
      n := 7;
    }
    FinalizeWellFormed(plan, operations, n);
    operations := Add(plan, operations, n, Operation(Finalize, Active, Ids(operations)));
    Finish(plan, operations, 8);
  }

  // ------------------------------------------------ facts about every plan

  /** `Lists` determines the list, so every theorem about `ops` is about the planner's own output. */
  lemma {:induction false} ListIsUnique(plan: Plan, xs: seq<Op>, ys: seq<Op>)
    requires Lists(plan, xs) && Lists(plan, ys)
    ensures xs == ys
  {
    RankOrderUnique(xs, ys);
  }

  lemma {:induction false} RankOrderUnique(xs: seq<Op>, ys: seq<Op>)
    requires forall op :: op in xs <==> op in ys
    requires forall i, j | 0 <= i < j < |xs| :: Rank(xs[i]) < Rank(xs[j])
    requires forall i, j | 0 <= i < j < |ys| :: Rank(ys[i]) < Rank(ys[j])
    ensures xs == ys
  {
    assert xs == [] || xs[0] in xs;
    assert ys == [] || ys[0] in ys;
    if xs != [] && ys != [] {
      var x', y' := xs[1..], ys[1..];
      forall op ensures op in x' <==> op in y' {
        if op in x' { var i :| 0 <= i < |x'| && x'[i] == op; assert xs[i + 1] == op && op in ys; }
        if op in y' { var i :| 0 <= i < |y'| && y'[i] == op; assert ys[i + 1] == op && op in xs; }
      }
      RankOrderUnique(x', y');
    }
  }

  /** And each operation of it, so the contract determines all that the planner returns. */
  lemma OperationsAreUnique(plan: Plan, xs: seq<Operation>, ys: seq<Operation>)
    requires Lists(plan, Ids(xs)) && (forall o | o in xs :: WellFormed(plan, o))
    requires Lists(plan, Ids(ys)) && (forall o | o in ys :: WellFormed(plan, o))
    ensures xs == ys
  {
    ListIsUnique(plan, Ids(xs), Ids(ys));
    assert |xs| == |Ids(xs)| == |Ids(ys)| == |ys|;
    forall i | 0 <= i < |xs| ensures xs[i] == ys[i] {
      assert Ids(xs)[i] == xs[i].id && Ids(ys)[i] == ys[i].id;
      assert WellFormed(plan, xs[i]) && WellFormed(plan, ys[i]);
      if xs[i].id == Finalize { RankOrderUnique(xs[i].dependsOn, ys[i].dependsOn); }
    }
  }

  /** What an operation depends on is wanted with it, and of lower rank. */
  lemma DependenciesWanted(plan: Plan, o: Operation)
    requires Wanted(plan, o.id) && WellFormed(plan, o)
    ensures forall d | d in o.dependsOn :: Wanted(plan, d) && Rank(d) < Rank(o.id)
  {
  }

  /** Every dependency names an operation listed earlier; `Finalize` is last and depends on all the others. */
  lemma DependenciesComeEarlier(plan: Plan, operations: seq<Operation>, i: nat, d: Op)
    requires Lists(plan, Ids(operations)) && i < |operations| && WellFormed(plan, operations[i])
    ensures d in operations[i].dependsOn ==> d in Ids(operations)[..i]
    ensures operations[i].id == Finalize ==>
      i == |operations| - 1 && (d in operations[i].dependsOn <==> d in Ids(operations)[..i])
  {
    var ids := Ids(operations);
    assert ids[i] == operations[i].id && ids[i] in ids;
    DependenciesWanted(plan, operations[i]);
    if d in operations[i].dependsOn {
      assert d in ids;
      var j :| 0 <= j < |ids| && ids[j] == d;
      assert j < i && ids[..i][j] == d;
    }
    if operations[i].id == Finalize && d in ids[..i] {
      var j :| 0 <= j < i && ids[j] == d;
      assert d in ids && Rank(d) < Rank(Finalize);
    }
    var last := |ids| - 1;
    assert i < last ==> Rank(ids[i]) < Rank(ids[last]);
  }

  /** Every output an operation requires is written by an operation listed before it. */
  lemma RequiredOutputsComeEarlier(plan: Plan, ops: seq<Op>, i: nat, k: Key) returns (j: nat)
    requires Lists(plan, ops) && i < |ops| && k in Reads(ops[i])
    ensures j < i && ops[j] == Owner(k)
  {
    assert ops[i] in ops && Wanted(plan, Owner(k));
    j :| 0 <= j < |ops| && ops[j] == Owner(k);
  }

  // -------------------------------------------------------------- sanitizer

  /** The keys `_sanitize_apply_outputs` keeps; the environment attribute and the nested status are dropped. */
  predicate Stored(k: Key) { k != UserEnvironmentAttribute && k != ActivationStatus }

  predicate Blank(s: string) { Strip(s) == "" }

  function NonBlank(xs: seq<string>): seq<string> {
    if xs == [] then [] else (if Blank(xs[0]) then [] else [xs[0]]) + NonBlank(xs[1..])
  }

  function SanitizeValue(v: Value): (r: Value)
    ensures v.Text? || v.Flag? ==> r == v
    ensures r.Text? || r.Flag? ==> r == v
  {
    match v
    case Texts(xs) => Texts(NonBlank(xs))
    case Record(m) => Record(map k | k in m && Stored(k) :: SanitizeValue(m[k]))
    case _ => v
  }

  function Sanitize(outputs: Outputs): (r: Outputs)
    ensures forall k :: k in r <==> k in outputs && Stored(k)
    ensures forall k | k in r :: r[k] == SanitizeValue(outputs[k])
  {
    map k | k in outputs && Stored(k) :: SanitizeValue(outputs[k])
  }

  lemma {:induction false} NonBlankIdempotent(xs: seq<string>)
    ensures NonBlank(NonBlank(xs)) == NonBlank(xs)
  {
    if xs != [] {
      var rest := NonBlank(xs[1..]);
      NonBlankIdempotent(xs[1..]);
      if Blank(xs[0]) {
        assert NonBlank(xs) == rest;
      } else {
        assert ([xs[0]] + rest)[1..] == rest;
      }
    }
  }

  /** A record read back from the state table sanitizes to itself. */
  lemma {:induction false} SanitizeValueIdempotent(v: Value)
    ensures SanitizeValue(SanitizeValue(v)) == SanitizeValue(v)
  {
    match v
    case Texts(xs) => NonBlankIdempotent(xs);
    case Record(m) =>
      forall k | k in m ensures SanitizeValue(SanitizeValue(m[k])) == SanitizeValue(m[k]) {
        SanitizeValueIdempotent(m[k]);
      }
      var once := SanitizeValue(v).fields;
      assert SanitizeValue(SanitizeValue(v)).fields == once;
    case _ =>
  }

  lemma SanitizeIdempotent(outputs: Outputs)
    ensures Sanitize(Sanitize(outputs)) == Sanitize(outputs)
  {
    forall k | k in outputs ensures SanitizeValue(SanitizeValue(outputs[k])) == SanitizeValue(outputs[k]) {
      SanitizeValueIdempotent(outputs[k]);
    }
  }

  /** The sanitizer keeps every key that a later operation or the effective record reads. */
  lemma RequiredOutputsAreStored(op: Op, k: Key)
    requires k in Reads(op)
    ensures Stored(k) && Owner(k) != op
  {
  }

}
