/** `review_inventory` of tools/thn_production_release.py: the gate over a change set's resource changes. */
module ChangeInventory {
  import opened Json
  import opened Simulation
  import opened Sorting
  import opened Templates

  datatype Scope = State | Activate | General | Recover

  const DEPENDENCIES := {"AWS::Lambda::Permission", "AWS::Lambda::Url", "AWS::Lambda::ResourcePolicy"}

  const RESOURCE_TYPES := {
    "AWS::Lambda::Function", "AWS::Lambda::Version", "AWS::Lambda::Alias", "AWS::Lambda::Permission",
    "AWS::Lambda::Url", "AWS::Lambda::ResourcePolicy", "AWS::DynamoDB::Table", "AWS::S3::Bucket",
    "AWS::S3::BucketPolicy", "AWS::IAM::Role", "AWS::IAM::Policy", "AWS::Logs::LogGroup", "AWS::Cognito::UserPool",
    "AWS::Cognito::UserPoolClient", "AWS::Cognito::UserPoolGroup", "AWS::ApiGatewayV2::Api",
    "AWS::ApiGatewayV2::Stage", "AWS::ApiGatewayV2::Authorizer", "AWS::ApiGatewayV2::Integration",
    "AWS::ApiGatewayV2::Route", "AWS::ApiGateway::RestApi", "AWS::ApiGateway::Stage",
    "AWS::ApiGateway::Deployment", "AWS::CloudWatch::Alarm", "AWS::SNS::Topic", "AWS::SNS::Subscription",
    "AWS::Events::Rule"}

  const STATEFUL := {
    "AWS::DynamoDB::Table", "AWS::S3::Bucket", "AWS::Cognito::UserPool", "AWS::Cognito::UserPoolClient",
    "AWS::Logs::LogGroup"}

  const VERSION := "AWS::Lambda::Version"

  function Change(item: Json): Json { Get(item, "ResourceChange") }

  function Logical(item: Json): Json { Get(Change(item), "LogicalResourceId") }

  function Kind(item: Json): Json { Get(Change(item), "ResourceType") }

  function Action(item: Json): Json { Get(Change(item), "Action") }

  /** The announced replacement, "False" when the change has none. */
  function Replacement(item: Json): Json {
    if "Replacement" in Fields(Change(item)) then Get(Change(item), "Replacement") else Str("False")
  }

  function At(rs: map<string, Json>, name: Json): Json {
    if name.Str? && name.s in rs then rs[name.s] else Null
  }

  predicate RetainedBothWays(resource: Json) {
    Get(resource, "DeletionPolicy") == Str("Retain") && Get(resource, "UpdateReplacePolicy") == Str("Retain")
  }

  /** The resources that the private purposes may touch. */
  predicate InFamily(name: string, kind: Json, target: Json) {
    || "Thn" <= name || "ServiceBinding" <= name
    || (kind == Str("AWS::ApiGatewayV2::Api") && name == "ContentHubApi")
    || (kind == Str("AWS::ApiGatewayV2::Stage") && name == "ContentHubApiprodStage"
        && Get(Properties(target), "ApiId") == Obj(map["Ref" := Str("ContentHubApi")])
        && Get(Properties(target), "StageName") == Str("prod"))
  }

  /** The settings an added stateful resource needs besides its policies. */
  predicate Protected(kind: Json, props: Json) {
    if kind == Str("AWS::DynamoDB::Table") then
      && Get(props, "DeletionProtectionEnabled") == Bool(true)
      && Get(Get(props, "PointInTimeRecoverySpecification"), "PointInTimeRecoveryEnabled") == Bool(true)
    else if kind == Str("AWS::Cognito::UserPool") then
      Get(props, "DeletionProtection") == Str("ACTIVE") && Get(props, "MfaConfiguration") == Str("ON")
    else if kind == Str("AWS::S3::Bucket") then
      && Get(Get(props, "VersioningConfiguration"), "Status") == Str("Enabled")
      && forall k | k in {"BlockPublicAcls", "IgnorePublicAcls", "BlockPublicPolicy", "RestrictPublicBuckets"} ::
           Get(Get(props, "PublicAccessBlockConfiguration"), k) == Bool(true)
    else true
  }

  predicate RemovalAllowed(item: Json, previous: map<string, Json>) {
    Kind(item) == Str(VERSION) && Get(At(previous, Logical(item)), "DeletionPolicy") == Str("Retain")
  }

  predicate EditAllowed(item: Json, previous: map<string, Json>, candidate: map<string, Json>, scope: Scope) {
    var logical, kind, target := Logical(item), Kind(item), At(candidate, Logical(item));
    && Action(item) in {Str("Add"), Str("Modify")} && logical.Str? && logical.s in candidate
    && Get(target, "Type") == kind
    && (Replacement(item) != Str("False") ==>
          && Replacement(item) == Str("Conditional") && kind.Str? && kind.s in DEPENDENCIES
          && Properties(At(previous, logical)) == Properties(target))
    && (scope in {State, Activate} ==> InFamily(logical.s, kind, target))
    && (Action(item) == Str("Add") && kind.Str? && kind.s in STATEFUL ==>
          RetainedBothWays(target) && Protected(kind, Properties(target)))
  }

  /** The checks on one change, apart from `seen`. */
  predicate ItemAllowed(item: Json, previous: map<string, Json>, candidate: map<string, Json>, scope: Scope) {
    && Logical(item).Str? && Kind(item).Str? && Kind(item).s in RESOURCE_TYPES
    && if Action(item) == Str("Remove") then RemovalAllowed(item, previous)
       else EditAllowed(item, previous, candidate, scope)
  }

  predicate OneChangeEach(changes: seq<Json>) {
    forall i, j | 0 <= i < j < |changes| :: Logical(changes[i]) != Logical(changes[j])
  }

  predicate Accepted(changes: seq<Json>, current: Json, proposed: Json, scope: Scope) {
    && OneChangeEach(changes)
    && forall c | c in changes :: ItemAllowed(c, Resources(current), Resources(proposed), scope)
  }

  datatype Option<T> = None | Some(value: T)

  /** The loop of `review_inventory` with its `seen` set. */
  method CheckItems(changes: seq<Json>, previous: map<string, Json>, candidate: map<string, Json>, scope: Scope)
      returns (ok: bool)
    ensures ok <==> OneChangeEach(changes) && forall c | c in changes :: ItemAllowed(c, previous, candidate, scope)
  {
    hide ItemAllowed, Logical;
    var seen := {};
    for i := 0 to |changes|
      invariant seen == set j | 0 <= j < i :: Logical(changes[j])
      invariant forall j, k | 0 <= j < k < i :: Logical(changes[j]) != Logical(changes[k])
      invariant forall j | 0 <= j < i :: ItemAllowed(changes[j], previous, candidate, scope)
    {
      var item := changes[i];
      assert item in changes;
      if Logical(item) in seen { return false; }
      if !ItemAllowed(item, previous, candidate, scope) { return false; }
      seen := seen + {Logical(item)};
    }
    return true;
  }

  /** `review_inventory`: every change is checked, then a sorted copy is returned. */
  method ReviewInventory(changes: seq<Json>, current: Json, proposed: Json, scope: Scope, canonical: Json -> string)
      returns (r: Option<seq<Json>>)
    ensures r == if Accepted(changes, current, proposed, scope) then Some(Sort(changes, canonical)) else None
  {
    hide ItemAllowed, OneChangeEach;
    var ok := CheckItems(changes, Resources(current), Resources(proposed), scope);
    r := if ok then Some(Sort(changes, canonical)) else None;
  }

  // ---------------------------------------------------------------- order

  lemma OneChangeEachKept(a: seq<Json>, b: seq<Json>)
    requires multiset(a) == multiset(b) && OneChangeEach(a)
    ensures OneChangeEach(b)
  {
    hide Logical;
    forall i, j | 0 <= i < j < |b| ensures Logical(b[i]) != Logical(b[j]) {
      Twice(b, i, j);
      var k, m := TwoPositions(a, b[i], b[j]);
      assert Logical(a[k]) != Logical(a[m]);
    }
  }

  lemma AcceptedKept(a: seq<Json>, b: seq<Json>, current: Json, proposed: Json, scope: Scope)
    requires multiset(a) == multiset(b) && Accepted(a, current, proposed, scope)
    ensures Accepted(b, current, proposed, scope)
  {
    hide ItemAllowed;
    OneChangeEachKept(a, b);
    forall c | c in b ensures ItemAllowed(c, Resources(current), Resources(proposed), scope) {
      assert c in multiset(b);
      assert c in a;
    }
  }

  /** The verdict and the returned list are the same for every order of the changes. */
  lemma OrderDoesNotMatter(a: seq<Json>, b: seq<Json>, current: Json, proposed: Json, scope: Scope,
      canonical: Json -> string)
    requires multiset(a) == multiset(b) && Faithful(canonical)
    ensures Accepted(a, current, proposed, scope) <==> Accepted(b, current, proposed, scope)
    ensures Sort(a, canonical) == Sort(b, canonical)
  {
    hide Accepted;
    if Accepted(a, current, proposed, scope) { AcceptedKept(a, b, current, proposed, scope); }
    if Accepted(b, current, proposed, scope) { AcceptedKept(b, a, current, proposed, scope); }
    SortForgetsOrder(a, b, canonical);
  }

  // ----------------------------------------------------- applying the changes

  /** The stack's resources after one change. */
  function ApplyOne(live: map<string, Json>, item: Json, candidate: map<string, Json>): map<string, Json> {
    if !Logical(item).Str? then live
    else if Action(item) == Str("Remove") then live - {Logical(item).s}
    else if Logical(item).s in candidate then live[Logical(item).s := candidate[Logical(item).s]]
    else live
  }

  function Apply(live: map<string, Json>, changes: seq<Json>, candidate: map<string, Json>): map<string, Json>
    decreases |changes|
  {
    if changes == [] then live else Apply(ApplyOne(live, changes[0], candidate), changes[1..], candidate)
  }

  /** The change that names a resource. */
  predicate Names(item: Json, name: string) { Logical(item) == Str(name) }

  /** A resource that no change names is untouched; every other one is as its own change says. */
  lemma {:induction false} ApplyAt(live: map<string, Json>, changes: seq<Json>, candidate: map<string, Json>,
      name: string)
    requires OneChangeEach(changes)
    ensures var after := Apply(live, changes, candidate);
      && ((forall c | c in changes :: !Names(c, name)) ==>
            (name in after <==> name in live) && (name in live ==> after[name] == live[name]))
      && forall c | c in changes && Names(c, name) ::
           if Action(c) == Str("Remove") then name !in after
           else if name in candidate then name in after && after[name] == candidate[name]
           else (name in after <==> name in live) && (name in live ==> after[name] == live[name])
    decreases |changes|
  {
    if changes != [] {
      var c, rest, next := changes[0], changes[1..], ApplyOne(live, changes[0], candidate);
      assert OneChangeEach(rest) by {
        forall i, j | 0 <= i < j < |rest| ensures Logical(rest[i]) != Logical(rest[j]) {
          assert rest[i] == changes[i + 1] && rest[j] == changes[j + 1];
        }
      }
      ApplyAt(next, rest, candidate, name);
      assert changes == [c] + rest;
      if Names(c, name) {
        forall d | d in rest ensures !Names(d, name) {
          var i :| 0 <= i < |rest| && rest[i] == d;
          assert changes[i + 1] == d;
        }
      }
    }
  }

  // ------------------------------------------------------------------ theorems

  lemma ItemOf(changes: seq<Json>, current: Json, proposed: Json, scope: Scope, c: Json)
    requires Accepted(changes, current, proposed, scope) && c in changes
    ensures ItemAllowed(c, Resources(current), Resources(proposed), scope)
  {
  }

  /**
   * Applying an accepted list loses only resources that a `Remove` of a Lambda version names and the template
   * retains.
   */
  lemma OnlyRetainedVersionsAreLost(changes: seq<Json>, current: Json, proposed: Json, scope: Scope, name: string)
    requires Accepted(changes, current, proposed, scope)
    requires name in Resources(current) && name !in Apply(Resources(current), changes, Resources(proposed))
    ensures Get(Resources(current)[name], "DeletionPolicy") == Str("Retain")
    ensures exists c | c in changes :: Names(c, name) && Action(c) == Str("Remove") && Kind(c) == Str(VERSION)
  {
    ApplyAt(Resources(current), changes, Resources(proposed), name);
    hide Apply, ItemAllowed, OneChangeEach;
    var c :| c in changes && Names(c, name);
    ItemOf(changes, current, proposed, scope, c);
    RemovedAllowed(c, name, Resources(current), Resources(proposed), scope);
  }

  lemma RemovedAllowed(c: Json, name: string, previous: map<string, Json>, candidate: map<string, Json>, scope: Scope)
    requires ItemAllowed(c, previous, candidate, scope) && Names(c, name) && name in previous
    ensures Action(c) != Str("Remove") ==> name in candidate
    ensures Action(c) == Str("Remove") ==>
      Kind(c) == Str(VERSION) && Get(previous[name], "DeletionPolicy") == Str("Retain")
  {
  }

  /** A removal announces the type of the resource it removes. */
  predicate RemovalsTyped(changes: seq<Json>, current: Json) {
    forall c | c in changes && Action(c) == Str("Remove") && Logical(c).Str? && Logical(c).s in Resources(current) ::
      Get(Resources(current)[Logical(c).s], "Type") == Kind(c)
  }

  predicate LosesOnlyVersions(changes: seq<Json>, current: Json, proposed: Json) {
    forall name | name in Resources(current) && name !in Apply(Resources(current), changes, Resources(proposed)) ::
      Get(Resources(current)[name], "Type") == Str(VERSION)
  }

  /**
   * The gate never compares a removal's announced type with the type in the old template. What is lost are
   * Lambda versions exactly when the announced types are right.
   */
  lemma LostAreVersionsIff(changes: seq<Json>, current: Json, proposed: Json, scope: Scope)
    requires Accepted(changes, current, proposed, scope)
    ensures LosesOnlyVersions(changes, current, proposed) <==> RemovalsTyped(changes, current)
  {
    hide ItemAllowed, Apply, Accepted;
    var live, candidate := Resources(current), Resources(proposed);
    forall name | name in live
      ensures name !in Apply(live, changes, candidate)
        <==> exists c | c in changes :: Names(c, name) && Action(c) == Str("Remove")
    {
      LostIff(changes, current, proposed, scope, name);
    }
    forall c | c in changes && Action(c) == Str("Remove") ensures Kind(c) == Str(VERSION) {
      ItemOf(changes, current, proposed, scope, c);
      RemovalKind(c, live, candidate, scope);
    }
    if LosesOnlyVersions(changes, current, proposed) {
      forall c | c in changes && Action(c) == Str("Remove") && Logical(c).Str? && Logical(c).s in live
        ensures Get(live[Logical(c).s], "Type") == Kind(c)
      {
        assert Names(c, Logical(c).s);
      }
    }
  }

  lemma RemovalKind(c: Json, previous: map<string, Json>, candidate: map<string, Json>, scope: Scope)
    requires ItemAllowed(c, previous, candidate, scope) && Action(c) == Str("Remove")
    ensures Kind(c) == Str(VERSION)
  {
  }

  lemma LostIff(changes: seq<Json>, current: Json, proposed: Json, scope: Scope, name: string)
    requires Accepted(changes, current, proposed, scope) && name in Resources(current)
    ensures name !in Apply(Resources(current), changes, Resources(proposed))
      <==> exists c | c in changes :: Names(c, name) && Action(c) == Str("Remove")
  {
    ApplyAt(Resources(current), changes, Resources(proposed), name);
    hide Apply, ItemAllowed, OneChangeEach;
    forall c | c in changes && Names(c, name) && Action(c) != Str("Remove") ensures name in Resources(proposed) {
      ItemOf(changes, current, proposed, scope, c);
      RemovedAllowed(c, name, Resources(current), Resources(proposed), scope);
    }
  }

  /** Every stateful resource announced as added carries both Retain policies and its own protection. */
  lemma AddedStateIsRetained(changes: seq<Json>, current: Json, proposed: Json, scope: Scope, c: Json)
    requires Accepted(changes, current, proposed, scope) && c in changes
    requires Action(c) == Str("Add") && Kind(c).Str? && Kind(c).s in STATEFUL
    ensures Logical(c).Str? && Logical(c).s in Apply(Resources(current), changes, Resources(proposed))
    ensures var r := Apply(Resources(current), changes, Resources(proposed))[Logical(c).s];
      Get(r, "Type") == Kind(c) && RetainedBothWays(r) && Protected(Kind(c), Properties(r))
  {
    ItemOf(changes, current, proposed, scope, c);
    AddAllowed(c, Resources(current), Resources(proposed), scope);
    hide ItemAllowed, Apply, Protected;
    ApplyAt(Resources(current), changes, Resources(proposed), Logical(c).s);
    assert Names(c, Logical(c).s);
  }

  lemma AddAllowed(c: Json, previous: map<string, Json>, candidate: map<string, Json>, scope: Scope)
    requires ItemAllowed(c, previous, candidate, scope) && Action(c) == Str("Add") && Kind(c).Str?
      && Kind(c).s in STATEFUL
    ensures Logical(c).Str? && Logical(c).s in candidate && Get(candidate[Logical(c).s], "Type") == Kind(c)
    ensures RetainedBothWays(candidate[Logical(c).s]) && Protected(Kind(c), Properties(candidate[Logical(c).s]))
  {
    hide Protected;
  }

  predicate Stateful(resource: Json) {
    Get(resource, "Type").Str? && Get(resource, "Type").s in STATEFUL
  }

  predicate Safe(resource: Json) {
    RetainedBothWays(resource) && Protected(Get(resource, "Type"), Properties(resource))
  }

  /** Every stateful resource that the stack gains is retained both ways and protected. */
  predicate NewStateIsSafe(changes: seq<Json>, current: Json, proposed: Json) {
    var after := Apply(Resources(current), changes, Resources(proposed));
    forall name | name in after && name !in Resources(current) && Stateful(after[name]) :: Safe(after[name])
  }

  /** The change is an edit of a resource that the old template does not have. */
  predicate Adds(c: Json, current: Json) {
    Action(c) != Str("Remove") && Logical(c).Str? && Logical(c).s !in Resources(current)
  }

  /** An edit that brings in a stateful resource is announced as an addition, or the resource is safe anyway. */
  predicate AdditionsAnnounced(changes: seq<Json>, current: Json, proposed: Json) {
    forall c | c in changes && Adds(c, current) && Stateful(At(Resources(proposed), Logical(c))) ::
      Action(c) == Str("Add") || Safe(At(Resources(proposed), Logical(c)))
  }

  /**
   * The policies are asked for only of changes announced as `Add`, and the announcement is never compared with
   * the old template. All new state is retained and protected exactly when every edit that brings in a
   * stateful resource is announced as an addition or needs no such check.
   */
  lemma NewStateIsSafeIff(changes: seq<Json>, current: Json, proposed: Json, scope: Scope)
    requires Accepted(changes, current, proposed, scope)
    ensures NewStateIsSafe(changes, current, proposed) <==> AdditionsAnnounced(changes, current, proposed)
  {
    hide ItemAllowed, Apply, Accepted, Stateful, Safe;
    var live, candidate := Resources(current), Resources(proposed);
    var after := Apply(live, changes, candidate);
    if AdditionsAnnounced(changes, current, proposed) {
      forall name | name in after && name !in live && Stateful(after[name]) ensures Safe(after[name]) {
        var c := BroughtIn(changes, current, proposed, scope, name);
        if Action(c) == Str("Add") { AnnouncedIsSafe(changes, current, proposed, scope, c); }
      }
    }
    if NewStateIsSafe(changes, current, proposed) {
      forall c | c in changes && Adds(c, current) && Stateful(At(candidate, Logical(c)))
        ensures Safe(At(candidate, Logical(c)))
      {
        EditIsApplied(changes, current, proposed, scope, c);
      }
    }
  }

  /** A resource that the stack gains comes from the edit that names it. */
  lemma BroughtIn(changes: seq<Json>, current: Json, proposed: Json, scope: Scope, name: string) returns (c: Json)
    requires Accepted(changes, current, proposed, scope)
    requires name in Apply(Resources(current), changes, Resources(proposed)) && name !in Resources(current)
    ensures c in changes && Names(c, name) && Adds(c, current) && name in Resources(proposed)
    ensures Apply(Resources(current), changes, Resources(proposed))[name] == At(Resources(proposed), Logical(c))
  {
    ApplyAt(Resources(current), changes, Resources(proposed), name);
    hide Apply, ItemAllowed, OneChangeEach;
    c :| c in changes && Names(c, name);
  }

  lemma EditIsApplied(changes: seq<Json>, current: Json, proposed: Json, scope: Scope, c: Json)
    requires Accepted(changes, current, proposed, scope) && c in changes && Adds(c, current)
    ensures
      var after := Apply(Resources(current), changes, Resources(proposed));
      Logical(c).s in after && after[Logical(c).s] == At(Resources(proposed), Logical(c))
  {
    ItemOf(changes, current, proposed, scope, c);
    EditAt(c, Resources(current), Resources(proposed), scope);
    ApplyAt(Resources(current), changes, Resources(proposed), Logical(c).s);
    hide Apply, ItemAllowed, OneChangeEach;
    assert Names(c, Logical(c).s);
  }

  lemma EditAt(c: Json, previous: map<string, Json>, candidate: map<string, Json>, scope: Scope)
    requires ItemAllowed(c, previous, candidate, scope) && Action(c) != Str("Remove")
    ensures Logical(c).Str? && Logical(c).s in candidate
  {
  }

  lemma AnnouncedIsSafe(changes: seq<Json>, current: Json, proposed: Json, scope: Scope, c: Json)
    requires Accepted(changes, current, proposed, scope) && c in changes && Action(c) == Str("Add")
    requires Stateful(At(Resources(proposed), Logical(c)))
    ensures Safe(At(Resources(proposed), Logical(c)))
  {
    hide Protected, RetainedBothWays, OneChangeEach;
    ItemOf(changes, current, proposed, scope, c);
    AnnouncedKind(c, Resources(current), Resources(proposed), scope);
    AddAllowed(c, Resources(current), Resources(proposed), scope);
  }

  lemma AnnouncedKind(c: Json, previous: map<string, Json>, candidate: map<string, Json>, scope: Scope)
    requires ItemAllowed(c, previous, candidate, scope) && Action(c) == Str("Add")
    ensures Get(At(candidate, Logical(c)), "Type") == Kind(c)
  {
    hide Protected, RetainedBothWays, InFamily;
  }

  /** So when announcements are honest, all new state is retained and protected. */
  lemma HonestAdditionsAreSafe(changes: seq<Json>, current: Json, proposed: Json, scope: Scope)
    requires Accepted(changes, current, proposed, scope)
    requires forall c | c in changes && Adds(c, current) :: Action(c) == Str("Add")
    ensures NewStateIsSafe(changes, current, proposed)
  {
    NewStateIsSafeIff(changes, current, proposed, scope);
    hide Accepted, Stateful, Safe, NewStateIsSafe;
  }

  /** A name that no accepted kind of edit would put into the families. */
  predicate Outside(name: string, proposed: Json) {
    forall kind | kind in RESOURCE_TYPES :: !InFamily(name, Str(kind), At(Resources(proposed), Str(name)))
  }

  /** No removal names a resource outside the families. */
  predicate RemovalsInside(changes: seq<Json>, current: Json, proposed: Json) {
    forall c | c in changes && Action(c) == Str("Remove") && Logical(c).Str? && Logical(c).s in Resources(current) ::
      !Outside(Logical(c).s, proposed)
  }

  predicate OutsideUntouched(changes: seq<Json>, current: Json, proposed: Json) {
    var after := Apply(Resources(current), changes, Resources(proposed));
    forall name | name in Resources(current) && Outside(name, proposed) ::
      name in after && after[name] == Resources(current)[name]
  }

  /**
   * A removal is accepted before its scope is looked at. The private scopes leave everything outside the
   * families untouched exactly when no removal names a resource outside them.
   */
  lemma OutsideUntouchedIff(changes: seq<Json>, current: Json, proposed: Json, scope: Scope)
    requires Accepted(changes, current, proposed, scope) && scope in {State, Activate}
    ensures OutsideUntouched(changes, current, proposed) <==> RemovalsInside(changes, current, proposed)
  {
    hide ItemAllowed, Apply, Accepted, Outside;
    var live, candidate := Resources(current), Resources(proposed);
    forall name | name in live && Outside(name, proposed)
      ensures var after := Apply(live, changes, candidate);
        (name in after && after[name] == live[name]) <==>
          !(exists c | c in changes :: Names(c, name) && Action(c) == Str("Remove"))
    {
      OutsideAt(changes, current, proposed, scope, name);
    }
    if OutsideUntouched(changes, current, proposed) {
      forall c | c in changes && Action(c) == Str("Remove") && Logical(c).Str? && Logical(c).s in live
        ensures !Outside(Logical(c).s, proposed)
      {
        assert Names(c, Logical(c).s);
      }
    }
  }

  lemma OutsideAt(changes: seq<Json>, current: Json, proposed: Json, scope: Scope, name: string)
    requires Accepted(changes, current, proposed, scope) && scope in {State, Activate}
    requires name in Resources(current) && Outside(name, proposed)
    ensures var after := Apply(Resources(current), changes, Resources(proposed));
      (name in after && after[name] == Resources(current)[name]) <==>
        !(exists c | c in changes :: Names(c, name) && Action(c) == Str("Remove"))
  {
    ApplyAt(Resources(current), changes, Resources(proposed), name);
    hide Apply, ItemAllowed, OneChangeEach, Outside;
    forall c | c in changes && Names(c, name) ensures Action(c) == Str("Remove") {
      ItemOf(changes, current, proposed, scope, c);
      OutsideChange(c, name, current, proposed, scope);
    }
  }

  lemma OutsideChange(c: Json, name: string, current: Json, proposed: Json, scope: Scope)
    requires ItemAllowed(c, Resources(current), Resources(proposed), scope) && scope in {State, Activate}
    requires Names(c, name) && name in Resources(current) && Outside(name, proposed)
    ensures Action(c) == Str("Remove")
  {
    hide InFamily;
    assert Kind(c).s in RESOURCE_TYPES;
  }

  // ------------------------------------------------------------ what slips through

  function ChangeOf(name: string, kind: string, action: string): Json {
    Obj(map["ResourceChange" := Obj(map[
      "LogicalResourceId" := Str(name), "ResourceType" := Str(kind), "Action" := Str(action)])])
  }

  function TemplateOf(rs: map<string, Json>): Json { Obj(map["Resources" := Obj(rs)]) }

  /** A removal that calls a retained table a Lambda version passes, even in a private scope. */
  lemma MistypedRemovalPasses(table: Json, current: Json, proposed: Json, c: Json)
    requires table == Obj(map["Type" := Str("AWS::DynamoDB::Table"), "DeletionPolicy" := Str("Retain")])
    requires current == TemplateOf(map["Orders" := table]) && proposed == TemplateOf(map[])
      && c == ChangeOf("Orders", VERSION, "Remove")
    ensures Accepted([c], current, proposed, State) && !LosesOnlyVersions([c], current, proposed)
      && !OutsideUntouched([c], current, proposed)
  {
    hide *;
    ResourcesOf(map["Orders" := table]);
    ResourcesOf(map[]);
    MistypedAllowed(table, c);
    OrdersOutside(proposed);
    AllowedAlone(c, current, proposed, State);
    RemovalLoses(c, current, proposed, State, "Orders");
  }

  lemma AllowedAlone(c: Json, current: Json, proposed: Json, scope: Scope)
    requires ItemAllowed(c, Resources(current), Resources(proposed), scope)
    ensures Accepted([c], current, proposed, scope)
  {
    hide ItemAllowed;
  }

  lemma RemovalLoses(c: Json, current: Json, proposed: Json, scope: Scope, name: string)
    requires Accepted([c], current, proposed, scope) && Logical(c) == Str(name) && Action(c) == Str("Remove")
    requires name in Resources(current) && Get(Resources(current)[name], "Type") != Str(VERSION)
      && Outside(name, proposed)
    ensures !LosesOnlyVersions([c], current, proposed) && !OutsideUntouched([c], current, proposed)
  {
    hide Accepted, Outside, Apply, VERSION;
    assert Names(c, name) && c in [c];
    LostIff([c], current, proposed, scope, name);
  }

  lemma ResourcesOf(rs: map<string, Json>)
    ensures Resources(TemplateOf(rs)) == rs
  {
  }

  lemma MistypedAllowed(table: Json, c: Json)
    requires table == Obj(map["Type" := Str("AWS::DynamoDB::Table"), "DeletionPolicy" := Str("Retain")])
    requires c == ChangeOf("Orders", VERSION, "Remove")
    ensures Get(table, "Type") != Str(VERSION)
    ensures ItemAllowed(c, map["Orders" := table], map[], State)
    ensures Logical(c) == Str("Orders") && Action(c) == Str("Remove")
  {
    assert VERSION in RESOURCE_TYPES;
  }

  lemma OrdersOutside(proposed: Json)
    requires Resources(proposed) == map[]
    ensures Outside("Orders", proposed)
  {
    assert !("Thn" <= "Orders") by { assert "Orders"[0] == 'O'; }
    assert !("ServiceBinding" <= "Orders") by { assert |"ServiceBinding"| > |"Orders"|; }
  }

  /** A new table that is announced as modified is not asked for its policies. */
  lemma MislabelledAdditionPasses(table: Json, c: Json, current: Json, proposed: Json)
    requires table == Obj(map["Type" := Str("AWS::DynamoDB::Table")])
    requires c == ChangeOf("Orders", "AWS::DynamoDB::Table", "Modify")
    requires current == TemplateOf(map[]) && proposed == TemplateOf(map["Orders" := table])
    ensures Accepted([c], current, proposed, General) && !NewStateIsSafe([c], current, proposed)
  {
    hide *;
    ResourcesOf(map["Orders" := table]);
    ResourcesOf(map[]);
    MislabelledAllowed(table, c);
    AllowedAlone(c, current, proposed, General);
    UnsafeAddition(c, current, proposed, General);
  }

  lemma MislabelledAllowed(table: Json, c: Json)
    requires table == Obj(map["Type" := Str("AWS::DynamoDB::Table")])
    requires c == ChangeOf("Orders", "AWS::DynamoDB::Table", "Modify")
    ensures ItemAllowed(c, map[], map["Orders" := table], General)
    ensures Logical(c) == Str("Orders") && Action(c) == Str("Modify") && Stateful(table) && !Safe(table)
  {
    assert "AWS::DynamoDB::Table" in RESOURCE_TYPES && "AWS::DynamoDB::Table" in STATEFUL;
  }

  lemma UnsafeAddition(c: Json, current: Json, proposed: Json, scope: Scope)
    requires Accepted([c], current, proposed, scope) && Logical(c).Str? && Action(c) == Str("Modify")
    requires Logical(c).s in Resources(proposed) && Logical(c).s !in Resources(current)
    requires Stateful(Resources(proposed)[Logical(c).s]) && !Safe(Resources(proposed)[Logical(c).s])
    ensures !NewStateIsSafe([c], current, proposed)
  {
    hide Accepted, Apply, NewStateIsSafe, Stateful, Safe;
    NewStateIsSafeIff([c], current, proposed, scope);
    assert c in [c] && Adds(c, current);
  }
}
