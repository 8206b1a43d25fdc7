/**
 * The loop of `_review` in tools/thn_runtime_routes.py and tools/thn_first_provisioning.py: a change list is
 * accepted only if it is, entry for entry, the difference the composition makes.
 */
module ChangeReview {
  import opened Json
  import opened Routes
  import opened Sorting
  import opened Templates

  /** Python's `not value`. */
  predicate Falsy(j: Json) {
    match j
    case Null => true
    case Bool(b) => !b
    case Num(n) => n == 0
    case Str(s) => s == ""
    case List(items) => items == []
    case Obj(fields) => fields == map[]
  }

  /** What the review knows: the names to be added, the composed resources and the observed inventory. */
  datatype Plan = Plan(additions: set<string>, after: map<string, Json>, inventory: Json)

  predicate Sound(plan: Plan) { API !in plan.additions && STAGE !in plan.additions }

  function Item(change: Json): Json { Get(change, "ResourceChange") }

  function KeyOf(change: Json): string {
    var key := Get(Item(change), "LogicalResourceId");
    if key.Str? then key.s else ""
  }

  function Details(change: Json): seq<Json> {
    var details := Get(Item(change), "Details");
    if details.List? then details.items else []
  }

  /** The one property a modification may touch. */
  function Property(key: string): string { if key == API then "Body" else "DeploymentId" }

  predicate DetailAccepted(detail: Json, key: string) {
    var target := Get(detail, "Target");
    && Get(target, "Attribute") == Str("Properties") && Get(target, "Name") == Str(Property(key))
    && Get(target, "RequiresRecreation") == Str("Never")
  }

  /** The composed resource has a type; without one the look-up raises. */
  predicate HasType(plan: Plan, key: string) { key in plan.after && "Type" in Fields(plan.after[key]) }

  /** The observed inventory has the resource's physical id; without it the look-up raises. */
  predicate Observed(plan: Plan, key: string) {
    key in Fields(plan.inventory) && "physicalId" in Fields(Fields(plan.inventory)[key])
  }

  /** The checks on one change, apart from `seen`. */
  predicate ChangeAccepted(change: Json, plan: Plan) {
    var item, key := Item(change), KeyOf(change);
    && Get(change, "Type") == Str("Resource") && item.Obj? && Get(item, "LogicalResourceId").Str?
    && key in plan.additions + {API, STAGE} && Falsy(Get(item, "ModuleInfo")) && Falsy(Get(item, "ChangeSetId"))
    && HasType(plan, key) && Get(item, "ResourceType") == Get(plan.after[key], "Type")
    && if key in plan.additions then
         && Get(item, "Action") == Str("Add") && Get(item, "Replacement") in {Null, Str("False")}
         && Falsy(Get(item, "PhysicalResourceId"))
       else
         && Get(item, "Action") == Str("Modify") && Get(item, "Replacement") == Str("False")
         && Get(item, "Scope") == List([Str("Properties")])
         && Observed(plan, key) && Get(item, "PhysicalResourceId") == Get(Get(plan.inventory, key), "physicalId")
         && Details(change) != [] && forall d | d in Details(change) :: DetailAccepted(d, key)
  }

  // ------------------------------------------------------- what a change says

  /** The names of the properties a modification lists. */
  function Listed(change: Json): set<string> {
    set d | d in Details(change) && Get(Get(d, "Target"), "Name").Str? :: Get(Get(d, "Target"), "Name").s
  }

  predicate ListedBeyond(change: Json) {
    exists d | d in Details(change) ::
      Get(Get(d, "Target"), "Attribute") != Str("Properties") || !Get(Get(d, "Target"), "Name").Str?
  }

  /** The difference an entry announces. */
  function Described(change: Json): Delta {
    if Get(Item(change), "Action") == Str("Add") then Added(KeyOf(change))
    else if Get(Item(change), "Action") == Str("Modify") then
      Changed(KeyOf(change), Listed(change), ListedBeyond(change))
    else Removed(KeyOf(change))
  }

  /** An entry that replaces nothing, belongs to no other change set and names the observed resource. */
  predicate InPlace(change: Json, plan: Plan) {
    var item, key := Item(change), KeyOf(change);
    && Get(change, "Type") == Str("Resource") && item.Obj? && Get(item, "LogicalResourceId").Str?
    && Falsy(Get(item, "ModuleInfo")) && Falsy(Get(item, "ChangeSetId"))
    && HasType(plan, key) && Get(item, "ResourceType") == Get(plan.after[key], "Type")
    && if Get(item, "Action") == Str("Add") then
         Get(item, "Replacement") in {Null, Str("False")} && Falsy(Get(item, "PhysicalResourceId"))
       else
         && Get(item, "Replacement") == Str("False") && Get(item, "Scope") == List([Str("Properties")])
         && Observed(plan, key) && Get(item, "PhysicalResourceId") == Get(Get(plan.inventory, key), "physicalId")
         && forall d | d in Details(change) :: Get(Get(d, "Target"), "RequiresRecreation") == Str("Never")
  }

  /** The difference the plan allows. */
  function Expected(plan: Plan): set<Delta> {
    (set n | n in plan.additions :: Added(n)) + {Changed(API, {"Body"}, false), Changed(STAGE, {"DeploymentId"}, false)}
  }

  lemma AcceptedIsExpected(change: Json, plan: Plan)
    requires Sound(plan)
    ensures ChangeAccepted(change, plan) <==> InPlace(change, plan) && Described(change) in Expected(plan)
  {
    if ChangeAccepted(change, plan) {
      AcceptedDescribes(change, plan);
    }
    if InPlace(change, plan) && Described(change) in Expected(plan) {
      DescribedAccepted(change, plan);
    }
  }

  lemma AcceptedDescribes(change: Json, plan: Plan)
    requires Sound(plan) && ChangeAccepted(change, plan)
    ensures InPlace(change, plan) && Described(change) in Expected(plan)
    ensures Described(change).name == KeyOf(change)
  {
    var key := KeyOf(change);
    if key !in plan.additions {
      var d0 := Details(change)[0];
      assert DetailAccepted(d0, key) && d0 in Details(change);
      assert Listed(change) == {Property(key)};
    }
  }

  lemma DescribedAccepted(change: Json, plan: Plan)
    requires Sound(plan) && InPlace(change, plan) && Described(change) in Expected(plan)
    ensures ChangeAccepted(change, plan)
  {
    var key := KeyOf(change);
    if Described(change).Changed? {
      assert key in {API, STAGE} && Listed(change) == {Property(key)};
      assert Property(key) in Listed(change);
      forall d | d in Details(change) ensures DetailAccepted(d, key) {
        assert Get(Get(d, "Target"), "Name").s in Listed(change);
      }
    }
  }

  function Descriptions(changes: seq<Json>): (r: seq<Delta>)
    ensures |r| == |changes| && forall i | 0 <= i < |r| :: r[i] == Described(changes[i])
  {
    seq(|changes|, i requires 0 <= i < |changes| => Described(changes[i]))
  }

  /** The declarative verdict: every entry is in place, and the entries are exactly the allowed difference. */
  predicate ExactlyTheDiff(changes: seq<Json>, plan: Plan) {
    && (forall c | c in changes :: InPlace(c, plan))
    && multiset(Descriptions(changes)) == multiset(Expected(plan))
  }

  // ------------------------------------------------------------------ the loop

  predicate DistinctKeys(changes: seq<Json>) {
    forall i, j | 0 <= i < j < |changes| :: KeyOf(changes[i]) != KeyOf(changes[j])
  }

  predicate PassesChecks(changes: seq<Json>, plan: Plan) {
    && |changes| == |plan.additions| + 2 && DistinctKeys(changes)
    && forall c | c in changes :: ChangeAccepted(c, plan)
  }

  /** The loop of `_review` over `Changes`, with its `seen` set. */
  method CheckEach(changes: seq<Json>, plan: Plan) returns (accepted: bool)
    ensures accepted <==> DistinctKeys(changes) && forall c | c in changes :: ChangeAccepted(c, plan)
  {
    hide ChangeAccepted, KeyOf;
    var seen := {};
    for i := 0 to |changes|
      invariant seen == set j | 0 <= j < i :: KeyOf(changes[j])
      invariant forall j, k | 0 <= j < k < i :: KeyOf(changes[j]) != KeyOf(changes[k])
      invariant forall j | 0 <= j < i :: ChangeAccepted(changes[j], plan)
    {
      var change := changes[i];
      assert change in changes;
      if KeyOf(change) in seen { return false; }
      if !ChangeAccepted(change, plan) { return false; }
      seen := seen + {KeyOf(change)};
    }
    return true;
  }

  /** `_review`, from the length of the list on. */
  method ReviewChanges(changes: seq<Json>, plan: Plan) returns (accepted: bool)
    requires Sound(plan)
    ensures accepted <==> ExactlyTheDiff(changes, plan)
  {
    hide ChangeAccepted, DistinctKeys, ExactlyTheDiff;
    ChecksAreExact(changes, plan);
    if |changes| != |plan.additions| + 2 { return false; }
    accepted := CheckEach(changes, plan);
  }

  // ------------------------------------------------------------- the header

  datatype Parsed = Malformed | Read(parameters: map<string, string>)

  /** One entry of `Parameters`: a visible text value for a text key. */
  predicate IsParameter(item: Json) {
    && Get(item, "ParameterKey").Str? && Get(item, "ParameterValue").Str?
    && Get(item, "ParameterValue") != Str("****") && Falsy(Get(item, "ResolvedValue"))
  }

  function Key(item: Json): string
    requires IsParameter(item)
  {
    Get(item, "ParameterKey").s
  }

  function Value(item: Json): string
    requires IsParameter(item)
  {
    Get(item, "ParameterValue").s
  }

  predicate EachOnce(items: seq<Json>) {
    && (forall item | item in items :: IsParameter(item))
    && forall i, j | 0 <= i < j < |items| ::
         IsParameter(items[i]) && IsParameter(items[j]) ==> Key(items[i]) != Key(items[j])
  }

  predicate InTest(items: seq<Json>) {
    exists item | item in items ::
      Get(item, "ParameterKey") == Str("AuthRuntimeEnvironment") && Get(item, "ParameterValue") == Str("test")
  }

  /** The list gives each key once and is a list of the test environment. */
  predicate IsParameterList(items: seq<Json>) { EachOnce(items) && InTest(items) }

  /** The map says what the list says. */
  predicate Tells(items: seq<Json>, parameters: map<string, string>) {
    && (forall item | item in items ::
          IsParameter(item) && Key(item) in parameters && parameters[Key(item)] == Value(item))
    && (forall key | key in parameters :: exists item | item in items :: IsParameter(item) && Key(item) == key)
  }

  /** The loop of `_parameters`. */
  method ReadEach(items: seq<Json>) returns (r: Parsed)
    ensures r.Read? <==> EachOnce(items)
    ensures r.Read? ==> Tells(items, r.parameters)
  {
    hide IsParameter;
    var result := map[];
    for i := 0 to |items|
      invariant forall j | 0 <= j < i :: IsParameter(items[j])
      invariant forall j, k | 0 <= j < k < i :: Key(items[j]) != Key(items[k])
      invariant forall j | 0 <= j < i :: Key(items[j]) in result && result[Key(items[j])] == Value(items[j])
      invariant forall key | key in result :: exists j | 0 <= j < i :: Key(items[j]) == key
    {
      var item := items[i];
      assert item in items;
      if !IsParameter(item) { return Malformed; }
      if Key(item) in result { return Malformed; }
      result := result[Key(item) := Value(item)];
    }
    assert forall item | item in items :: IsParameter(item);
    r := Read(result);
  }

  /** `_parameters`: reads a list into a dictionary. */
  method ReadParameters(stack: Json) returns (r: Parsed)
    ensures r.Read? <==> Get(stack, "Parameters").List? && IsParameterList(Get(stack, "Parameters").items)
    ensures r.Read? ==> Tells(Get(stack, "Parameters").items, r.parameters)
  {
    hide EachOnce, InTest, Tells;
    if !Get(stack, "Parameters").List? { return Malformed; }
    var items := Get(stack, "Parameters").items;
    r := ReadEach(items);
    if r.Malformed? { return; }
    TestIff(items, r.parameters);
    if "AuthRuntimeEnvironment" !in r.parameters || r.parameters["AuthRuntimeEnvironment"] != "test" {
      return Malformed;
    }
  }

  lemma TestIff(items: seq<Json>, parameters: map<string, string>)
    requires Tells(items, parameters)
    ensures InTest(items) <==>
      "AuthRuntimeEnvironment" in parameters && parameters["AuthRuntimeEnvironment"] == "test"
  {
    if "AuthRuntimeEnvironment" in parameters && parameters["AuthRuntimeEnvironment"] == "test" {
      IsTest(items, parameters);
    } else {
      NotTest(items, parameters);
    }
  }

  lemma IsTest(items: seq<Json>, parameters: map<string, string>)
    requires Tells(items, parameters)
    requires "AuthRuntimeEnvironment" in parameters && parameters["AuthRuntimeEnvironment"] == "test"
    ensures InTest(items)
  {
    var item :| item in items && IsParameter(item) && Key(item) == "AuthRuntimeEnvironment";
    assert Get(item, "ParameterValue") == Str("test");
  }

  lemma NotTest(items: seq<Json>, parameters: map<string, string>)
    requires Tells(items, parameters)
    requires "AuthRuntimeEnvironment" !in parameters || parameters["AuthRuntimeEnvironment"] != "test"
    ensures !InTest(items)
  {
    forall item | item in items && Get(item, "ParameterKey") == Str("AuthRuntimeEnvironment")
      ensures Get(item, "ParameterValue") != Str("test")
    {
      assert IsParameter(item) && Key(item) == "AuthRuntimeEnvironment";
    }
  }

  /** A list tells one map only, in whatever order it comes. */
  lemma TellsOne(items: seq<Json>, others: seq<Json>, a: map<string, string>, b: map<string, string>)
    requires Tells(items, a) && Tells(others, b) && forall item :: item in items <==> item in others
    ensures a == b
  {
    forall key ensures key in a <==> key in b {
      if key in a { var item :| item in items && IsParameter(item) && Key(item) == key; assert item in others; }
      if key in b { var item :| item in others && IsParameter(item) && Key(item) == key; assert item in items; }
    }
    forall key | key in a ensures a[key] == b[key] {
      var item :| item in items && IsParameter(item) && Key(item) == key;
      assert item in others;
    }
  }

  /** What a change set must be: an available update of this stack, under this name, on its own. */
  datatype Identity = Identity(stackId: string, stackName: string, name: string, arn: string)

  predicate IsOurs(description: Json, identity: Identity) {
    && Get(description, "StackId") == Str(identity.stackId) && Get(description, "StackName") == Str(identity.stackName)
    && Get(description, "ChangeSetName") == Str(identity.name) && Get(description, "ChangeSetId") == Str(identity.arn)
    && Falsy(Get(description, "NextToken")) && Falsy(Get(description, "RoleARN"))
    && Get(description, "IncludeNestedStacks") in {Null, Bool(false)}
    && Get(description, "ChangeSetType") in {Null, Str("UPDATE")}
    && Falsy(Get(description, "ParentChangeSetId")) && Falsy(Get(description, "RootChangeSetId"))
    && Get(description, "Status") == Str("CREATE_COMPLETE") && Get(description, "ExecutionStatus") == Str("AVAILABLE")
  }

  /** The parameters of a change set are exactly the given ones. */
  predicate HasParameters(description: Json, parameters: map<string, string>) {
    var items := Get(description, "Parameters");
    items.List? && IsParameterList(items.items) && Tells(items.items, parameters)
  }

  /**
   * `_review`: nothing but an available update of the observed stack, with the observed parameters, whose
   * changes are entry for entry the difference the composition makes.
   */
  method Review(description: Json, identity: Identity, parameters: map<string, string>, plan: Plan)
      returns (accepted: bool)
    requires Sound(plan)
    ensures accepted <==>
      && IsOurs(description, identity) && HasParameters(description, parameters)
      && Get(description, "Changes").List? && ExactlyTheDiff(Get(description, "Changes").items, plan)
  {
    hide IsOurs, IsParameterList, Tells, ExactlyTheDiff, Sound;
    if !IsOurs(description, identity) { return false; }
    var read := ReadParameters(description);
    if read.Malformed? { return false; }
    var items := Get(description, "Parameters").items;
    if read.parameters != parameters {
      if Tells(items, parameters) { TellsOne(items, items, read.parameters, parameters); }
      return false;
    }
    if !Get(description, "Changes").List? { return false; }
    accepted := ReviewChanges(Get(description, "Changes").items, plan);
  }

  // -------------------------------------------------------------- pigeonhole

  lemma ChecksAreExact(changes: seq<Json>, plan: Plan)
    requires Sound(plan)
    ensures PassesChecks(changes, plan) <==> ExactlyTheDiff(changes, plan)
  {
    if PassesChecks(changes, plan) { ChecksGiveDiff(changes, plan); }
    if ExactlyTheDiff(changes, plan) { DiffPassesChecks(changes, plan); }
  }

  lemma {:induction false} CountAdded(names: set<string>)
    ensures |set n | n in names :: Added(n)| == |names|
  {
    var added := set n | n in names :: Added(n);
    if names == {} {
      assert added == {};
    } else {
      var x :| x in names;
      CountAdded(names - {x});
      assert added == (set n | n in names - {x} :: Added(n)) + {Added(x)};
    }
  }

  lemma CountExpected(plan: Plan)
    requires Sound(plan)
    ensures |Expected(plan)| == |plan.additions| + 2
  {
    var added := set n | n in plan.additions :: Added(n);
    CountAdded(plan.additions);
    var a, b := Changed(API, {"Body"}, false), Changed(STAGE, {"DeploymentId"}, false);
    assert a != b && a !in added && b !in added;
    assert Expected(plan) == added + {a} + {b};
  }

  /** A list of distinct members of a set of its own length lists the whole set. */
  lemma {:induction false} Pigeonhole<T>(s: seq<T>, all: set<T>)
    requires |s| == |all| && (forall x | x in s :: x in all) && forall i, j | 0 <= i < j < |s| :: s[i] != s[j]
    ensures multiset(s) == multiset(all)
  {
    if s == [] {
      assert all == {};
    } else {
      var x, rest := s[0], s[1..];
      Pigeonhole(rest, all - {x});
      assert s == [x] + rest;
      assert multiset(all) == multiset(all - {x}) + multiset{x};
    }
  }

  lemma ChecksGiveDiff(changes: seq<Json>, plan: Plan)
    requires Sound(plan) && PassesChecks(changes, plan)
    ensures ExactlyTheDiff(changes, plan)
  {
    var ds := Descriptions(changes);
    hide ChangeAccepted, KeyOf, Expected, InPlace, Described;
    forall c | c in changes
      ensures InPlace(c, plan) && Described(c) in Expected(plan) && Described(c).name == KeyOf(c)
    {
      AcceptedDescribes(c, plan);
    }
    forall i, j | 0 <= i < j < |ds| ensures ds[i] != ds[j] {
      assert changes[i] in changes && changes[j] in changes;
      assert ds[i].name == KeyOf(changes[i]) && ds[j].name == KeyOf(changes[j]);
    }
    CountExpected(plan);
    Pigeonhole(ds, Expected(plan));
  }

  /** Two allowed differences of one name are one. */
  lemma ExpectedNames(plan: Plan, d: Delta, e: Delta)
    requires Sound(plan) && d in Expected(plan) && e in Expected(plan) && d.name == e.name
    ensures d == e
  {
  }

  lemma {:induction false} NoRepeats<T>(s: seq<T>, all: set<T>)
    requires multiset(s) == multiset(all)
    ensures |s| == |all| && (forall x | x in s :: x in all) && forall i, j | 0 <= i < j < |s| :: s[i] != s[j]
  {
    assert |multiset(s)| == |s| && |multiset(all)| == |all|;
    forall x | x in s ensures x in all { assert x in multiset(s); }
    forall i, j | 0 <= i < j < |s| ensures s[i] != s[j] {
      if s[i] == s[j] { Twice(s, i, j); }
    }
  }

  lemma DiffPassesChecks(changes: seq<Json>, plan: Plan)
    requires Sound(plan) && ExactlyTheDiff(changes, plan)
    ensures PassesChecks(changes, plan)
  {
    var ds := Descriptions(changes);
    NoRepeats(ds, Expected(plan));
    CountExpected(plan);
    hide ChangeAccepted, KeyOf, Expected, InPlace;
    forall c | c in changes ensures ChangeAccepted(c, plan) {
      var i :| 0 <= i < |changes| && changes[i] == c;
      assert ds[i] in ds;
      DescribedAccepted(c, plan);
    }
    forall i, j | 0 <= i < j < |changes| ensures KeyOf(changes[i]) != KeyOf(changes[j]) {
      assert ds[i] in ds && ds[j] in ds && ds[i] != ds[j];
      assert ds[i].name == KeyOf(changes[i]) && ds[j].name == KeyOf(changes[j]);
      if ds[i].name == ds[j].name { ExpectedNames(plan, ds[i], ds[j]); }
    }
  }

  /** For a route transition the allowed difference is the difference between the template and its composition. */
  lemma TransitionDiff(t: Json, op: Operation, methods: Json, logical: string, inventory: Json)
    requires NativeTemplate(t) && logical !in Resources(t) && (PATH in Paths(t) <==> op.Close?)
    ensures var after := Resources(Composed(t, op, methods, logical));
      Sound(Plan({logical}, after, inventory)) &&
      Expected(Plan({logical}, after, inventory)) == Diff(Resources(t), after)
  {
    hide NativeTemplate, SharedBound, RuntimeBound, Composed, Diff, Paths;
    NativeParts(t);
    SharedParts(Resources(t));
    ComposedDiff(t, op, methods, logical);
    assert logical != API && logical != STAGE;
    assert (set n | n in {logical} :: Added(n)) == {Added(logical)};
  }
}
