/** The retained route controller: tools/thn_runtime_routes.py on template values. */
module Routes {
  import opened Json
  import opened Templates

  const API := "ApiProxyApi"
  const STAGE := "ApiProxyApiProdStage"
  const FUNCTION := "ThnAuthRuntimeV2Function"
  const ROLE := FUNCTION + "Role"
  const ALIAS := FUNCTION + "Aliastest"
  const PATH := "/auth-v2/runtime-config"
  const CONDITION := "IsThnAuthRuntimeV2Enabled"
  const SCHEMA := "thn-retained-runtime-routes/v1"

  datatype Option<T> = None | Some(value: T)

  datatype Error =
    | Digest | Record | Native | OpenRequired | ClosedRequired | Collision

  datatype Result<T> = Ok(value: T) | Err(error: Error)

  // ---------------------------------------------------------------- the checks

  /** `_unwrap`: one `Fn::If` on the runtime condition is looked through. */
  function Unwrap(v: Json): (r: Option<Json>)
    ensures r.Some? ==> r.value.Obj?
  {
    if v.Obj? && v.fields.Keys == {"Fn::If"} then
      var branches := v.fields["Fn::If"];
      if branches.List? && |branches.items| == 3 && branches.items[0] == Str(CONDITION)
         && branches.items[2] == Ref("AWS::NoValue") && branches.items[1].Obj?
      then Some(branches.items[1]) else None
    else if v.Obj? then Some(v) else None
  }

  predicate Typed(r: Json) {
    r.Obj? && Get(r, "Type").Str? && !("AWS::Serverless::" <= Get(r, "Type").s)
  }

  predicate NativeShape(t: Json) {
    && t.Obj? && "Transform" !in t.fields && Get(t, "Resources").Obj?
    && forall n | n in Resources(t) :: Typed(Resources(t)[n])
  }

  predicate Present(rs: map<string, Json>, name: string, kind: string) {
    IsA(rs, name, kind) && Properties(rs[name]).Obj?
  }

  function Body(api: Json): Json { Get(Properties(api), "Body") }

  predicate Definition(api: Json) {
    && Get(Properties(api), "Mode") in {Null, Str("overwrite")}
    && Properties(api).Obj? && "BodyS3Location" !in Properties(api).fields
    && Body(api).Obj? && Get(Body(api), "paths").Obj?
  }

  predicate Deployment(rs: map<string, Json>, name: string) {
    IsA(rs, name, "AWS::ApiGateway::Deployment") && Get(Properties(rs[name]), "RestApiId") == Ref(API)
  }

  /** The deployment a stage points to. */
  function PointsTo(stage: Json): Json { Get(Get(Properties(stage), "DeploymentId"), "Ref") }

  predicate StageBound(rs: map<string, Json>, stage: Json) {
    && Get(Properties(stage), "RestApiId") == Ref(API) && Get(Properties(stage), "StageName") == Str("Prod")
    && Get(Properties(stage), "DeploymentId").Obj? && Get(Properties(stage), "DeploymentId").fields.Keys == {"Ref"}
    && PointsTo(stage).Str? && Deployment(rs, PointsTo(stage).s)
  }

  /** The version an alias points to. */
  function VersionOf(alias: Json): Json { Get(Get(Properties(alias), "FunctionVersion"), "Fn::GetAtt") }

  predicate AliasBound(rs: map<string, Json>, alias: Json) {
    && Get(Properties(alias), "FunctionName") == Ref(FUNCTION) && Get(Properties(alias), "Name") == Str("test")
    && var version := VersionOf(alias);
    && version.List? && |version.items| == 2 && version.items[1] == Str("Version") && version.items[0].Str?
    && IsA(rs, version.items[0].s, "AWS::Lambda::Version")
    && Get(Properties(rs[version.items[0].s]), "FunctionName") == Ref(FUNCTION)
  }

  function PermissionName(verb: string): string { FUNCTION + "ThnAuthRuntimeV2" + verb + "PermissionProd" }

  predicate Permitted(rs: map<string, Json>, verb: string) {
    && IsA(rs, PermissionName(verb), "AWS::Lambda::Permission")
    && var p := Properties(rs[PermissionName(verb)]);
    && Get(p, "FunctionName") == Ref(ALIAS) && Get(p, "Action") == Str("lambda:InvokeFunction")
    && Get(p, "Principal") == Str("apigateway.amazonaws.com")
  }

  /** The runtime's own resources are all there. */
  predicate RuntimeBound(rs: map<string, Json>) {
    && Present(rs, FUNCTION, "AWS::Lambda::Function") && Present(rs, ROLE, "AWS::IAM::Role")
    && Present(rs, ALIAS, "AWS::Lambda::Alias")
    && Get(Properties(rs[FUNCTION]), "Role") == Obj(map["Fn::GetAtt" := List([Str(ROLE), Str("Arn")])])
    && AliasBound(rs, rs[ALIAS]) && Permitted(rs, "Get") && Permitted(rs, "Post")
  }

  predicate SharedBound(rs: map<string, Json>) {
    && Present(rs, API, "AWS::ApiGateway::RestApi") && Present(rs, STAGE, "AWS::ApiGateway::Stage")
    && Definition(rs[API]) && StageBound(rs, rs[STAGE])
  }

  /** `_native`: the template is native and complete. */
  predicate NativeTemplate(t: Json) {
    NativeShape(t) && SharedBound(Resources(t)) && RuntimeBound(Resources(t))
  }

  function Paths(t: Json): map<string, Json> { PathsOf(Resource(t, API)) }

  function PathsOf(api: Json): map<string, Json> { Fields(Get(Body(api), "paths")) }

  const EXPECTED_HEAD := "arn:"
  const EXPECTED_TAIL :=
    ":apigateway:${AWS::Region}:lambda:path/2015-03-31/functions/${" + ALIAS + "}/invocations"

  predicate ValidMethod(entry: Json) {
    var m := Unwrap(entry);
    && m.Some?
    && var integration := Get(m.value, "x-amazon-apigateway-integration");
    && Get(integration, "type") == Str("aws_proxy") && Get(integration, "httpMethod") == Str("POST")
    && var uri := Unwrap(Get(integration, "uri"));
    && uri.Some? && uri.value.fields.Keys == {"Fn::Sub"}
    && uri.value.fields["Fn::Sub"] in {
         Str(EXPECTED_HEAD + "${AWS::Partition}" + EXPECTED_TAIL), Str(EXPECTED_HEAD + "aws" + EXPECTED_TAIL)}
  }

  /** `_validate_methods`. */
  predicate ValidMethods(raw: Json) {
    var methods := Unwrap(raw);
    && methods.Some? && methods.value.fields.Keys == {"get", "post"}
    && forall verb | verb in methods.value.fields :: ValidMethod(methods.value.fields[verb])
  }

  /** What `compose` demands of a captured record. */
  predicate ValidRecord(record: Json) {
    && record.Obj? && record.fields.Keys == {"schema", "path", "methods"}
    && Get(record, "schema") == Str(SCHEMA) && Get(record, "path") == Str(PATH) && ValidMethods(Get(record, "methods"))
  }

  /** `capture_routes`. */
  function CaptureRoutes(t: Json): Result<Json> {
    if !NativeTemplate(t) then Err(Native)
    else if PATH !in Paths(t) then Err(OpenRequired)
    else if !ValidMethods(Paths(t)[PATH]) then Err(Record)
    else Ok(Obj(map["schema" := Str(SCHEMA), "path" := Str(PATH), "methods" := Paths(t)[PATH]]))
  }

  // --------------------------------------------------------------- composition

  datatype Operation = Close | Reopen

  function Title(op: Operation): string { if op.Close? then "Close" else "Reopen" }

  function Word(op: Operation): string { if op.Close? then "close" else "reopen" }

  function RetainedDeployment(description: string): Json {
    Obj(map[
      "Type" := Str("AWS::ApiGateway::Deployment"), "DeletionPolicy" := Str("Retain"),
      "UpdateReplacePolicy" := Str("Retain"), "DependsOn" := List([Str(API)]),
      "Properties" := Obj(map["RestApiId" := Ref(API), "Description" := Str(description)])])
  }

  function DeploymentOf(op: Operation): Json { RetainedDeployment("THN retained runtime routes " + Word(op)) }

  predicate Token(token: string) { |token| == 64 && Hex(token) }

  /** The logical name of the deployment a transition adds. */
  function Logical(op: Operation, token: string): string
    requires Token(token)
  {
    "ThnRuntimeRoutes" + Title(op) + token[..40]
  }

  function WithPaths(api: Json, paths: map<string, Json>): Json {
    WithProperty(api, "Body", With(Body(api), "paths", Obj(paths)))
  }

  /** The route table after an operation. */
  function Moved(paths: map<string, Json>, op: Operation, methods: Json): map<string, Json> {
    if op.Close? then paths - {PATH} else paths[PATH := methods]
  }

  /** Resources after a transition: the API body, the stage pointer and one new deployment. */
  function Recomposed(
      rs: map<string, Json>, paths: map<string, Json>, logical: string, deployment: Json): map<string, Json>
  {
    rs[API := WithPaths(Look(rs, API), paths)]
      [STAGE := WithProperty(Look(rs, STAGE), "DeploymentId", Ref(logical))]
      [logical := deployment]
  }

  function Look(rs: map<string, Json>, name: string): Json { if name in rs then rs[name] else Null }

  function Composed(t: Json, op: Operation, methods: Json, logical: string): Json {
    WithResources(t, Recomposed(Resources(t), Moved(Paths(t), op, methods), logical, DeploymentOf(op)))
  }

  function Refusal(t: Json, record: Json, op: Operation, token: string): Option<Error> {
    if !Token(token) then Some(Digest)
    else if !ValidRecord(record) then Some(Record)
    else if !NativeTemplate(t) then Some(Native)
    else if op.Close? && (PATH !in Paths(t) || Paths(t)[PATH] != Get(record, "methods")) then Some(OpenRequired)
    else if op.Reopen? && PATH in Paths(t) then Some(ClosedRequired)
    else if Logical(op, token) in Resources(t) then Some(Collision)
    else None
  }

  lemma NativeParts(t: Json)
    requires NativeTemplate(t)
    ensures t.Obj? && Get(t, "Resources").Obj? && SharedBound(Resources(t)) && RuntimeBound(Resources(t))
  {
  }

  lemma SharedParts(rs: map<string, Json>)
    requires SharedBound(rs)
    ensures API in rs && STAGE in rs && rs[API].Obj? && rs[STAGE].Obj?
    ensures Definition(rs[API]) && Properties(rs[API]).Obj? && Body(rs[API]).Obj? && Properties(rs[STAGE]).Obj?
  {
  }

  /** The three edits of a copied resource table. */
  method EditResources(was: map<string, Json>, paths: map<string, Json>, logical: string, deployment: Json)
      returns (rs: map<string, Json>)
    requires SharedBound(was) && logical !in was
    ensures rs == Recomposed(was, paths, logical, deployment)
  {
    SharedParts(was);
    hide SharedBound, Definition;
    rs := was;
    rs := rs[API := WithProperty(rs[API], "Body", With(Body(rs[API]), "paths", Obj(paths)))];
    rs := rs[logical := deployment];
    rs := rs[STAGE := WithProperty(rs[STAGE], "DeploymentId", Ref(logical))];
    assert logical != API && logical != STAGE && API != STAGE;
  }

  /** `compose`: a copy of the template is edited entry by entry. */
  method Compose(t: Json, record: Json, op: Operation, token: string) returns (r: Result<(Json, string)>)
    ensures Refusal(t, record, op, token).Some? ==> r == Err(Refusal(t, record, op, token).value)
    ensures Refusal(t, record, op, token).None? ==>
      r == Ok((Composed(t, op, Get(record, "methods"), Logical(op, token)), Logical(op, token)))
  {
    hide NativeTemplate, ValidRecord, SharedBound, RuntimeBound, Token, Logical, Recomposed;
    if !Token(token) { return Err(Digest); }
    if !ValidRecord(record) { return Err(Record); }
    if !NativeTemplate(t) { return Err(Native); }
    NativeParts(t);
    SharedParts(Resources(t));
    var paths := Paths(t);
    if op.Close? && (PATH !in paths || paths[PATH] != Get(record, "methods")) { return Err(OpenRequired); }
    if op.Reopen? && PATH in paths { return Err(ClosedRequired); }
    var logical := Logical(op, token);
    var rs := Resources(t);
    if logical in rs { return Err(Collision); }
    if op.Close? {
      paths := paths - {PATH};
    } else {
      paths := paths[PATH := Get(record, "methods")];
    }
    rs := EditResources(rs, paths, logical, DeploymentOf(op));
    return Ok((WithResources(t, rs), logical));
  }

  // ------------------------------------------------------ what a step preserves

  lemma SharedKept(rs: map<string, Json>, paths: map<string, Json>, logical: string, deployment: Json)
    requires SharedBound(rs) && logical !in rs && Deployment(map[logical := deployment], logical)
    ensures var after := Recomposed(rs, paths, logical, deployment);
      SharedBound(after) && Get(Body(after[API]), "paths") == Obj(paths) && PointsTo(after[STAGE]) == Str(logical)
  {
    var after := Recomposed(rs, paths, logical, deployment);
    assert API != STAGE && logical != API && logical != STAGE;
    assert after[API] == WithPaths(rs[API], paths)
      && after[STAGE] == WithProperty(rs[STAGE], "DeploymentId", Ref(logical));
    assert after[logical] == deployment;
    assert Definition(after[API]);
    assert Deployment(after, logical);
  }

  /** The runtime resources are read by name only, and none of them is the API, the stage or new. */
  lemma RuntimeKept(rs: map<string, Json>, after: map<string, Json>)
    requires RuntimeBound(rs) && IsA(rs, API, "AWS::ApiGateway::RestApi") && IsA(rs, STAGE, "AWS::ApiGateway::Stage")
    requires forall n | n in rs && n != API && n != STAGE :: n in after && after[n] == rs[n]
    ensures RuntimeBound(after)
  {
    var version := VersionOf(rs[ALIAS]).items[0].s;
    assert version != API && version != STAGE;
    assert PermissionName("Get") != API && PermissionName("Get") != STAGE;
    assert PermissionName("Post") != API && PermissionName("Post") != STAGE;
    assert AliasBound(after, after[ALIAS]);
  }

  lemma OthersKept(rs: map<string, Json>, paths: map<string, Json>, logical: string, deployment: Json)
    requires SharedBound(rs) && logical !in rs
    ensures var after := Recomposed(rs, paths, logical, deployment);
      && after.Keys == rs.Keys + {logical} && after[logical] == deployment
      && forall n | n in rs && n != API && n != STAGE :: after[n] == rs[n]
  {
  }

  lemma ShapeKept(t: Json, paths: map<string, Json>, logical: string, deployment: Json)
    requires NativeShape(t) && SharedBound(Resources(t)) && logical !in Resources(t)
    requires Typed(deployment)
    ensures NativeShape(WithResources(t, Recomposed(Resources(t), paths, logical, deployment)))
  {
    var rs := Resources(t);
    var after := Recomposed(rs, paths, logical, deployment);
    OthersKept(rs, paths, logical, deployment);
    assert Typed(after[API]) by { assert Typed(rs[API]); }
    assert Typed(after[STAGE]) by { assert Typed(rs[STAGE]); }
  }

  lemma RetainedDeploymentFits(name: string, description: string)
    ensures Deployment(map[name := RetainedDeployment(description)], name) && Typed(RetainedDeployment(description))
  {
    assert "AWS::ApiGateway::Deployment"[5] == 'A' && "AWS::Serverless::"[5] == 'S';
  }

  /** A native template stays native, open or closed. */
  lemma ComposedIsNative(t: Json, op: Operation, methods: Json, logical: string)
    requires NativeTemplate(t) && logical !in Resources(t)
    ensures NativeTemplate(Composed(t, op, methods, logical))
    ensures Paths(Composed(t, op, methods, logical)) == Moved(Paths(t), op, methods)
  {
    var rs, paths, deployment := Resources(t), Moved(Paths(t), op, methods), DeploymentOf(op);
    RetainedDeploymentFits(logical, "THN retained runtime routes " + Word(op));
    SharedKept(rs, paths, logical, deployment);
    OthersKept(rs, paths, logical, deployment);
    ShapeKept(t, paths, logical, deployment);
    RuntimeKept(rs, Recomposed(rs, paths, logical, deployment));
  }

  // ---------------------------------------------------------------- invariant

  /** `ThnRuntimeRoutes(Close|Reopen)[a-f0-9]{40}`. */
  predicate RetainedName(name: string, op: Operation) {
    var head := "ThnRuntimeRoutes" + Title(op);
    head <= name && |name| == |head| + 40 && Hex(name[|head|..])
  }

  predicate RetainedExtra(rs: map<string, Json>, name: string) {
    name in rs && exists op: Operation :: RetainedName(name, op) && rs[name] == DeploymentOf(op)
  }

  function WithoutProperty(r: Json, k: string): Json {
    With(r, "Properties", Without(Properties(r), k))
  }

  /** Only the original resources, without the route and without the stage pointer. */
  function StrippedResources(rs: map<string, Json>, names: set<string>): map<string, Json> {
    map n | n in names ::
      if n == API then WithPaths(Look(rs, API), PathsOf(Look(rs, API)) - {PATH})
      else if n == STAGE then WithoutProperty(Look(rs, STAGE), "DeploymentId")
      else Look(rs, n)
  }

  /** What `_invariant` digests, if it accepts the template at all. */
  function Stripped(t: Json, names: set<string>): Option<Json> {
    var rs := Resources(t);
    if !(names <= rs.Keys) || exists n | n in rs.Keys - names :: !RetainedExtra(rs, n) then None
    else Some(WithResources(t, StrippedResources(rs, names)))
  }

  /** Deleting one of the extra names. */
  lemma DeleteOne(left: map<string, Json>, names: set<string>, extra: set<string>, name: string)
    requires left.Keys == names + extra && names !! extra && name in extra
    ensures (left - {name}).Keys == names + (extra - {name})
  {
  }

  lemma Restricted(rs: map<string, Json>, left: map<string, Json>, names: set<string>)
    requires names <= rs.Keys && left.Keys == names && forall n | n in left :: left[n] == rs[n]
    ensures left == map n | n in names :: rs[n]
  {
  }

  /** The loop of `_invariant`: every approved deployment is deleted, anything else is refused. */
  method DeleteRetained(rs: map<string, Json>, names: set<string>) returns (r: Option<map<string, Json>>)
    requires names <= rs.Keys
    ensures r.None? <==> exists n | n in rs.Keys - names :: !RetainedExtra(rs, n)
    ensures r.Some? ==> r.value == map n | n in names :: rs[n]
  {
    hide RetainedExtra;
    var extra, left := rs.Keys - names, rs;
    while extra != {}
      invariant extra <= rs.Keys - names && left.Keys == names + extra
      invariant forall n | n in left :: left[n] == rs[n]
      invariant forall n | n in rs.Keys - names :: n in extra || RetainedExtra(rs, n)
      decreases extra
    {
      var name :| name in extra;
      if !RetainedExtra(rs, name) { return None; }
      DeleteOne(left, names, extra, name);
      left, extra := left - {name}, extra - {name};
    }
    Restricted(rs, left, names);
    return Some(left);
  }

  /** `_invariant`, up to its final digest. */
  method Strip(t: Json, names: set<string>) returns (r: Option<Json>)
    requires SharedBound(Resources(t)) && API in names && STAGE in names
    ensures r == Stripped(t, names)
  {
    var rs := Resources(t);
    if !(names <= rs.Keys) { return None; }
    SharedParts(rs);
    hide SharedBound, Definition, RetainedExtra, PathsOf, WithoutProperty, WithProperty;
    var kept := DeleteRetained(rs, names);
    if kept.None? { return None; }
    var left := kept.value;
    var paths := PathsOf(left[API]) - {PATH};
    left := left[API := WithProperty(left[API], "Body", With(Body(left[API]), "paths", Obj(paths)))];
    left := left[STAGE := WithoutProperty(left[STAGE], "DeploymentId")];
    assert API != STAGE;
    assert left == StrippedResources(rs, names);
    return Some(WithResources(t, left));
  }

  lemma PathsTwice(api: Json, p: map<string, Json>, q: map<string, Json>)
    ensures WithPaths(WithPaths(api, p), q) == WithPaths(api, q)
  {
    assert Body(WithPaths(api, p)) == With(Body(api), "paths", Obj(p));
    assert Fields(Body(api))["paths" := Obj(p)]["paths" := Obj(q)] == Fields(Body(api))["paths" := Obj(q)];
    TwiceSame(api, "Body", With(Body(api), "paths", Obj(p)), With(Body(api), "paths", Obj(q)));
  }

  lemma TwiceSame(r: Json, k: string, v: Json, w: Json)
    ensures WithProperty(WithProperty(r, k, v), k, w) == WithProperty(r, k, w)
    ensures WithoutProperty(WithProperty(r, k, v), k) == WithoutProperty(r, k)
  {
    var p, f := Fields(Properties(r)), Fields(r);
    assert p[k := v][k := w] == p[k := w] && p[k := v] - {k} == p - {k};
    var x := WithProperty(r, k, v);
    assert Properties(x) == Obj(p[k := v]);
    assert f["Properties" := Obj(p[k := v])]["Properties" := Obj(p[k := w])] == f["Properties" := Obj(p[k := w])];
    assert f["Properties" := Obj(p[k := v])]["Properties" := Obj(p - {k})] == f["Properties" := Obj(p - {k})];
  }

  lemma ResourcesTwice(t: Json, a: map<string, Json>, b: map<string, Json>)
    ensures WithResources(WithResources(t, a), b) == WithResources(t, b)
  {
    assert Fields(t)["Resources" := Obj(a)]["Resources" := Obj(b)] == Fields(t)["Resources" := Obj(b)];
  }

  /** The resources that are left after stripping are the ones that were left before the step. */
  lemma StrippedResourcesKept(
      rs: map<string, Json>, names: set<string>, paths: map<string, Json>, logical: string, deployment: Json)
    requires SharedBound(rs) && logical !in rs && names <= rs.Keys && API in names && STAGE in names
    requires paths - {PATH} == PathsOf(rs[API]) - {PATH}
    ensures StrippedResources(Recomposed(rs, paths, logical, deployment), names) == StrippedResources(rs, names)
  {
    var after := Recomposed(rs, paths, logical, deployment);
    hide SharedBound, Definition, WithPaths, WithoutProperty, WithProperty, Recomposed;
    SharedParts(rs);
    RecomposedEntries(rs, paths, logical, deployment);
    PathsTwice(rs[API], paths, paths - {PATH});
    TwiceSame(rs[STAGE], "DeploymentId", Ref(logical), Null);
    WithPathsRead(rs[API], paths);
    hide PathsOf;
    forall n | n in names ensures StrippedResources(after, names)[n] == StrippedResources(rs, names)[n] {}
  }

  lemma WithPathsRead(api: Json, paths: map<string, Json>)
    ensures PathsOf(WithPaths(api, paths)) == paths
  {
  }

  lemma RecomposedEntries(rs: map<string, Json>, paths: map<string, Json>, logical: string, deployment: Json)
    requires API in rs && STAGE in rs && logical !in rs
    ensures var after := Recomposed(rs, paths, logical, deployment);
      && after.Keys == rs.Keys + {logical} && after[logical] == deployment
      && (forall n | n in rs && n != API && n != STAGE :: after[n] == rs[n])
      && after[API] == WithPaths(rs[API], paths)
      && after[STAGE] == WithProperty(rs[STAGE], "DeploymentId", Ref(logical))
  {
    hide WithPaths, WithProperty;
    assert logical != API && logical != STAGE && API != STAGE;
  }

  lemma StrippedKept(t: Json, names: set<string>, op: Operation, methods: Json, logical: string)
    requires NativeTemplate(t) && logical !in Resources(t) && RetainedName(logical, op)
    requires names <= Resources(t).Keys && API in names && STAGE in names
    ensures NativeTemplate(Composed(t, op, methods, logical))
    ensures Stripped(Composed(t, op, methods, logical), names) == Stripped(t, names)
  {
    hide NativeTemplate, SharedBound, RuntimeBound, RetainedName, Recomposed, StrippedResources, RetainedExtra,
      DeploymentOf;
    NativeParts(t);
    var rs, paths := Resources(t), Moved(Paths(t), op, methods);
    var after := Recomposed(rs, paths, logical, DeploymentOf(op));
    ComposedIsNative(t, op, methods, logical);
    NativeParts(Composed(t, op, methods, logical));
    OthersKept(rs, paths, logical, DeploymentOf(op));
    assert paths - {PATH} == Paths(t) - {PATH};
    StrippedResourcesKept(rs, names, paths, logical, DeploymentOf(op));
    ResourcesTwice(t, after, StrippedResources(rs, names));
    ExtrasKept(rs, after, names, logical, op);
  }

  /** The new deployment is an approved one, and the others have not changed. */
  lemma ExtrasKept(rs: map<string, Json>, after: map<string, Json>, names: set<string>, logical: string, op: Operation)
    requires logical !in rs && RetainedName(logical, op) && API in names && STAGE in names && names <= rs.Keys
    requires after.Keys == rs.Keys + {logical} && after[logical] == DeploymentOf(op)
    requires forall n | n in rs && n != API && n != STAGE :: after[n] == rs[n]
    ensures (exists n | n in rs.Keys - names :: !RetainedExtra(rs, n)) <==>
      exists n | n in after.Keys - names :: !RetainedExtra(after, n)
  {
    hide DeploymentOf, RetainedName;
    assert RetainedExtra(after, logical);
    forall n | n in rs.Keys - names ensures RetainedExtra(after, n) <==> RetainedExtra(rs, n) {
      assert after[n] == rs[n];
    }
    if n :| n in rs.Keys - names && !RetainedExtra(rs, n) { assert n in after.Keys - names; }
  }

  lemma LogicalIsRetained(op: Operation, token: string)
    requires Token(token)
    ensures RetainedName(Logical(op, token), op)
  {
    var head, l := "ThnRuntimeRoutes" + Title(op), Logical(op, token);
    assert l[..|head|] == head && l[|head|..] == token[..40];
    forall c | c in token[..40] ensures '0' <= c <= '9' || 'a' <= c <= 'f' { assert c in token; }
  }

  // ------------------------------------------------------------------ the diff

  /** What a transition changes: one property of the API, one of the stage, and one new deployment. */
  lemma ComposedDiff(t: Json, op: Operation, methods: Json, logical: string)
    requires NativeTemplate(t) && logical !in Resources(t) && (PATH in Paths(t) <==> op.Close?)
    ensures Diff(Resources(t), Resources(Composed(t, op, methods, logical)))
      == {Changed(API, {"Body"}, false), Changed(STAGE, {"DeploymentId"}, false), Added(logical)}
  {
    var rs, paths := Resources(t), Moved(Paths(t), op, methods);
    NativeParts(t);
    SharedParts(rs);
    assert paths != Paths(t) by { assert PATH in paths <==> PATH !in Paths(t); }
    PointerChanges(rs, logical);
    assert Get(Body(rs[API]), "paths") != Obj(paths);
    DiffOfRecomposed(rs, paths, logical, DeploymentOf(op));
  }

  lemma PointerChanges(rs: map<string, Json>, logical: string)
    requires SharedBound(rs) && logical !in rs
    ensures Get(Properties(rs[STAGE]), "DeploymentId") != Ref(logical)
  {
    assert Ref(logical).fields["Ref"] == Str(logical);
  }

  lemma DiffOfRecomposed(rs: map<string, Json>, paths: map<string, Json>, logical: string, deployment: Json)
    requires SharedBound(rs) && logical !in rs && Get(Body(rs[API]), "paths") != Obj(paths)
    requires Get(Properties(rs[STAGE]), "DeploymentId") != Ref(logical)
    ensures Diff(rs, Recomposed(rs, paths, logical, deployment))
      == {Changed(API, {"Body"}, false), Changed(STAGE, {"DeploymentId"}, false), Added(logical)}
  {
    SharedParts(rs);
    var body := With(Body(rs[API]), "paths", Obj(paths));
    assert Body(rs[API]) != body by { assert Get(body, "paths") == Obj(paths); }
    OnePropertyChanged(rs[API], "Body", body);
    OnePropertyChanged(rs[STAGE], "DeploymentId", Ref(logical));
    var after := Recomposed(rs, paths, logical, deployment);
    OthersKept(rs, paths, logical, deployment);
    assert logical != API && logical != STAGE && API != STAGE;
    assert after[API] == WithProperty(rs[API], "Body", body)
      && after[STAGE] == WithProperty(rs[STAGE], "DeploymentId", Ref(logical));
    hide SharedBound, Definition, Recomposed, WithProperty, ChangedProperties, ChangedBeyond;
    ThreeDeltas(rs, after, logical);
  }

  lemma ThreeDeltas(rs: map<string, Json>, after: map<string, Json>, logical: string)
    requires logical !in rs && API in rs && STAGE in rs && after.Keys == rs.Keys + {logical}
    requires forall n | n in rs && n != API && n != STAGE :: after[n] == rs[n]
    requires after[API] != rs[API] && !ChangedBeyond(rs[API], after[API])
    requires after[STAGE] != rs[STAGE] && !ChangedBeyond(rs[STAGE], after[STAGE])
    requires ChangedProperties(Properties(rs[API]), Properties(after[API])) == {"Body"}
    requires ChangedProperties(Properties(rs[STAGE]), Properties(after[STAGE])) == {"DeploymentId"}
    ensures Diff(rs, after) == {Changed(API, {"Body"}, false), Changed(STAGE, {"DeploymentId"}, false), Added(logical)}
  {
    hide ChangedProperties, ChangedBeyond;
    assert (set n | n in after && n !in rs :: Added(n)) == {Added(logical)};
    assert (set n | n in rs && n !in after :: Removed(n)) == {};
  }
}
