/** `compose` of tools/thn_first_provisioning.py: the runtime is added to a native template that does not have it. */
module FirstProvisioning {
  import opened ChangeReview
  import CodePointer
  import opened Json
  import opened RouteRuns
  import opened Routes
  import opened Templates

  const PARAMETERS := [
    "EnableThnAuthRuntimeV2", "ThnAuthRuntimeV2DescriptorVersionId", "ThnAuthRuntimeV2DescriptorSha256",
    "ThnAuthRuntimeV2AuthPolicyVersion", "ThnAuthRuntimeV2CognitoUserPoolId", "ThnAuthRuntimeV2CognitoClientId"]
  const RULE := "ThnAuthRuntimeV2ActivationRule"

  datatype Refused =
    | Baseline | TransitionDigest | Translation | UnexpectedResources | SourceParameters | SourceSections
    | Recapture | TooLarge

  datatype Outcome<T> = Done(value: T) | Refuse(why: Refused)

  /** A top-level section that is a dictionary or missing. */
  predicate SectionOk(t: Json, name: string) { t.Obj? && (name !in t.fields || t.fields[name].Obj?) }

  predicate StringParameter(t: Json, name: string) {
    Get(Get(Get(t, "Parameters"), name), "Type") == Str("String")
  }

  /** Nothing of the runtime is there yet. */
  predicate Absent(t: Json) {
    && (forall n | n in Resources(t) :: !("Thn" <= n))
    && (forall p | p in PARAMETERS :: p !in Fields(Get(t, "Parameters")))
    && RULE !in Fields(Get(t, "Rules")) && CONDITION !in Fields(Get(t, "Conditions"))
  }

  predicate StageReady(rs: map<string, Json>) {
    var stage := Look(rs, STAGE);
    && Get(Properties(stage), "StageName") == Str("Prod") && Get(Properties(stage), "RestApiId") == Ref(API)
    && PointsTo(stage).Str? && Deployment(rs, PointsTo(stage).s)
  }

  predicate SharedReady(rs: map<string, Json>) {
    && IsA(rs, API, "AWS::ApiGateway::RestApi") && IsA(rs, STAGE, "AWS::ApiGateway::Stage")
    && (forall f | f in CodePointer.FUNCTIONS :: IsA(rs, f, "AWS::Lambda::Function"))
    && Definition(rs[API]) && PATH !in PathsOf(rs[API]) && StageReady(rs)
  }

  /** `_baseline`; a section that is not a dictionary fails there or when `compose` writes to it. */
  predicate ReadyBaseline(t: Json) {
    && NativeShape(t) && SectionOk(t, "Parameters") && SectionOk(t, "Rules") && SectionOk(t, "Conditions") && Absent(t)
    && StringParameter(t, "AuthRuntimeEnvironment") && StringParameter(t, "LogLevel") && SharedReady(Resources(t))
  }

  // --------------------------------------------------------------- composition

  function VersionName(native: Json): string {
    var version := VersionOf(Resource(native, ALIAS));
    if version.List? && version.items != [] && version.items[0].Str? then version.items[0].s else ""
  }

  /** The six resources taken from the translated source. */
  function RuntimeNames(native: Json): set<string> {
    {FUNCTION, ROLE, ALIAS, VersionName(native), PermissionName("Get"), PermissionName("Post")}
  }

  function FirstName(token: string): string
    requires Token(token)
  {
    "ThnRuntimeFirst" + token[..40]
  }

  const FIRST_DEPLOYMENT := RetainedDeployment("THN retained first runtime deployment")

  /** `update(DeletionPolicy="Retain", UpdateReplacePolicy="Retain")`. */
  function Retained(r: Json): Json {
    With(With(r, "DeletionPolicy", Str("Retain")), "UpdateReplacePolicy", Str("Retain"))
  }

  function Copied(native: Json, names: set<string>): map<string, Json> {
    map n | n in names :: Retained(Resource(native, n))
  }

  function FirstResources(rs: map<string, Json>, native: Json, deployment: string): map<string, Json> {
    (rs + Copied(native, RuntimeNames(native)))
      [deployment := FIRST_DEPLOYMENT]
      [API := WithPaths(Look(rs, API), PathsOf(Look(rs, API))[PATH := Look(Paths(native), PATH)])]
      [STAGE := WithProperty(Look(rs, STAGE), "DeploymentId", Ref(deployment))]
  }

  function NewParameters(source: Json): map<string, Json> {
    map p | p in PARAMETERS :: Get(Get(source, "Parameters"), p)
  }

  function WithSection(t: Json, name: string, added: map<string, Json>): Json {
    With(t, name, Obj(Fields(Get(t, name)) + added))
  }

  function ComposedFirst(t: Json, source: Json, native: Json, deployment: string): Json {
    Sections(WithResources(t, FirstResources(Resources(t), native, deployment)), source)
  }

  /** The sections of the source that are copied beside the resources. */
  function Sections(t: Json, source: Json): Json {
    var parameters := WithSection(t, "Parameters", NewParameters(source));
    var rules := WithSection(parameters, "Rules", map[RULE := Get(Get(source, "Rules"), RULE)]);
    WithSection(rules, "Conditions", map[CONDITION := Get(Get(source, "Conditions"), CONDITION)])
  }

  predicate SourceReady(source: Json) {
    && (forall p | p in PARAMETERS :: StringParameter(source, p))
    && RULE in Fields(Get(source, "Rules")) && CONDITION in Fields(Get(source, "Conditions"))
  }

  predicate TranslationReady(native: Json) { CaptureRoutes(native).Ok? }

  predicate NamesReady(native: Json) {
    |RuntimeNames(native)| == 6 && (set n | n in Resources(native) && "Thn" <= n) == RuntimeNames(native)
  }

  /** Why `compose` refuses, in the order of its checks; `fits` is the 51200-byte limit. */
  function FirstRefusal(t: Json, source: Json, native: Json, token: string, fits: Json -> bool): Option<Refused> {
    if !ReadyBaseline(t) then Some(Baseline)
    else if !Token(token) then Some(TransitionDigest)
    else if !TranslationReady(native) then Some(Translation)
    else if !NamesReady(native) then Some(UnexpectedResources)
    else if exists p | p in PARAMETERS :: !StringParameter(source, p) then Some(SourceParameters)
    else if !SourceReady(source) then Some(SourceSections)
    else if CaptureRoutes(ComposedFirst(t, source, native, FirstName(token))).Err? then Some(Recapture)
    else if !fits(ComposedFirst(t, source, native, FirstName(token))) then Some(TooLarge)
    else None
  }

  /** The loop that copies the runtime's resources. */
  method CopyRuntime(rs: map<string, Json>, native: Json, names: set<string>) returns (r: map<string, Json>)
    ensures r == rs + Copied(native, names)
  {
    hide Retained;
    var left := names;
    r := rs;
    while left != {}
      invariant left <= names && r.Keys == rs.Keys + (names - left)
      invariant forall n | n in names - left :: r[n] == Retained(Resource(native, n))
      invariant forall n | n in rs && n !in names - left :: r[n] == rs[n]
      decreases |left|
    {
      var name :| name in left;
      r, left := r[name := Retained(Resource(native, name))], left - {name};
    }
  }

  /** The loop that copies the parameters. */
  method CopyParameters(t: Json, source: Json) returns (r: Outcome<Json>)
    ensures r == if exists p | p in PARAMETERS :: !StringParameter(source, p) then Refuse(SourceParameters)
                 else Done(WithSection(t, "Parameters", NewParameters(source)))
  {
    hide StringParameter, PARAMETERS;
    var parameters := Fields(Get(t, "Parameters"));
    for i := 0 to |PARAMETERS|
      invariant forall j | 0 <= j < i :: StringParameter(source, PARAMETERS[j])
      invariant parameters.Keys == Fields(Get(t, "Parameters")).Keys + set j | 0 <= j < i :: PARAMETERS[j]
      invariant forall j | 0 <= j < i :: parameters[PARAMETERS[j]] == Get(Get(source, "Parameters"), PARAMETERS[j])
      invariant forall k | k in Fields(Get(t, "Parameters")) && (forall j | 0 <= j < i :: PARAMETERS[j] != k) ::
        parameters[k] == Fields(Get(t, "Parameters"))[k]
    {
      var name := PARAMETERS[i];
      if !StringParameter(source, name) { return Refuse(SourceParameters); }
      parameters := parameters[name := Get(Get(source, "Parameters"), name)];
    }
    assert parameters == Fields(Get(t, "Parameters")) + NewParameters(source);
    return Done(With(t, "Parameters", Obj(parameters)));
  }

  /** `compose`, given the translated source. */
  method ComposeFirst(t: Json, source: Json, native: Json, token: string, fits: Json -> bool)
      returns (r: Outcome<(Json, set<string>)>)
    ensures FirstRefusal(t, source, native, token, fits).Some? ==>
      r == Refuse(FirstRefusal(t, source, native, token, fits).value)
    ensures FirstRefusal(t, source, native, token, fits).None? ==>
      r == Done((ComposedFirst(t, source, native, FirstName(token)), RuntimeNames(native) + {FirstName(token)}))
  {
    hide ReadyBaseline, Token, FirstName, TranslationReady, NamesReady, StringParameter, CaptureRoutes, RuntimeNames,
      FirstResources;
    if !ReadyBaseline(t) { return Refuse(Baseline); }
    if !Token(token) { return Refuse(TransitionDigest); }
    if !TranslationReady(native) { return Refuse(Translation); }
    if !NamesReady(native) { return Refuse(UnexpectedResources); }
    var names, deployment := RuntimeNames(native), FirstName(token);
    FirstNameStarts(token);
    var resources := EditFirst(t, native, deployment);
    var composed := WithResources(t, resources);
    var parameters := CopyParameters(composed, source);
    if parameters.Refuse? { return Refuse(parameters.why); }
    composed := parameters.value;
    if !(RULE in Fields(Get(source, "Rules")) && CONDITION in Fields(Get(source, "Conditions"))) {
      return Refuse(SourceSections);
    }
    composed := WithSection(composed, "Rules", map[RULE := Get(Get(source, "Rules"), RULE)]);
    composed := WithSection(composed, "Conditions", map[CONDITION := Get(Get(source, "Conditions"), CONDITION)]);
    assert composed == ComposedFirst(t, source, native, deployment);
    if CaptureRoutes(composed).Err? { return Refuse(Recapture); }
    if !fits(composed) { return Refuse(TooLarge); }
    return Done((composed, names + {deployment}));
  }

  /** The edits of the resource table. */
  method EditFirst(t: Json, native: Json, deployment: string) returns (rs: map<string, Json>)
    requires NamesReady(native) && "ThnRuntimeFirst" <= deployment
    ensures rs == FirstResources(Resources(t), native, deployment)
  {
    ThnNames(native, deployment);
    hide RuntimeNames, WithPaths, WithProperty, NamesReady;
    rs := CopyRuntime(Resources(t), native, RuntimeNames(native));
    rs := rs[deployment := FIRST_DEPLOYMENT];
    var paths := PathsOf(Look(rs, API))[PATH := Look(Paths(native), PATH)];
    rs := rs[API := WithPaths(Look(rs, API), paths)];
    rs := rs[STAGE := WithProperty(Look(rs, STAGE), "DeploymentId", Ref(deployment))];
  }

  /** Neither the API nor the stage is among the names that are added. */
  lemma ThnNames(native: Json, deployment: string)
    requires NamesReady(native) && "ThnRuntimeFirst" <= deployment
    ensures API !in RuntimeNames(native) && STAGE !in RuntimeNames(native) && deployment != API && deployment != STAGE
    ensures forall n | n in RuntimeNames(native) :: "Thn" <= n && n in Resources(native)
    ensures "Thn" <= deployment
  {
    assert API[0] == 'A' && STAGE[0] == 'A' && "Thn"[0] == 'T' && "ThnRuntimeFirst"[..3] == "Thn";
    assert deployment[..15] == "ThnRuntimeFirst" && deployment[..3] == "ThnRuntimeFirst"[..3];
    forall n | n in RuntimeNames(native) ensures "Thn" <= n && n in Resources(native) {
      assert n in set n | n in Resources(native) && "Thn" <= n;
    }
  }

  lemma FirstNameStarts(token: string)
    requires Token(token)
    ensures "ThnRuntimeFirst" <= FirstName(token)
  {
  }

  // ------------------------------------------------------------------- entries

  /** The inputs that pass the checks before the composed template is looked at. */
  predicate Ready(t: Json, source: Json, native: Json, deployment: string) {
    ReadyBaseline(t) && TranslationReady(native) && NamesReady(native) && SourceReady(source)
      && "ThnRuntimeFirst" <= deployment
  }

  function Additions(native: Json, deployment: string): set<string> { RuntimeNames(native) + {deployment} }

  lemma BaselineParts(t: Json)
    requires ReadyBaseline(t)
    ensures API in Resources(t) && STAGE in Resources(t) && t.Obj? && Get(t, "Resources").Obj?
    ensures forall n | n in Resources(t) :: !("Thn" <= n)
    ensures Definition(Resources(t)[API]) && PATH !in Paths(t) && PointsTo(Resources(t)[STAGE]).Str?
    ensures Properties(Resources(t)[STAGE]).Obj? && "DeploymentId" in Fields(Properties(Resources(t)[STAGE]))
    ensures PointsTo(Resources(t)[STAGE]).s in Resources(t)
    ensures Resource(t, API) == Resources(t)[API] && Resource(t, STAGE) == Resources(t)[STAGE]
  {
  }

  /** Entry by entry, what the composed resource table holds. */
  predicate Extended(rs: map<string, Json>, after: map<string, Json>, native: Json, deployment: string) {
    && API in rs && STAGE in rs && API in after && STAGE in after && API != STAGE && deployment in after
    && after.Keys == rs.Keys + Additions(native, deployment) && rs.Keys !! Additions(native, deployment)
    && (forall n | n in rs && n != API && n != STAGE :: after[n] == rs[n])
    && (forall n | n in RuntimeNames(native) && n != deployment :: after[n] == Retained(Resource(native, n)))
    && after[deployment] == FIRST_DEPLOYMENT
    && after[API] == WithPaths(rs[API], PathsOf(rs[API])[PATH := Look(Paths(native), PATH)])
    && after[STAGE] == WithProperty(rs[STAGE], "DeploymentId", Ref(deployment))
  }

  lemma ThreeUpdates<K, V>(m: map<K, V>, added: map<K, V>, d: K, x: V, a: K, y: V, b: K, z: V)
    requires a in m && b in m && a != b && d != a && d != b && d !in m && m.Keys !! added.Keys
    ensures var r := (m + added)[d := x][a := y][b := z];
      && r.Keys == m.Keys + added.Keys + {d} && r[d] == x && r[a] == y && r[b] == z
      && (forall n | n in m && n != a && n != b :: r[n] == m[n]) && forall n | n in added && n != d :: r[n] == added[n]
  {
  }

  lemma EntriesOf(rs: map<string, Json>, native: Json, deployment: string)
    requires API in rs && STAGE in rs && rs.Keys !! Additions(native, deployment)
    ensures Extended(rs, FirstResources(rs, native, deployment), native, deployment)
  {
    ApiIsNotStage();
    hide API, STAGE, PATH, RuntimeNames, Retained, WithPaths, WithProperty, PathsOf, Resource, Paths,
      RetainedDeployment;
    assert deployment in Additions(native, deployment) && deployment != API && deployment != STAGE;
    var copied := Copied(native, RuntimeNames(native));
    assert forall n | n in RuntimeNames(native) :: copied[n] == Retained(Resource(native, n));
    hide Copied;
    ThreeUpdates(rs, copied, deployment, FIRST_DEPLOYMENT, API,
      WithPaths(rs[API], PathsOf(rs[API])[PATH := Look(Paths(native), PATH)]),
      STAGE, WithProperty(rs[STAGE], "DeploymentId", Ref(deployment)));
  }

  lemma ApiIsNotStage()
    ensures API != STAGE
  {
  }

  lemma FirstEntries(t: Json, source: Json, native: Json, deployment: string)
    requires Ready(t, source, native, deployment)
    ensures Extended(Resources(t), FirstResources(Resources(t), native, deployment), native, deployment)
  {
    hide ReadyBaseline, TranslationReady, NamesReady, SourceReady, RuntimeNames, Extended;
    BaselineParts(t);
    ThnNames(native, deployment);
    EntriesOf(Resources(t), native, deployment);
  }

  // ------------------------------------------------------ conservative extension

  /** Take the runtime out again and point the stage back. */
  function Erase(t: Json, additions: set<string>, pointer: Json): Json {
    var shared := WithResources(t, ErasedTable(Resources(t), additions, pointer));
    var parameters := WithoutEntries(shared, "Parameters", set p | p in PARAMETERS);
    WithoutEntries(WithoutEntries(parameters, "Rules", {RULE}), "Conditions", {CONDITION})
  }

  function WithoutEntries(t: Json, name: string, keys: set<string>): Json {
    With(t, name, Obj(Fields(Get(t, name)) - keys))
  }

  /** `setdefault(name, {})`. */
  function WithDefault(t: Json, name: string): Json { With(t, name, Obj(Fields(Get(t, name)))) }

  /** The shared part of erasing: drop what was added, the route and the new pointer. */
  function ErasedTable(after: map<string, Json>, additions: set<string>, pointer: Json): map<string, Json> {
    var rs := after - additions;
    rs[API := WithPaths(Look(rs, API), PathsOf(Look(rs, API)) - {PATH})]
      [STAGE := WithProperty(Look(rs, STAGE), "DeploymentId", pointer)]
  }

  lemma ErasedApi(t: Json, route: Json)
    requires ReadyBaseline(t)
    ensures var api := Resource(t, API); var edited := WithPaths(api, PathsOf(api)[PATH := route]);
      WithPaths(edited, PathsOf(edited) - {PATH}) == api
  {
    BaselineParts(t);
    hide ReadyBaseline, WithPaths, PathsOf, Definition, API, PATH;
    RouteOutAgain(t, Resource(t, API), route);
  }

  lemma RouteOutAgain(t: Json, api: Json, route: Json)
    requires Definition(api) && api == Resource(t, API) && PATH !in Paths(t)
    ensures
      var edited := WithPaths(api, PathsOf(api)[PATH := route]);
      WithPaths(edited, PathsOf(edited) - {PATH}) == api
  {
    var paths := PathsOf(api)[PATH := route];
    hide WithPaths, PathsOf, Definition, API, PATH;
    PathsTwice(api, paths, paths - {PATH});
    WithPathsRead(api, paths);
    assert paths - {PATH} == PathsOf(api);
    OwnPaths(t, api);
  }

  lemma ErasedStage(t: Json, deployment: string)
    requires ReadyBaseline(t)
    ensures var stage := Resource(t, STAGE);
      WithProperty(WithProperty(stage, "DeploymentId", Ref(deployment)), "DeploymentId",
        Get(Properties(stage), "DeploymentId")) == stage
  {
    BaselineParts(t);
    hide ReadyBaseline, WithProperty;
    TwiceSame(Resource(t, STAGE), "DeploymentId", Ref(deployment), Get(Properties(Resource(t, STAGE)), "DeploymentId"));
    OwnProperty(Resource(t, STAGE), "DeploymentId");
  }

  lemma ErasedResources(t: Json, native: Json, deployment: string, after: map<string, Json>)
    requires ReadyBaseline(t) && Extended(Resources(t), after, native, deployment)
    ensures ErasedTable(after, Additions(native, deployment), Get(Properties(Resource(t, STAGE)), "DeploymentId"))
      == Resources(t)
  {
    BaselineParts(t);
    ErasedApi(t, Look(Paths(native), PATH));
    ErasedStage(t, deployment);
    ExtendedTable(Resources(t), after, native, deployment);
    hide Extended, ReadyBaseline, Additions, Definition;
    TableErased(Resources(t), after, Additions(native, deployment),
      Get(Properties(Resource(t, STAGE)), "DeploymentId"));
  }

  lemma ExtendedTable(rs: map<string, Json>, after: map<string, Json>, native: Json, deployment: string)
    requires Extended(rs, after, native, deployment)
    ensures API in rs && STAGE in rs && API != STAGE && API in after && STAGE in after
    ensures after.Keys == rs.Keys + Additions(native, deployment) && rs.Keys !! Additions(native, deployment)
    ensures forall n | n in rs && n != API && n != STAGE :: after[n] == rs[n]
    ensures after[API] == WithPaths(rs[API], PathsOf(rs[API])[PATH := Look(Paths(native), PATH)])
    ensures after[STAGE] == WithProperty(rs[STAGE], "DeploymentId", Ref(deployment))
  {
    hide Additions, RuntimeNames, Retained, WithPaths, WithProperty, PathsOf, FIRST_DEPLOYMENT, API, STAGE, PATH;
  }

  lemma TableErased(rs: map<string, Json>, after: map<string, Json>, additions: set<string>, pointer: Json)
    requires API in rs && STAGE in rs && API != STAGE && API in after && STAGE in after
    requires after.Keys == rs.Keys + additions && rs.Keys !! additions
    requires forall n | n in rs && n != API && n != STAGE :: after[n] == rs[n]
    requires WithPaths(after[API], PathsOf(after[API]) - {PATH}) == rs[API]
    requires WithProperty(after[STAGE], "DeploymentId", pointer) == rs[STAGE]
    ensures ErasedTable(after, additions, pointer) == rs
  {
    hide WithPaths, WithProperty, PathsOf, API, STAGE, PATH;
    TwoUpdates(rs, after, additions, API, STAGE);
  }

  lemma TwoUpdates<K, V>(m: map<K, V>, after: map<K, V>, added: set<K>, a: K, b: K)
    requires after.Keys == m.Keys + added && m.Keys !! added && a in m && b in m && a != b
    requires forall n | n in m && n != a && n != b :: after[n] == m[n]
    ensures (after - added)[a := m[a]][b := m[b]] == m && (after - added)[a] == after[a]
      && (after - added)[b] == after[b]
  {
  }

  /** A property set to the value it has. */
  lemma OwnProperty(r: Json, k: string)
    requires r.Obj? && Properties(r).Obj? && k in Fields(Properties(r))
    ensures WithProperty(r, k, Get(Properties(r), k)) == r
  {
    assert Fields(Properties(r))[k := Fields(Properties(r))[k]] == Fields(Properties(r));
    assert Fields(r)["Properties" := Properties(r)] == Fields(r);
  }

  /** What was added to one section and taken out again leaves it as it was. */
  lemma SectionRoundTrip(fields: map<string, Json>, added: map<string, Json>, keys: set<string>)
    requires added.Keys == keys && fields.Keys !! keys
    ensures (fields + added) - keys == fields
  {
  }

  /** First composition is a conservative extension of the baseline. */
  lemma ConservativeExtension(t: Json, source: Json, native: Json, deployment: string)
    requires Ready(t, source, native, deployment)
    ensures Erase(ComposedFirst(t, source, native, deployment), Additions(native, deployment),
        Get(Properties(Resource(t, STAGE)), "DeploymentId"))
      == WithDefault(WithDefault(t, "Rules"), "Conditions")
  {
    var result, pointer := ComposedFirst(t, source, native, deployment),
      Get(Properties(Resource(t, STAGE)), "DeploymentId");
    FirstEntries(t, source, native, deployment);
    ErasedResources(t, native, deployment, FirstResources(Resources(t), native, deployment));
    BaselineSections(t);
    EraseSections(t, FirstResources(Resources(t), native, deployment), source, Additions(native, deployment), pointer);
  }

  lemma EraseSections(t: Json, after: map<string, Json>, source: Json, additions: set<string>, pointer: Json)
    requires t.Obj? && "Resources" in t.fields && Get(t, "Resources") == Obj(Resources(t))
    requires "Parameters" in t.fields && Get(t, "Parameters") == Obj(Fields(Get(t, "Parameters")))
    requires Fields(Get(t, "Parameters")).Keys !! (set p | p in PARAMETERS)
    requires RULE !in Fields(Get(t, "Rules")) && CONDITION !in Fields(Get(t, "Conditions"))
    requires ErasedTable(after, additions, pointer) == Resources(t)
    ensures Erase(Sections(WithResources(t, after), source), additions, pointer)
      == WithDefault(WithDefault(t, "Rules"), "Conditions")
  {
    hide *;
    ErasedWhole(t, after, source, additions, pointer);
    DefaultsOf(t);
    AlikeSections(t, Erase(Sections(WithResources(t, after), source), additions, pointer),
      WithDefault(WithDefault(t, "Rules"), "Conditions"));
  }

  /** `e` has the fields of `t`, with `Rules` and `Conditions` at least empty. */
  ghost predicate Defaulted(t: Json, e: Json) {
    && e.Obj? && e.fields.Keys == Fields(t).Keys + {"Rules", "Conditions"}
    && (forall k | k != "Rules" && k != "Conditions" :: Get(e, k) == Get(t, k))
    && Get(e, "Rules") == Obj(Fields(Get(t, "Rules"))) && Get(e, "Conditions") == Obj(Fields(Get(t, "Conditions")))
  }

  lemma AlikeSections(t: Json, a: Json, b: Json)
    requires Defaulted(t, a) && Defaulted(t, b)
    ensures a == b
  {
    hide Get;
    forall k ensures Get(a, k) == Get(b, k) {}
    SameFields(a, b);
  }

  lemma ErasedWhole(t: Json, after: map<string, Json>, source: Json, additions: set<string>, pointer: Json)
    requires t.Obj? && "Resources" in t.fields && Get(t, "Resources") == Obj(Resources(t))
    requires "Parameters" in t.fields && Get(t, "Parameters") == Obj(Fields(Get(t, "Parameters")))
    requires Fields(Get(t, "Parameters")).Keys !! (set p | p in PARAMETERS)
    requires RULE !in Fields(Get(t, "Rules")) && CONDITION !in Fields(Get(t, "Conditions"))
    requires ErasedTable(after, additions, pointer) == Resources(t)
    ensures Defaulted(t, Erase(Sections(WithResources(t, after), source), additions, pointer))
  {
    hide PARAMETERS, RULE, CONDITION, ErasedTable;
    var keys := set p | p in PARAMETERS;
    assert NewParameters(source).Keys == keys;
    SectionRoundTrip(Fields(Get(t, "Parameters")), NewParameters(source), keys);
    SectionRoundTrip(Fields(Get(t, "Rules")), map[RULE := Get(Get(source, "Rules"), RULE)], {RULE});
    SectionRoundTrip(Fields(Get(t, "Conditions")), map[CONDITION := Get(Get(source, "Conditions"), CONDITION)],
      {CONDITION});
    hide NewParameters, Erase, Sections, Fields;
    SectionsOf(WithResources(t, after), source);
    var whole := Sections(WithResources(t, after), source);
    ErasedSections(whole, additions, pointer);
    ErasedFields(t, whole, Erase(whole, additions, pointer));
  }

  lemma ErasedFields(t: Json, whole: Json, erased: Json)
    requires t.Obj? && "Resources" in t.fields && "Parameters" in t.fields && whole.Obj? && erased.Obj?
    requires whole.fields.Keys == Fields(WithResources(t, Resources(whole))).Keys
      + {"Parameters", "Rules", "Conditions"}
    requires erased.fields.Keys == whole.fields.Keys + {"Resources", "Parameters", "Rules", "Conditions"}
    requires forall k | !Sectioned(k) && k != "Resources" :: Get(erased, k) == Get(whole, k) == Get(t, k)
    requires Get(erased, "Resources") == Get(t, "Resources") && Get(erased, "Parameters") == Get(t, "Parameters")
    requires Get(erased, "Rules") == Obj(Fields(Get(t, "Rules")))
    requires Get(erased, "Conditions") == Obj(Fields(Get(t, "Conditions")))
    ensures Defaulted(t, erased)
  {
    hide Get;
  }

  lemma SameFields(a: Json, b: Json)
    requires a.Obj? && b.Obj? && a.fields.Keys == b.fields.Keys && forall k :: Get(a, k) == Get(b, k)
    ensures a == b
  {
    forall k | k in a.fields ensures a.fields[k] == b.fields[k] { assert Get(a, k) == Get(b, k); }
  }

  lemma DefaultsOf(t: Json)
    ensures Defaulted(t, WithDefault(WithDefault(t, "Rules"), "Conditions"))
  {
  }

  predicate Sectioned(k: string) { k in {"Parameters", "Rules", "Conditions"} }

  lemma SectionsOf(t: Json, source: Json)
    ensures var r := Sections(t, source);
      && r.Obj? && r.fields.Keys == Fields(t).Keys + {"Parameters", "Rules", "Conditions"}
      && (forall k | !Sectioned(k) :: Get(r, k) == Get(t, k))
      && Fields(Get(r, "Parameters")) == Fields(Get(t, "Parameters")) + NewParameters(source)
      && Fields(Get(r, "Rules")) == Fields(Get(t, "Rules")) + map[RULE := Get(Get(source, "Rules"), RULE)]
      && Fields(Get(r, "Conditions")) == Fields(Get(t, "Conditions"))
        + map[CONDITION := Get(Get(source, "Conditions"), CONDITION)]
  {
    hide NewParameters;
  }

  lemma ErasedSections(t: Json, additions: set<string>, pointer: Json)
    ensures var r := Erase(t, additions, pointer);
      && r.Obj? && r.fields.Keys == Fields(t).Keys + {"Resources", "Parameters", "Rules", "Conditions"}
      && (forall k | !Sectioned(k) && k != "Resources" :: Get(r, k) == Get(t, k))
      && Get(r, "Resources") == Obj(ErasedTable(Resources(t), additions, pointer))
      && Get(r, "Parameters") == Obj(Fields(Get(t, "Parameters")) - set p | p in PARAMETERS)
      && Get(r, "Rules") == Obj(Fields(Get(t, "Rules")) - {RULE})
      && Get(r, "Conditions") == Obj(Fields(Get(t, "Conditions")) - {CONDITION})
  {
    hide ErasedTable;
  }

  lemma BaselineSections(t: Json)
    requires ReadyBaseline(t)
    ensures t.Obj? && "Resources" in t.fields && Get(t, "Resources") == Obj(Resources(t))
    ensures "Parameters" in t.fields && Get(t, "Parameters") == Obj(Fields(Get(t, "Parameters")))
    ensures Fields(Get(t, "Parameters")).Keys !! (set p | p in PARAMETERS)
    ensures RULE !in Fields(Get(t, "Rules")) && CONDITION !in Fields(Get(t, "Conditions"))
  {
  }

  // ------------------------------------------------------------------ additions

  /** Everything added is retained, and it is seven resources unless the version has the deployment's name. */
  lemma AddedResourcesAreRetained(t: Json, source: Json, native: Json, deployment: string)
    requires Ready(t, source, native, deployment)
    ensures var rs, after := Resources(t), Resources(ComposedFirst(t, source, native, deployment));
      && after.Keys - rs.Keys == Additions(native, deployment)
      && (|after.Keys - rs.Keys| == 7 <==> deployment != VersionName(native))
      && (forall n | n in after && n !in rs ::
            Get(after[n], "DeletionPolicy") == Str("Retain") && Get(after[n], "UpdateReplacePolicy") == Str("Retain"))
      && forall n | n in rs && n != API && n != STAGE :: n in after && after[n] == rs[n]
  {
    hide *;
    ComposedResources(t, source, native, deployment);
    ReadyParts(t, source, native, deployment);
    AdditionsCount(native, deployment);
    FirstEntries(t, source, native, deployment);
    ExtendedRetained(Resources(t), FirstResources(Resources(t), native, deployment), native, deployment);
  }

  lemma ReadyParts(t: Json, source: Json, native: Json, deployment: string)
    requires Ready(t, source, native, deployment)
    ensures ReadyBaseline(t) && TranslationReady(native) && NamesReady(native) && "ThnRuntimeFirst" <= deployment
  {
    hide ReadyBaseline, TranslationReady, NamesReady;
  }

  lemma ExtendedRetained(rs: map<string, Json>, after: map<string, Json>, native: Json, deployment: string)
    requires Extended(rs, after, native, deployment)
    ensures after.Keys - rs.Keys == Additions(native, deployment)
    ensures forall n | n in rs && n != API && n != STAGE :: n in after && after[n] == rs[n]
    ensures forall n | n in after && n !in rs ::
      Get(after[n], "DeletionPolicy") == Str("Retain") && Get(after[n], "UpdateReplacePolicy") == Str("Retain")
  {
    FirstDeploymentIsRetained();
    hide RuntimeNames, WithPaths, WithProperty, RetainedDeployment, PathsOf, Paths, FIRST_DEPLOYMENT, API, STAGE, PATH;
    forall n | n in after && n !in rs
      ensures Get(after[n], "DeletionPolicy") == Str("Retain") && Get(after[n], "UpdateReplacePolicy") == Str("Retain")
    {
      if n != deployment { assert after[n] == Retained(Resource(native, n)); }
    }
  }

  lemma FirstDeploymentIsRetained()
    ensures Get(FIRST_DEPLOYMENT, "DeletionPolicy") == Str("Retain")
      && Get(FIRST_DEPLOYMENT, "UpdateReplacePolicy") == Str("Retain")
    ensures Get(FIRST_DEPLOYMENT, "Type") == Str("AWS::ApiGateway::Deployment")
    ensures Get(Properties(FIRST_DEPLOYMENT), "RestApiId") == Ref(API)
  {
  }

  lemma ComposedResources(t: Json, source: Json, native: Json, deployment: string)
    ensures Resources(ComposedFirst(t, source, native, deployment)) == FirstResources(Resources(t), native, deployment)
    ensures Get(ComposedFirst(t, source, native, deployment), "Resources").Obj?
    ensures Get(ComposedFirst(t, source, native, deployment), "Transform") == Get(t, "Transform")
    ensures ComposedFirst(t, source, native, deployment).Obj?
    ensures "Transform" in Fields(ComposedFirst(t, source, native, deployment)) <==> "Transform" in Fields(t)
  {
    hide FirstResources, Sections;
    SectionsOf(WithResources(t, FirstResources(Resources(t), native, deployment)), source);
  }

  lemma AdditionsCount(native: Json, deployment: string)
    requires NamesReady(native) && "ThnRuntimeFirst" <= deployment
    ensures |Additions(native, deployment)| == 7 <==> deployment != VersionName(native)
    ensures deployment in RuntimeNames(native) <==> deployment == VersionName(native)
  {
    NotFirstNames(deployment);
    hide FUNCTION, ROLE, ALIAS, PermissionName;
    assert |RuntimeNames(native)| == 6;
    assert deployment in RuntimeNames(native) <==> deployment == VersionName(native);
    hide RuntimeNames, NamesReady;
    if deployment in RuntimeNames(native) {
      assert Additions(native, deployment) == RuntimeNames(native);
    }
  }

  lemma NotFirstNames(deployment: string)
    requires "ThnRuntimeFirst" <= deployment
    ensures deployment !in {FUNCTION, ROLE, ALIAS, PermissionName("Get"), PermissionName("Post")}
  {
    assert deployment[..15] == "ThnRuntimeFirst" && deployment[3] == 'R';
    assert FUNCTION[3] == 'A' && ROLE[3] == 'A' && ALIAS[3] == 'A';
    assert PermissionName("Get")[3] == 'A' && PermissionName("Post")[3] == 'A';
  }

  // ---------------------------------------------------------- the final check

  lemma CapturedParts(native: Json)
    requires TranslationReady(native)
    ensures NativeTemplate(native) && PATH in Paths(native) && ValidMethods(Paths(native)[PATH])
  {
    hide NativeTemplate, ValidMethods;
  }

  /** What `_native` reads of a resource survives `update(DeletionPolicy=..., UpdateReplacePolicy=...)`. */
  lemma RetainedReads(r: Json)
    ensures Get(Retained(r), "Type") == Get(r, "Type") && Properties(Retained(r)) == Properties(r) && Retained(r).Obj?
  {
  }

  predicate CopiedFrom(native: map<string, Json>, after: map<string, Json>, n: string) {
    n in native && n in after && Get(after[n], "Type") == Get(native[n], "Type")
      && Properties(after[n]) == Properties(native[n])
  }

  /** The runtime's bindings only look at its own six resources. */
  lemma RuntimeCopied(native: map<string, Json>, after: map<string, Json>, version: string)
    requires RuntimeBound(native) && VersionOf(native[ALIAS]).items[0] == Str(version)
    requires CopiedFrom(native, after, FUNCTION) && CopiedFrom(native, after, ROLE) && CopiedFrom(native, after, ALIAS)
    requires CopiedFrom(native, after, version)
    requires CopiedFrom(native, after, PermissionName("Get")) && CopiedFrom(native, after, PermissionName("Post"))
    ensures RuntimeBound(after)
  {
    assert AliasBound(after, after[ALIAS]);
  }

  lemma SharedFits(rs: map<string, Json>, after: map<string, Json>, route: Json, deployment: string)
    requires SharedReady(rs) && API in after && STAGE in after && deployment in after
      && after[deployment] == FIRST_DEPLOYMENT
    requires after[API] == WithPaths(rs[API], PathsOf(rs[API])[PATH := route])
    requires after[STAGE] == WithProperty(rs[STAGE], "DeploymentId", Ref(deployment))
    ensures SharedBound(after) && PathsOf(after[API])[PATH] == route && PATH in PathsOf(after[API])
  {
    FirstDeploymentIsRetained();
    assert Definition(rs[API]) && StageReady(rs) && Look(rs, STAGE) == rs[STAGE];
    DefinitionKept(rs[API], PathsOf(rs[API])[PATH := route]);
    WithPathsRead(rs[API], PathsOf(rs[API])[PATH := route]);
    hide Definition, SharedReady, WithPaths, PathsOf, FIRST_DEPLOYMENT, API, STAGE, PATH;
    StageFits(rs[STAGE], after, deployment);
  }

  lemma DefinitionKept(api: Json, paths: map<string, Json>)
    requires Definition(api)
    ensures Definition(WithPaths(api, paths)) && Get(WithPaths(api, paths), "Type") == Get(api, "Type")
    ensures Properties(WithPaths(api, paths)).Obj?
  {
  }

  lemma StageFits(stage: Json, after: map<string, Json>, deployment: string)
    requires Get(Properties(stage), "StageName") == Str("Prod") && Get(Properties(stage), "RestApiId") == Ref(API)
    requires deployment in after && Get(after[deployment], "Type") == Str("AWS::ApiGateway::Deployment")
    requires Get(Properties(after[deployment]), "RestApiId") == Ref(API)
    ensures StageBound(after, WithProperty(stage, "DeploymentId", Ref(deployment)))
    ensures Get(WithProperty(stage, "DeploymentId", Ref(deployment)), "Type") == Get(stage, "Type")
  {
    var r := WithProperty(stage, "DeploymentId", Ref(deployment));
    assert Get(Properties(r), "DeploymentId") == Ref(deployment);
    hide WithProperty;
    assert Deployment(after, deployment);
    assert PointsTo(r) == Str(deployment);
  }

  lemma TypedAfter(t: Json, native: Json, after: map<string, Json>, deployment: string)
    requires NativeShape(t) && NativeShape(native) && Extended(Resources(t), after, native, deployment)
    requires RuntimeNames(native) <= Resources(native).Keys
    ensures forall n | n in after :: Typed(after[n])
  {
    RetainedDeploymentFits(deployment, "THN retained first runtime deployment");
    hide NativeShape, Typed, RuntimeNames, Retained, WithPaths, WithProperty, RetainedDeployment, API, STAGE;
    forall n | n in after ensures Typed(after[n]) {
      if n == deployment {
      } else if n in RuntimeNames(native) {
        RetainedReads(Resource(native, n));
        TypedByReads(native, n, after[n]);
      } else {
        EditedReads(t, native, after, deployment, n);
        TypedByReads(t, n, after[n]);
      }
    }
  }

  lemma EditedReads(t: Json, native: Json, after: map<string, Json>, deployment: string, n: string)
    requires Extended(Resources(t), after, native, deployment) && n in Resources(t)
    ensures Get(after[n], "Type") == Get(Resource(t, n), "Type") && (after[n].Obj? || after[n] == Resource(t, n))
  {
    hide Retained, RuntimeNames;
  }

  lemma TypedByReads(t: Json, n: string, r: Json)
    requires NativeShape(t) && n in Resources(t)
    requires Get(r, "Type") == Get(Resource(t, n), "Type") && (r.Obj? || r == Resource(t, n))
    ensures Typed(r)
  {
    assert Typed(Resources(t)[n]);
  }

  lemma CopiedAll(t: Json, native: Json, after: map<string, Json>, deployment: string)
    requires Extended(Resources(t), after, native, deployment) && deployment !in RuntimeNames(native)
    requires RuntimeNames(native) <= Resources(native).Keys
    ensures forall n | n in RuntimeNames(native) :: CopiedFrom(Resources(native), after, n)
  {
    hide RuntimeNames, Retained;
    forall n | n in RuntimeNames(native) ensures CopiedFrom(Resources(native), after, n) {
      RetainedReads(Resource(native, n));
    }
  }

  lemma VersionNameIs(native: Json)
    requires NativeTemplate(native)
    ensures ALIAS in Resources(native) && VersionOf(Resources(native)[ALIAS]).List?
      && VersionOf(Resources(native)[ALIAS]).items != []
    ensures VersionOf(Resources(native)[ALIAS]).items[0] == Str(VersionName(native))
  {
  }

  /** The runtime is bound after composition unless the new deployment took the version's name. */
  lemma RuntimeAfter(t: Json, source: Json, native: Json, deployment: string)
    requires Ready(t, source, native, deployment)
    ensures RuntimeBound(FirstResources(Resources(t), native, deployment)) <==> deployment != VersionName(native)
  {
    var after := FirstResources(Resources(t), native, deployment);
    hide ReadyBaseline, TranslationReady, SourceReady, FirstResources, NativeTemplate, NamesReady;
    CapturedParts(native);
    NativeParts(native);
    VersionNameIs(native);
    ThnNames(native, deployment);
    FirstEntries(t, source, native, deployment);
    AdditionsCount(native, deployment);
    hide Extended, SharedBound, RuntimeBound;
    if deployment == VersionName(native) {
      VersionTaken(t, native, after, deployment);
    } else {
      CopiedAll(t, native, after, deployment);
      assert {FUNCTION, ROLE, ALIAS, VersionName(native), PermissionName("Get"), PermissionName("Post")}
        <= RuntimeNames(native);
      hide CopiedFrom;
      RuntimeCopied(Resources(native), after, VersionName(native));
    }
  }

  lemma VersionTaken(t: Json, native: Json, after: map<string, Json>, deployment: string)
    requires NativeTemplate(native) && Extended(Resources(t), after, native, deployment)
      && deployment == VersionName(native)
    requires ALIAS != deployment
    ensures !RuntimeBound(after)
  {
    VersionNameIs(native);
    FirstDeploymentIsRetained();
    RetainedReads(Resource(native, ALIAS));
    assert ALIAS in RuntimeNames(native);
    assert after[ALIAS] == Retained(Resource(native, ALIAS));
    hide NativeTemplate, Extended, Retained, FIRST_DEPLOYMENT, RuntimeNames;
    assert VersionOf(after[ALIAS]) == VersionOf(Resources(native)[ALIAS]);
    assert Get(after[deployment], "Type") != Str("AWS::Lambda::Version");
    NoVersion(after, deployment);
  }

  lemma NoVersion(after: map<string, Json>, version: string)
    requires ALIAS in after && VersionOf(after[ALIAS]).List? && VersionOf(after[ALIAS]).items != []
    requires VersionOf(after[ALIAS]).items[0] == Str(version) && !IsA(after, version, "AWS::Lambda::Version")
    ensures !RuntimeBound(after)
  {
    hide Permitted, Present, ALIAS;
    assert !AliasBound(after, after[ALIAS]);
  }

  /** The final `capture_routes` fails in exactly one case: the new deployment took the name of the version. */
  lemma RecaptureExactly(t: Json, source: Json, native: Json, deployment: string)
    requires Ready(t, source, native, deployment)
    ensures CaptureRoutes(ComposedFirst(t, source, native, deployment)).Ok? <==> deployment != VersionName(native)
  {
    var result, after := ComposedFirst(t, source, native, deployment), FirstResources(Resources(t), native, deployment);
    hide *;
    ComposedResources(t, source, native, deployment);
    RuntimeAfter(t, source, native, deployment);
    SharedAfter(t, source, native, deployment);
    ShapeAfter(t, source, native, deployment);
    CaptureOf(result);
  }

  lemma CaptureOf(t: Json)
    ensures CaptureRoutes(t).Ok? <==>
      NativeShape(t) && SharedBound(Resources(t)) && RuntimeBound(Resources(t)) && PATH in Paths(t)
        && ValidMethods(Paths(t)[PATH])
  {
    hide NativeShape, SharedBound, RuntimeBound, ValidMethods;
  }

  lemma SharedAfter(t: Json, source: Json, native: Json, deployment: string)
    requires Ready(t, source, native, deployment)
    ensures var result := ComposedFirst(t, source, native, deployment);
      SharedBound(Resources(result)) && PATH in Paths(result) && ValidMethods(Paths(result)[PATH])
  {
    var after := FirstResources(Resources(t), native, deployment);
    hide ReadyBaseline, TranslationReady, SourceReady, NamesReady, FirstResources, ComposedFirst, RuntimeNames,
      SharedBound, ValidMethods;
    hide WithPaths, WithProperty, PathsOf, SharedReady, API, STAGE, PATH;
    ComposedResources(t, source, native, deployment);
    FirstEntries(t, source, native, deployment);
    CapturedParts(native);
    BaselineShared(t);
    SharedFits(Resources(t), after, Look(Paths(native), PATH), deployment);
  }

  lemma BaselineShared(t: Json)
    requires ReadyBaseline(t)
    ensures SharedReady(Resources(t)) && NativeShape(t)
  {
    hide SharedReady, NativeShape;
  }

  lemma ShapeAfter(t: Json, source: Json, native: Json, deployment: string)
    requires Ready(t, source, native, deployment)
    ensures NativeShape(ComposedFirst(t, source, native, deployment))
  {
    var after := FirstResources(Resources(t), native, deployment);
    hide ReadyBaseline, TranslationReady, SourceReady, NamesReady, FirstResources, ComposedFirst, RuntimeNames, Typed,
      NativeTemplate, Extended;
    ComposedResources(t, source, native, deployment);
    FirstEntries(t, source, native, deployment);
    CapturedParts(native);
    ShapeOf(native);
    BaselineShared(t);
    ThnNames(native, deployment);
    TypedAfter(t, native, after, deployment);
  }

  lemma ShapeOf(t: Json)
    requires NativeTemplate(t)
    ensures NativeShape(t)
  {
    hide NativeShape, SharedBound, RuntimeBound;
  }

  // ------------------------------------------------------------- review and runs

  /** The additions plus the two modifications that the review allows are the difference that `compose` makes. */
  lemma FirstDiff(t: Json, source: Json, native: Json, deployment: string, inventory: Json)
    requires Ready(t, source, native, deployment)
    ensures var after := Resources(ComposedFirst(t, source, native, deployment));
      var plan := Plan(Additions(native, deployment), after, inventory);
      Sound(plan) && Expected(plan) == Diff(Resources(t), after)
  {
    var rs, after := Resources(t), FirstResources(Resources(t), native, deployment);
    hide *;
    ReadyParts(t, source, native, deployment);
    ComposedResources(t, source, native, deployment);
    FirstEntries(t, source, native, deployment);
    EditsOnce(t, native, after, deployment);
    ExtendedDiff(rs, after, native, deployment);
    ExpectedDiff(rs, after, Additions(native, deployment), inventory);
  }

  /** Each shared resource changes in exactly one property. */
  predicate EditedOnce(rs: map<string, Json>, after: map<string, Json>) {
    && API in rs && STAGE in rs && API in after && STAGE in after && API != STAGE
    && after[API] != rs[API] && !ChangedBeyond(rs[API], after[API])
    && after[STAGE] != rs[STAGE] && !ChangedBeyond(rs[STAGE], after[STAGE])
    && ChangedProperties(Properties(rs[API]), Properties(after[API])) == {"Body"}
    && ChangedProperties(Properties(rs[STAGE]), Properties(after[STAGE])) == {"DeploymentId"}
  }

  lemma EditsOnce(t: Json, native: Json, after: map<string, Json>, deployment: string)
    requires ReadyBaseline(t) && Extended(Resources(t), after, native, deployment)
    ensures EditedOnce(Resources(t), after)
  {
    var rs := Resources(t);
    BaselineParts(t);
    assert deployment in Additions(native, deployment);
    ApiIsNotStage();
    hide ReadyBaseline, Additions, RuntimeNames, Retained, Definition, API, STAGE;
    ApiEditedOnce(rs[API], Look(Paths(native), PATH));
    StageEditedOnce(rs[STAGE], deployment);
  }

  lemma ApiEditedOnce(api: Json, route: Json)
    requires Definition(api) && PATH !in PathsOf(api)
    ensures var edited := WithPaths(api, PathsOf(api)[PATH := route]);
      edited != api && !ChangedBeyond(api, edited) && ChangedProperties(Properties(api), Properties(edited)) == {"Body"}
  {
    var paths := PathsOf(api)[PATH := route];
    var body := With(Body(api), "paths", Obj(paths));
    assert PATH in paths && Get(body, "paths") == Obj(paths);
    assert Body(api) != body;
    hide PATH;
    OnePropertyChanged(api, "Body", body);
  }

  lemma StageEditedOnce(stage: Json, deployment: string)
    requires Properties(stage).Obj? && PointsTo(stage).Str? && PointsTo(stage).s != deployment
    ensures var edited := WithProperty(stage, "DeploymentId", Ref(deployment));
      && edited != stage && !ChangedBeyond(stage, edited)
      && ChangedProperties(Properties(stage), Properties(edited)) == {"DeploymentId"}
  {
    assert Get(Ref(deployment), "Ref") == Str(deployment);
    OnePropertyChanged(stage, "DeploymentId", Ref(deployment));
  }

  predicate EditedTable(rs: map<string, Json>, after: map<string, Json>, additions: set<string>) {
    && after.Keys == rs.Keys + additions && rs.Keys !! additions && EditedOnce(rs, after)
    && forall n | n in rs && n != API && n != STAGE :: after[n] == rs[n]
  }

  lemma ExtendedDiff(rs: map<string, Json>, after: map<string, Json>, native: Json, deployment: string)
    requires Extended(rs, after, native, deployment) && EditedOnce(rs, after)
    ensures EditedTable(rs, after, Additions(native, deployment))
  {
    hide RuntimeNames, Retained, Additions, EditedOnce, API, STAGE;
  }

  lemma ExpectedDiff(rs: map<string, Json>, after: map<string, Json>, additions: set<string>, inventory: Json)
    requires EditedTable(rs, after, additions)
    ensures Sound(Plan(additions, after, inventory)) && Expected(Plan(additions, after, inventory)) == Diff(rs, after)
  {
    hide ChangedProperties, ChangedBeyond, API, STAGE;
    assert (set n | n in after && n !in rs :: Added(n)) == (set n | n in additions :: Added(n));
    assert (set n | n in rs && n !in after :: Removed(n)) == {};
    var changed := set n | n in rs && n in after && rs[n] != after[n] ::
      Changed(n, ChangedProperties(Properties(rs[n]), Properties(after[n])), ChangedBeyond(rs[n], after[n]));
    assert changed == {Changed(API, {"Body"}, false), Changed(STAGE, {"DeploymentId"}, false)};
  }

  /** After the first composition and any run of transitions, the baseline is untouched but for route and pointer. */
  lemma BaselineSurvivesRuns(
      t: Json, source: Json, native: Json, deployment: string, ts: seq<Json>, record: Json, steps: seq<Step>)
    requires Ready(t, source, native, deployment)
    requires IsRun(ts, record, steps) && ts[0] == ComposedFirst(t, source, native, deployment)
      && CaptureRoutes(ts[0]) == Ok(record)
    ensures var last := Resources(ts[|steps|]);
      && (forall n | n in Resources(t) && n != API && n != STAGE :: n in last && last[n] == Resources(t)[n])
      && WithPaths(Resource(ts[|steps|], API), Paths(ts[|steps|]) - {PATH}) == Resource(t, API)
      && WithoutProperty(Resource(ts[|steps|], STAGE), "DeploymentId")
         == WithoutProperty(Resource(t, STAGE), "DeploymentId")
  {
    CapturedOpen(ts[0], record);
    hide Ready, Accepted, Next, NativeTemplate, ComposedFirst, FirstResources, DeploymentOf, WithPaths, Paths,
      CaptureRoutes, Extended;
    ExactlyAsManyDeployments(ts, record, steps);
    ComposedResources(t, source, native, deployment);
    FirstEntries(t, source, native, deployment);
    ExtendedRetained(Resources(t), FirstResources(Resources(t), native, deployment), native, deployment);
    ApiSurvives(t, source, native, deployment, ts, record, steps);
    StageSurvives(t, source, native, deployment, ts, record, steps);
  }

  lemma StageSurvives(
      t: Json, source: Json, native: Json, deployment: string, ts: seq<Json>, record: Json, steps: seq<Step>)
    requires Ready(t, source, native, deployment)
    requires IsRun(ts, record, steps) && |ts| == |steps| + 1
    requires ts[0] == ComposedFirst(t, source, native, deployment) && CaptureRoutes(ts[0]) == Ok(record)
    ensures WithoutProperty(Resource(ts[|steps|], STAGE), "DeploymentId")
      == WithoutProperty(Resource(t, STAGE), "DeploymentId")
  {
    hide *;
    CapturedOpen(ts[0], record);
    StageBesidesPointer(ts, record, steps);
    FirstStage(t, source, native, deployment);
  }

  lemma FirstStage(t: Json, source: Json, native: Json, deployment: string)
    requires Ready(t, source, native, deployment)
    ensures WithoutProperty(Resource(ComposedFirst(t, source, native, deployment), STAGE), "DeploymentId")
      == WithoutProperty(Resource(t, STAGE), "DeploymentId")
  {
    ReadyParts(t, source, native, deployment);
    hide Ready, ReadyBaseline, ComposedFirst, FirstResources, WithProperty, WithoutProperty, Extended, STAGE;
    ComposedResources(t, source, native, deployment);
    FirstEntries(t, source, native, deployment);
    StageEntry(Resources(t), FirstResources(Resources(t), native, deployment), native, deployment);
    TwiceSame(Resource(t, STAGE), "DeploymentId", Ref(deployment), Null);
  }

  lemma StageEntry(rs: map<string, Json>, after: map<string, Json>, native: Json, deployment: string)
    requires Extended(rs, after, native, deployment)
    ensures STAGE in rs && STAGE in after && after[STAGE] == WithProperty(rs[STAGE], "DeploymentId", Ref(deployment))
  {
    hide Additions, Retained;
  }

  lemma ApiSurvives(
      t: Json, source: Json, native: Json, deployment: string, ts: seq<Json>, record: Json, steps: seq<Step>)
    requires Ready(t, source, native, deployment)
    requires IsRun(ts, record, steps) && |ts| == |steps| + 1
    requires ts[0] == ComposedFirst(t, source, native, deployment) && CaptureRoutes(ts[0]) == Ok(record)
    ensures WithPaths(Resource(ts[|steps|], API), Paths(ts[|steps|]) - {PATH}) == Resource(t, API)
  {
    hide *;
    CapturedOpen(ts[0], record);
    ApiBesidesRoute(ts, record, steps);
    FirstApi(t, source, native, deployment);
  }

  lemma FirstApi(t: Json, source: Json, native: Json, deployment: string)
    requires Ready(t, source, native, deployment)
    ensures var first := ComposedFirst(t, source, native, deployment);
      WithPaths(Resource(first, API), Paths(first) - {PATH}) == Resource(t, API)
  {
    var first, was := ComposedFirst(t, source, native, deployment), Resource(t, API);
    ReadyParts(t, source, native, deployment);
    hide Ready, ReadyBaseline, ComposedFirst, FirstResources, WithPaths, Extended, PathsOf, API, STAGE, PATH;
    ComposedResources(t, source, native, deployment);
    FirstEntries(t, source, native, deployment);
    ApiEntry(Resources(t), FirstResources(Resources(t), native, deployment), native, deployment);
    assert Resource(first, API) == WithPaths(was, PathsOf(was)[PATH := Look(Paths(native), PATH)]);
    ErasedApi(t, Look(Paths(native), PATH));
  }

  lemma ApiEntry(rs: map<string, Json>, after: map<string, Json>, native: Json, deployment: string)
    requires Extended(rs, after, native, deployment)
    ensures API in rs && API in after
      && after[API] == WithPaths(rs[API], PathsOf(rs[API])[PATH := Look(Paths(native), PATH)])
  {
    hide Additions, Retained;
  }
}
