/** Templates the route theorems speak about exist: a captured one, and a baseline with a source that provisions it. */
module Examples {
  import opened FirstProvisioning
  import opened Json
  import opened Routes
  import opened Templates
  import CodePointer

  function ResourceOf(kind: string, properties: map<string, Json>): Json {
    Obj(map["Type" := Str(kind), "Properties" := Obj(properties)])
  }

  lemma TypedReads(kind: string, properties: map<string, Json>)
    ensures
      var r := ResourceOf(kind, properties);
      Get(r, "Type") == Str(kind) && Properties(r) == Obj(properties) && r.Obj?
  {
  }

  const VERSION_NAME := "ThnAuthRuntimeV2FunctionVersion"
  const ORIGINAL := "OriginalDeployment"

  function ExampleMethod(): Json {
    Obj(map["x-amazon-apigateway-integration" := Obj(map[
      "type" := Str("aws_proxy"), "httpMethod" := Str("POST"),
      "uri" := Obj(map["Fn::Sub" := Str(EXPECTED_HEAD + "aws" + EXPECTED_TAIL)])])])
  }

  function ExampleMethods(): Json { Obj(map["get" := ExampleMethod(), "post" := ExampleMethod()]) }

  function ExampleApi(paths: map<string, Json>): Json {
    ResourceOf("AWS::ApiGateway::RestApi", map["Body" := Obj(map["paths" := Obj(paths)])])
  }

  function ExampleStage(): Json {
    ResourceOf("AWS::ApiGateway::Stage",
      map["RestApiId" := Ref(API), "StageName" := Str("Prod"), "DeploymentId" := Ref(ORIGINAL)])
  }

  function ExamplePermission(): Json {
    ResourceOf("AWS::Lambda::Permission", map[
      "FunctionName" := Ref(ALIAS), "Action" := Str("lambda:InvokeFunction"),
      "Principal" := Str("apigateway.amazonaws.com")])
  }

  function ExampleAlias(): Json {
    ResourceOf("AWS::Lambda::Alias", map[
      "FunctionName" := Ref(FUNCTION), "Name" := Str("test"),
      "FunctionVersion" := Obj(map["Fn::GetAtt" := List([Str(VERSION_NAME), Str("Version")])])])
  }

  function ExampleFunction(): Json {
    ResourceOf("AWS::Lambda::Function", map["Role" := Obj(map["Fn::GetAtt" := List([Str(ROLE), Str("Arn")])])])
  }

  function ExampleResources(): map<string, Json> {
    map[API := ExampleApi(map[PATH := ExampleMethods()]), STAGE := ExampleStage(),
      ORIGINAL := RetainedDeployment("original"),
        FUNCTION := ExampleFunction(), ROLE := ResourceOf("AWS::IAM::Role", map[]), ALIAS := ExampleAlias(),
        VERSION_NAME := ResourceOf("AWS::Lambda::Version", map["FunctionName" := Ref(FUNCTION)]),
        PermissionName("Get") := ExamplePermission(), PermissionName("Post") := ExamplePermission()]
  }

  function ExampleTemplate(): Json { Obj(map["Resources" := Obj(ExampleResources())]) }

  /** The names of the example are different, so each entry is found under its name. */
  lemma Entries()
    ensures var rs := ExampleResources();
      && rs.Keys == {API, STAGE, ORIGINAL, FUNCTION, ROLE, ALIAS, VERSION_NAME, PermissionName("Get"),
        PermissionName("Post")}
      && rs[API] == ExampleApi(map[PATH := ExampleMethods()]) && rs[STAGE] == ExampleStage()
      && rs[ORIGINAL] == RetainedDeployment("original") && rs[FUNCTION] == ExampleFunction()
      && rs[ROLE] == ResourceOf("AWS::IAM::Role", map[]) && rs[ALIAS] == ExampleAlias()
      && rs[VERSION_NAME] == ResourceOf("AWS::Lambda::Version", map["FunctionName" := Ref(FUNCTION)])
      && rs[PermissionName("Get")] == ExamplePermission() && rs[PermissionName("Post")] == ExamplePermission()
  {
    hide ResourceOf, ExampleApi, ExampleMethods, ExampleStage, ExampleAlias, ExampleFunction, ExamplePermission,
      RetainedDeployment;
  }

  lemma MethodIsValid()
    ensures ValidMethod(ExampleMethod()) && ValidMethods(ExampleMethods())
  {
    var uri := Obj(map["Fn::Sub" := Str(EXPECTED_HEAD + "aws" + EXPECTED_TAIL)]);
    assert "Fn::Sub" in uri.fields && "Fn::If" !in uri.fields;
    assert "get" in ExampleMethods().fields && "Fn::If" !in ExampleMethods().fields;
  }

  lemma ApiFits(paths: map<string, Json>)
    ensures var api := ExampleApi(paths);
      Definition(api) && PathsOf(api) == paths && Get(api, "Type") == Str("AWS::ApiGateway::RestApi")
        && Properties(api).Obj?
  {
  }

  lemma StageFitsExample(rs: map<string, Json>)
    requires ORIGINAL in rs && rs[ORIGINAL] == RetainedDeployment("original")
    ensures StageBound(rs, ExampleStage()) && Get(ExampleStage(), "Type") == Str("AWS::ApiGateway::Stage")
    ensures Properties(ExampleStage()).Obj? && PointsTo(ExampleStage()) == Str(ORIGINAL) && Deployment(rs, ORIGINAL)
  {
    TypedReads("AWS::ApiGateway::Stage",
      map["RestApiId" := Ref(API), "StageName" := Str("Prod"), "DeploymentId" := Ref(ORIGINAL)]);
    hide ResourceOf, API, ORIGINAL;
  }

  lemma AliasFits(rs: map<string, Json>)
    requires VERSION_NAME in rs
      && rs[VERSION_NAME] == ResourceOf("AWS::Lambda::Version", map["FunctionName" := Ref(FUNCTION)])
    ensures AliasBound(rs, ExampleAlias()) && Get(ExampleAlias(), "Type") == Str("AWS::Lambda::Alias")
      && Properties(ExampleAlias()).Obj?
  {
    hide VERSION_NAME, FUNCTION;
  }

  lemma PermissionFits(rs: map<string, Json>, verb: string)
    requires PermissionName(verb) in rs && rs[PermissionName(verb)] == ExamplePermission()
    ensures Permitted(rs, verb)
  {
    hide PermissionName, ALIAS;
  }

  lemma FunctionFits()
    ensures var f := ExampleFunction();
      && Get(f, "Type") == Str("AWS::Lambda::Function") && Properties(f).Obj?
      && Get(Properties(f), "Role") == Obj(map["Fn::GetAtt" := List([Str(ROLE), Str("Arn")])])
  {
    hide ROLE;
  }

  lemma ExampleIsBound()
    ensures SharedBound(ExampleResources()) && RuntimeBound(ExampleResources())
  {
    var rs := ExampleResources();
    Entries();
    hide ExampleResources, ExampleApi, ExampleStage, ExampleAlias, ExampleFunction, ExamplePermission, StageBound,
      AliasBound, Permitted;
    ApiFits(map[PATH := ExampleMethods()]);
    StageFitsExample(rs);
    AliasFits(rs);
    PermissionFits(rs, "Get");
    PermissionFits(rs, "Post");
    FunctionFits();
    TypedReads("AWS::IAM::Role", map[]);
  }

  lemma TypedIs(kind: string, properties: map<string, Json>)
    requires !("AWS::Serverless::" <= kind)
    ensures Typed(ResourceOf(kind, properties))
  {
  }

  /** Every resource of the examples has a native type. */
  lemma PartsAreTyped(paths: map<string, Json>)
    ensures Typed(ExampleApi(paths)) && Typed(ExampleStage()) && Typed(ExampleAlias()) && Typed(ExampleFunction())
    ensures Typed(ExamplePermission()) && Typed(RetainedDeployment("original"))
      && Typed(ResourceOf("AWS::IAM::Role", map[]))
    ensures Typed(ResourceOf("AWS::Lambda::Version", map["FunctionName" := Ref(FUNCTION)])) && Typed(SharedFunction())
  {
    NotServerless();
    RetainedDeploymentFits(ORIGINAL, "original");
    hide Typed, ResourceOf, RetainedDeployment, FUNCTION, ROLE, ALIAS, VERSION_NAME, ORIGINAL, API;
    TypedIs("AWS::ApiGateway::RestApi", map["Body" := Obj(map["paths" := Obj(paths)])]);
    TypedIs("AWS::ApiGateway::Stage",
      map["RestApiId" := Ref(API), "StageName" := Str("Prod"), "DeploymentId" := Ref(ORIGINAL)]);
    TypedIs("AWS::Lambda::Alias", map[
      "FunctionName" := Ref(FUNCTION), "Name" := Str("test"),
      "FunctionVersion" := Obj(map["Fn::GetAtt" := List([Str(VERSION_NAME), Str("Version")])])]);
    TypedIs("AWS::Lambda::Function", map["Role" := Obj(map["Fn::GetAtt" := List([Str(ROLE), Str("Arn")])])]);
    TypedIs("AWS::Lambda::Permission", map[
      "FunctionName" := Ref(ALIAS), "Action" := Str("lambda:InvokeFunction"),
      "Principal" := Str("apigateway.amazonaws.com")]);
    TypedIs("AWS::IAM::Role", map[]);
    TypedIs("AWS::Lambda::Version", map["FunctionName" := Ref(FUNCTION)]);
    TypedIs("AWS::Lambda::Function", map[]);
  }

  lemma ExampleIsTyped()
    ensures forall n | n in ExampleResources() :: Typed(ExampleResources()[n])
  {
    hide *;
    Entries();
    PartsAreTyped(map[PATH := ExampleMethods()]);
  }

  lemma NotServerless()
    ensures !("AWS::Serverless::" <= "AWS::ApiGateway::RestApi") && !("AWS::Serverless::" <= "AWS::ApiGateway::Stage")
    ensures !("AWS::Serverless::" <= "AWS::Lambda::Alias") && !("AWS::Serverless::" <= "AWS::Lambda::Function")
    ensures !("AWS::Serverless::" <= "AWS::IAM::Role") && !("AWS::Serverless::" <= "AWS::Lambda::Version")
    ensures !("AWS::Serverless::" <= "AWS::Lambda::Permission")
  {
    assert "AWS::Serverless::"[5] == 'S' && "AWS::ApiGateway::RestApi"[5] == 'A' && "AWS::ApiGateway::Stage"[5] == 'A';
    assert "AWS::Lambda::Alias"[5] == 'L' && "AWS::Lambda::Function"[5] == 'L' && "AWS::Lambda::Version"[5] == 'L';
    assert "AWS::Lambda::Permission"[5] == 'L' && "AWS::IAM::Role"[5] == 'I';
  }

  /** A native template with open routes exists: its routes can be captured. */
  lemma CapturedTemplateExists()
    ensures CaptureRoutes(ExampleTemplate()).Ok?
  {
    hide *;
    var t := ExampleTemplate();
    ExampleShape();
    ExampleIsTyped();
    ExampleIsBound();
    MethodIsValid();
    CaptureOf(t);
    NativeShapeOf(t);
  }

  lemma ExampleShape()
    ensures var t := ExampleTemplate();
      && t.Obj? && Get(t, "Resources").Obj? && "Transform" !in t.fields && Resources(t) == ExampleResources()
      && PATH in Paths(t) && Paths(t)[PATH] == ExampleMethods()
  {
    Entries();
    ApiFits(map[PATH := ExampleMethods()]);
    hide ExampleResources, ExampleApi, ExampleMethods, API, PATH;
    assert Get(ExampleTemplate(), "Resources") == Obj(ExampleResources());
  }

  lemma NativeShapeOf(t: Json)
    ensures NativeShape(t) <==>
      t.Obj? && "Transform" !in t.fields && Get(t, "Resources").Obj? &&
      forall n | n in Resources(t) :: Typed(Resources(t)[n])
  {
    hide Typed;
  }

  // ------------------------------------------------------------------ baseline

  function SharedFunction(): Json { ResourceOf("AWS::Lambda::Function", map[]) }

  function BaselineResources(): map<string, Json> {
    map[API := ExampleApi(map[]), STAGE := ExampleStage(), ORIGINAL := RetainedDeployment("original"),
        CodePointer.FUNCTIONS[0] := SharedFunction(), CodePointer.FUNCTIONS[1] := SharedFunction(),
        CodePointer.FUNCTIONS[2] := SharedFunction()]
  }

  function StringParameters(names: seq<string>): Json {
    Obj(map n | n in names :: Obj(map["Type" := Str("String")]))
  }

  function ExampleBaseline(): Json {
    Obj(map["Resources" := Obj(BaselineResources()),
      "Parameters" := StringParameters(["AuthRuntimeEnvironment", "LogLevel"])])
  }

  function ExampleSource(): Json {
    Obj(map["Parameters" := StringParameters(PARAMETERS), "Rules" := Obj(map[RULE := Null]),
      "Conditions" := Obj(map[CONDITION := Null])])
  }

  lemma SourceIsReady()
    ensures SourceReady(ExampleSource())
  {
    hide PARAMETERS, RULE, CONDITION;
  }

  lemma BaselineEntries()
    ensures var rs := BaselineResources();
      && rs.Keys == {API, STAGE, ORIGINAL, CodePointer.FUNCTIONS[0], CodePointer.FUNCTIONS[1], CodePointer.FUNCTIONS[2]}
      && rs[API] == ExampleApi(map[]) && rs[STAGE] == ExampleStage() && rs[ORIGINAL] == RetainedDeployment("original")
      && (forall f | f in CodePointer.FUNCTIONS :: f in rs && rs[f] == SharedFunction())
  {
    hide ResourceOf, ExampleApi, ExampleStage, RetainedDeployment;
  }

  lemma BaselineIsShared()
    ensures SharedReady(BaselineResources()) && forall n | n in BaselineResources() :: Typed(BaselineResources()[n])
  {
    hide *;
    BaselineEntries();
    PartsAreTyped(map[]);
    ApiFits(map[]);
    StageFitsExample(BaselineResources());
    TypedReads("AWS::Lambda::Function", map[]);
    SharedWhen(BaselineResources());
    FunctionsListed();
  }

  lemma FunctionsListed()
    ensures
      var fs := CodePointer.FUNCTIONS;
      forall f :: f in {fs[0], fs[1], fs[2]} <==> f in fs
  {
    var fs := CodePointer.FUNCTIONS;
    assert fs == [fs[0], fs[1], fs[2]];
  }

  lemma SharedWhen(rs: map<string, Json>)
    requires API in rs && STAGE in rs && rs[API] == ExampleApi(map[]) && rs[STAGE] == ExampleStage()
    requires ORIGINAL in rs && rs[ORIGINAL] == RetainedDeployment("original")
    requires forall f | f in CodePointer.FUNCTIONS :: f in rs && rs[f] == SharedFunction()
    ensures SharedReady(rs)
  {
    ApiFits(map[]);
    StageFitsExample(rs);
    TypedReads("AWS::Lambda::Function", map[]);
    hide ExampleApi, ExampleStage, ResourceOf, RetainedDeployment, Definition, API, STAGE, PATH, ORIGINAL,
      CodePointer.FUNCTIONS;
    assert StageReady(rs);
  }

  lemma BaselineIsReady()
    ensures ReadyBaseline(ExampleBaseline())
  {
    BaselineIsShared();
    BaselineNames();
    BaselineShape();
    NativeShapeOf(ExampleBaseline());
    hide BaselineResources, SharedReady, Typed, NativeShape, ExampleBaseline, PARAMETERS, RULE, CONDITION,
      StringParameter, StringParameters;
  }

  lemma BaselineNames()
    ensures forall n | n in BaselineResources() :: !("Thn" <= n)
  {
    BaselineEntries();
    assert "Thn"[0] == 'T' && API[0] == 'A' && STAGE[0] == 'A' && ORIGINAL[0] == 'O';
    assert CodePointer.FUNCTIONS[0][0] == 'A' && CodePointer.FUNCTIONS[1][0] == 'A'
      && CodePointer.FUNCTIONS[2][0] == 'A';
  }

  lemma BaselineShape()
    ensures var t := ExampleBaseline();
      && t.Obj? && Get(t, "Resources").Obj? && "Transform" !in t.fields && Resources(t) == BaselineResources()
      && SectionOk(t, "Parameters") && SectionOk(t, "Rules") && SectionOk(t, "Conditions")
      && (forall p | p in PARAMETERS :: p !in Fields(Get(t, "Parameters")))
      && Get(t, "Rules") == Null && Get(t, "Conditions") == Null
      && StringParameter(t, "AuthRuntimeEnvironment") && StringParameter(t, "LogLevel")
  {
    NotParameters();
    hide BaselineResources, PARAMETERS;
  }

  lemma NotParameters()
    ensures "AuthRuntimeEnvironment" !in PARAMETERS && "LogLevel" !in PARAMETERS
  {
  }

  lemma ExampleNames()
    ensures NamesReady(ExampleTemplate())
  {
    hide *;
    var t := ExampleTemplate();
    Entries();
    ExampleShape();
    VersionOfExample(t);
    ThnNamesOfExample();
    RuntimeNamesCount();
    NamesWhen(t);
  }

  lemma NamesWhen(t: Json)
    requires VersionName(t) == VERSION_NAME
    requires |{FUNCTION, ROLE, ALIAS, VERSION_NAME, PermissionName("Get"), PermissionName("Post")}| == 6
    requires Resources(t).Keys
      == {API, STAGE, ORIGINAL, FUNCTION, ROLE, ALIAS, VERSION_NAME, PermissionName("Get"), PermissionName("Post")}
    requires "Thn" <= FUNCTION && "Thn" <= ROLE && "Thn" <= ALIAS && "Thn" <= VERSION_NAME
    requires "Thn" <= PermissionName("Get") && "Thn" <= PermissionName("Post")
    requires !("Thn" <= API) && !("Thn" <= STAGE) && !("Thn" <= ORIGINAL)
    ensures NamesReady(t)
  {
    hide API, STAGE, ORIGINAL, FUNCTION, ROLE, ALIAS, VERSION_NAME, PermissionName, VersionName;
    assert (set n | n in Resources(t) && "Thn" <= n) == RuntimeNames(t);
  }

  lemma VersionOfExample(t: Json)
    requires Resources(t) == ExampleResources() && Get(t, "Resources").Obj?
    ensures VersionName(t) == VERSION_NAME
  {
    Entries();
    hide ExampleResources, ALIAS, VERSION_NAME, FUNCTION;
    assert Resource(t, ALIAS) == ExampleAlias();
  }

  lemma ThnNamesOfExample()
    ensures "Thn" <= FUNCTION && "Thn" <= ROLE && "Thn" <= ALIAS && "Thn" <= VERSION_NAME
    ensures "Thn" <= PermissionName("Get") && "Thn" <= PermissionName("Post")
    ensures !("Thn" <= API) && !("Thn" <= STAGE) && !("Thn" <= ORIGINAL)
  {
    assert "Thn"[0] == 'T' && API[0] == 'A' && STAGE[0] == 'A' && ORIGINAL[0] == 'O';
  }

  lemma RuntimeNamesCount()
    ensures |{FUNCTION, ROLE, ALIAS, VERSION_NAME, PermissionName("Get"), PermissionName("Post")}| == 6
  {
  }

  /** Inputs of a first composition that pass every check before the composed template is looked at exist. */
  lemma ReadyInputsExist()
    ensures Ready(ExampleBaseline(), ExampleSource(), ExampleTemplate(), "ThnRuntimeFirst" + "0")
    ensures "ThnRuntimeFirst" + "0" != VersionName(ExampleTemplate())
  {
    hide *;
    BaselineIsReady();
    CapturedTemplateExists();
    ExampleNames();
    SourceIsReady();
    ReadyWhen(ExampleBaseline(), ExampleSource(), ExampleTemplate(), "ThnRuntimeFirst" + "0");
    ExampleShape();
    VersionOfExample(ExampleTemplate());
    VersionIsLonger();
  }

  lemma ReadyWhen(t: Json, source: Json, native: Json, deployment: string)
    requires ReadyBaseline(t) && CaptureRoutes(native).Ok? && NamesReady(native) && SourceReady(source)
    requires deployment == "ThnRuntimeFirst" + "0"
    ensures Ready(t, source, native, deployment)
  {
    hide ReadyBaseline, CaptureRoutes, NamesReady, SourceReady;
  }

  lemma VersionIsLonger()
    ensures "ThnRuntimeFirst" + "0" != VERSION_NAME
  {
    assert |VERSION_NAME| > |"ThnRuntimeFirst" + "0"|;
  }
}
