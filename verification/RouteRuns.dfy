/** Any number of accepted close and reopen transitions, one after the other. */
module RouteRuns {
  import opened Json
  import opened Routes
  import opened Templates

  datatype Step = Step(op: Operation, token: string)

  predicate Accepted(t: Json, record: Json, s: Step) { Refusal(t, record, s.op, s.token).None? }

  function Name(s: Step): string {
    if Token(s.token) then Logical(s.op, s.token) else ""
  }

  /** The template that `compose` returns. */
  function Next(t: Json, record: Json, s: Step): Json { Composed(t, s.op, Get(record, "methods"), Name(s)) }

  /** Every transition is accepted, and the stack then has the composed template. */
  predicate IsRun(ts: seq<Json>, record: Json, steps: seq<Step>) {
    && |ts| == |steps| + 1
    && forall i | 0 <= i < |steps| :: Accepted(ts[i], record, steps[i]) && ts[i + 1] == Next(ts[i], record, steps[i])
  }

  predicate Open(t: Json) { PATH in Paths(t) }

  function Names(steps: seq<Step>): set<string> { set s | s in steps :: Name(s) }

  predicate Distinct(steps: seq<Step>) {
    forall i, j | 0 <= i < j < |steps| :: Name(steps[i]) != Name(steps[j])
  }

  /** Resources: exactly one retained deployment per step was added, and only API and stage were edited. */
  predicate Grown(first: map<string, Json>, last: map<string, Json>, steps: seq<Step>) {
    && last.Keys == first.Keys + Names(steps) && Names(steps) !! first.Keys && Distinct(steps)
    && (forall n | n in first && n != API && n != STAGE :: last[n] == first[n])
    && forall s | s in steps :: Name(s) in last && last[Name(s)] == DeploymentOf(s.op)
  }

  /** The API: the original one but for the route, which is the captured one whenever it is there. */
  predicate SameApi(first: Json, last: Json, methods: Json) {
    && Resource(last, API) == WithPaths(Resource(first, API), Paths(last))
    && Paths(last) - {PATH} == Paths(first) - {PATH}
    && (Open(last) ==> Paths(last)[PATH] == methods)
  }

  /** What any run of `steps` from `first` to `last` keeps. */
  predicate Kept(first: Json, last: Json, record: Json, steps: seq<Step>) {
    && NativeTemplate(first) && NativeTemplate(last)
    && Grown(Resources(first), Resources(last), steps)
    && (steps == [] ==> last == first)
    && (steps != [] ==>
          && SameApi(first, last, Get(record, "methods"))
          && PointsTo(Resource(last, STAGE)) == Str(Name(steps[|steps| - 1]))
          && (Open(last) <==> steps[|steps| - 1].op.Reopen?))
    && Stripped(last, Resources(first).Keys) == Stripped(first, Resources(first).Keys)
  }

  lemma AcceptedParts(t: Json, record: Json, s: Step)
    requires Accepted(t, record, s)
    ensures NativeTemplate(t) && Token(s.token) && Name(s) == Logical(s.op, s.token) && Name(s) !in Resources(t)
    ensures Open(t) <==> s.op.Close?
    ensures s.op.Close? ==> Paths(t)[PATH] == Get(record, "methods")
  {
    hide NativeTemplate, ValidRecord, Logical, Paths, Token;
  }

  lemma NativeHasBoth(t: Json)
    requires NativeTemplate(t)
    ensures SharedBound(Resources(t)) && API in Resources(t) && STAGE in Resources(t)
    ensures Definition(Resource(t, API))
  {
  }

  /** What one accepted transition does to the route table, the API and the stage. */
  lemma NextLaws(t: Json, record: Json, s: Step)
    requires Accepted(t, record, s) && NativeTemplate(t) && Token(s.token)
    ensures var next := Next(t, record, s);
      && NativeTemplate(next) && Paths(next) == Moved(Paths(t), s.op, Get(record, "methods"))
      && Resources(next).Keys == Resources(t).Keys + {Name(s)} && Resources(next)[Name(s)] == DeploymentOf(s.op)
      && (forall n | n in Resources(t) && n != API && n != STAGE :: Resources(next)[n] == Resources(t)[n])
      && Resource(next, API) == WithPaths(Resource(t, API), Paths(next))
      && PointsTo(Resource(next, STAGE)) == Str(Name(s))
  {
    hide NativeTemplate, SharedBound, RuntimeBound, Token, ValidRecord;
    AcceptedParts(t, record, s);
    NativeHasBoth(t);
    var methods, rs := Get(record, "methods"), Resources(t);
    var paths := Moved(Paths(t), s.op, methods);
    ComposedIsNative(t, s.op, methods, Name(s));
    OthersKept(rs, paths, Name(s), DeploymentOf(s.op));
    RetainedDeploymentFits(Name(s), "THN retained runtime routes " + Word(s.op));
    SharedKept(rs, paths, Name(s), DeploymentOf(s.op));
    assert Name(s) != API && API != STAGE;
  }

  lemma {:induction false} RunLaws(ts: seq<Json>, record: Json, steps: seq<Step>)
    requires IsRun(ts, record, steps) && NativeTemplate(ts[0])
    ensures Kept(ts[0], ts[|steps|], record, steps)
    decreases |steps|
  {
    hide NativeTemplate, Next, Accepted, Kept;
    var n := |steps|;
    if n == 0 {
      KeptAtFirst(ts[0], record);
    } else {
      var before := steps[..n - 1];
      assert IsRun(ts[..n], record, before);
      RunLaws(ts[..n], record, before);
      assert steps == before + [steps[n - 1]];
      KeptStep(ts[0], ts[n - 1], record, before, steps[n - 1]);
    }
  }

  lemma KeptAtFirst(t: Json, record: Json)
    requires NativeTemplate(t)
    ensures Kept(t, t, record, [])
  {
    hide NativeTemplate;
    assert Names([]) == {};
  }

  lemma KeptStep(first: Json, t: Json, record: Json, before: seq<Step>, s: Step)
    requires Kept(first, t, record, before) && Accepted(t, record, s)
    ensures Kept(first, Next(t, record, s), record, before + [s])
  {
    var next, names := Next(t, record, s), Resources(first).Keys;
    hide NativeTemplate, SharedBound, RuntimeBound, Token, ValidRecord, Next, Stripped;
    AcceptedParts(t, record, s);
    NextLaws(t, record, s);
    NativeHasBoth(first);
    NativeHasBoth(t);
    GrownStep(Resources(first), Resources(t), Resources(next), before, s);
    ApiStep(first, t, next, before, record, s);
    StrippedStep(t, names, record, s);
  }

  lemma StrippedStep(t: Json, names: set<string>, record: Json, s: Step)
    requires Accepted(t, record, s) && NativeTemplate(t) && names <= Resources(t).Keys && API in names && STAGE in names
    ensures NativeTemplate(Next(t, record, s)) && Stripped(Next(t, record, s), names) == Stripped(t, names)
  {
    hide NativeTemplate, SharedBound, Token, Stripped;
    AcceptedParts(t, record, s);
    LogicalIsRetained(s.op, s.token);
    StrippedKept(t, names, s.op, Get(record, "methods"), Logical(s.op, s.token));
  }

  lemma GrownStep(first: map<string, Json>, rs: map<string, Json>, next: map<string, Json>, before: seq<Step>, s: Step)
    requires Grown(first, rs, before) && Name(s) !in rs && API in first && STAGE in first
    requires next.Keys == rs.Keys + {Name(s)} && next[Name(s)] == DeploymentOf(s.op)
    requires forall n | n in rs && n != API && n != STAGE :: next[n] == rs[n]
    ensures Grown(first, next, before + [s])
  {
    hide Name, DeploymentOf;
    var steps := before + [s];
    assert Names(steps) == Names(before) + {Name(s)};
    forall x | x in steps ensures Name(x) in next && next[Name(x)] == DeploymentOf(x.op) {
      if x in before {
        assert Name(x) in Names(before);
        assert Name(x) != API && Name(x) != STAGE;
      }
    }
    forall i, j | 0 <= i < j < |steps| ensures Name(steps[i]) != Name(steps[j]) {
      assert steps[i] in before && Name(steps[i]) in Names(before);
      if j < |before| { assert steps[i] == before[i] && steps[j] == before[j]; }
    }
  }

  lemma ApiStep(first: Json, t: Json, next: Json, before: seq<Step>, record: Json, s: Step)
    requires Kept(first, t, record, before) && Accepted(t, record, s) && next == Next(t, record, s)
    ensures NativeTemplate(next) && SameApi(first, next, Get(record, "methods"))
    ensures Open(next) <==> s.op.Reopen?
  {
    hide NativeTemplate, SharedBound, RuntimeBound, Token, ValidRecord, Next, Stripped, Grown, WithPaths, Definition;
    AcceptedParts(t, record, s);
    NextLaws(t, record, s);
    NativeHasBoth(first);
    NativeHasBoth(t);
    assert Paths(next) - {PATH} == Paths(t) - {PATH};
    PathsTwice(Resource(first, API), Paths(t), Paths(next));
  }

  /** An API with its own route table put back is the same API. */
  lemma OwnPaths(t: Json, api: Json)
    requires Definition(api) && api == Resource(t, API)
    ensures WithPaths(api, Paths(t)) == api
  {
    assert Fields(Body(api))["paths" := Obj(Paths(t))] == Fields(Body(api));
    assert Fields(Properties(api))["Body" := Body(api)] == Fields(Properties(api));
    assert Fields(api)["Properties" := Properties(api)] == Fields(api);
  }

  // ------------------------------------------------------------------- theorems

  lemma {:induction false} CountNames(steps: seq<Step>)
    requires Distinct(steps)
    ensures |Names(steps)| == |steps|
  {
    hide Name;
    if steps == [] {
      assert Names(steps) == {};
    } else {
      var n := |steps| - 1;
      var before, s := steps[..n], steps[n];
      assert steps == before + [s];
      CountNames(before);
      assert Names(steps) == Names(before) + {Name(s)};
      forall x | x in before ensures Name(x) != Name(s) {
        var i :| 0 <= i < n && steps[i] == x;
      }
      assert Name(s) !in Names(before);
    }
  }

  lemma Prefix(ts: seq<Json>, record: Json, steps: seq<Step>, i: nat)
    requires IsRun(ts, record, steps) && i <= |steps|
    ensures IsRun(ts[..i + 1], record, steps[..i])
  {
    hide Accepted, Next;
  }

  /** The laws at every point of a run. */
  lemma KeptAt(ts: seq<Json>, record: Json, steps: seq<Step>, i: nat)
    requires IsRun(ts, record, steps) && NativeTemplate(ts[0]) && i <= |steps|
    ensures Kept(ts[0], ts[i], record, steps[..i])
  {
    hide NativeTemplate, Accepted, Next, Kept;
    Prefix(ts, record, steps, i);
    RunLaws(ts[..i + 1], record, steps[..i]);
  }

  /** Exactly one retained deployment per transition, none removed. */
  lemma ExactlyAsManyDeployments(ts: seq<Json>, record: Json, steps: seq<Step>)
    requires IsRun(ts, record, steps) && NativeTemplate(ts[0])
    ensures var first, last := Resources(ts[0]), Resources(ts[|steps|]);
      && |last.Keys| == |first.Keys| + |steps| && first.Keys <= last.Keys
      && (forall n | n in last && n !in first :: last[n] in {DeploymentOf(Close), DeploymentOf(Reopen)})
      && forall n | n in first && n != API && n != STAGE :: last[n] == first[n]
  {
    RunLaws(ts, record, steps);
    hide NativeTemplate, DeploymentOf;
    CountNames(steps);
    var first, last := Resources(ts[0]), Resources(ts[|steps|]);
    forall n | n in last && n !in first ensures last[n] in {DeploymentOf(Close), DeploymentOf(Reopen)} {
      var s :| s in steps && n == Name(s);
      assert s.op == Close || s.op == Reopen;
    }
  }

  /** Operations strictly alternate. */
  lemma OperationsAlternate(ts: seq<Json>, record: Json, steps: seq<Step>, i: nat)
    requires IsRun(ts, record, steps) && NativeTemplate(ts[0]) && i + 1 < |steps|
    ensures steps[i].op != steps[i + 1].op
  {
    assert Accepted(ts[i + 1], record, steps[i + 1]);
    hide NativeTemplate, Accepted, Next, Grown, SameApi, Stripped;
    KeptAt(ts, record, steps, i + 1);
    AcceptedParts(ts[i + 1], record, steps[i + 1]);
    assert steps[..i + 1][i] == steps[i];
  }

  /** Every template of a run is native, strips to the same, and its stage points to the newest deployment. */
  lemma EveryTemplateOfARun(ts: seq<Json>, record: Json, steps: seq<Step>, i: nat)
    requires IsRun(ts, record, steps) && NativeTemplate(ts[0]) && i <= |steps|
    ensures NativeTemplate(ts[i])
    ensures Stripped(ts[i], Resources(ts[0]).Keys) == Stripped(ts[0], Resources(ts[0]).Keys)
    ensures i > 0 ==> PointsTo(Resource(ts[i], STAGE)) == Str(Name(steps[i - 1]))
  {
    hide NativeTemplate, Accepted, Next, Grown, SameApi, Stripped;
    KeptAt(ts, record, steps, i);
    if i > 0 { assert steps[..i][i - 1] == steps[i - 1]; }
  }

  /** Starting open with the captured routes, every reopening gives back exactly the captured API resource. */
  lemma ReopenRestores(ts: seq<Json>, record: Json, steps: seq<Step>, i: nat)
    requires IsRun(ts, record, steps) && CaptureRoutes(ts[0]) == Ok(record)
    requires i < |steps| && steps[i].op.Reopen?
    ensures Resource(ts[i + 1], API) == Resource(ts[0], API)
  {
    var first, t := ts[0], ts[i + 1];
    CapturedOpen(first, record);
    hide NativeTemplate, Accepted, Next, Grown, Stripped, Definition, WithPaths, Paths, CaptureRoutes;
    KeptAt(ts, record, steps, i + 1);
    assert steps[..i + 1][i] == steps[i];
    NativeHasBoth(first);
    SameTables(Paths(t), Paths(first));
    OwnPaths(first, Resource(first, API));
  }

  lemma CapturedOpen(t: Json, record: Json)
    requires CaptureRoutes(t) == Ok(record)
    ensures NativeTemplate(t) && Open(t) && Paths(t)[PATH] == Get(record, "methods")
  {
    hide NativeTemplate, ValidMethods;
  }

  lemma SameTables(p: map<string, Json>, q: map<string, Json>)
    requires p - {PATH} == q - {PATH} && PATH in p && PATH in q && p[PATH] == q[PATH]
    ensures p == q
  {
    assert p == (p - {PATH})[PATH := p[PATH]];
    assert q == (q - {PATH})[PATH := q[PATH]];
  }

  /** Apart from the route, no transition changes the API. */
  lemma ApiBesidesRoute(ts: seq<Json>, record: Json, steps: seq<Step>)
    requires IsRun(ts, record, steps) && NativeTemplate(ts[0])
    ensures var first, last := ts[0], ts[|steps|];
      WithPaths(Resource(last, API), Paths(last) - {PATH}) == WithPaths(Resource(first, API), Paths(first) - {PATH})
  {
    var first, last := ts[0], ts[|steps|];
    hide NativeTemplate, Accepted, Next, Grown, Stripped, WithPaths, Paths, API, PATH;
    RunLaws(ts, record, steps);
    PathsTwice(Resource(first, API), Paths(last), Paths(last) - {PATH});
  }

  /** Apart from its pointer, no transition changes the stage. */
  lemma StageBesidesPointer(ts: seq<Json>, record: Json, steps: seq<Step>)
    requires IsRun(ts, record, steps) && NativeTemplate(ts[0])
    ensures WithoutProperty(Resource(ts[|steps|], STAGE), "DeploymentId")
      == WithoutProperty(Resource(ts[0], STAGE), "DeploymentId")
  {
    var first, last := ts[0], ts[|steps|];
    hide NativeTemplate, Accepted, Next, Grown, SameApi, Stripped, WithoutProperty, Resources;
    RunLaws(ts, record, steps);
    NativeHasBoth(first);
    StrippedStage(first, last);
  }

  lemma StrippedStage(first: Json, last: Json)
    requires STAGE in Resources(first)
    requires Stripped(last, Resources(first).Keys) == Stripped(first, Resources(first).Keys)
    ensures WithoutProperty(Resource(last, STAGE), "DeploymentId")
      == WithoutProperty(Resource(first, STAGE), "DeploymentId")
  {
    var names := Resources(first).Keys;
    hide RetainedExtra, WithoutProperty, WithPaths, PathsOf;
    assert Stripped(first, names).Some? && API != STAGE;
    var a, b := StrippedResources(Resources(first), names), StrippedResources(Resources(last), names);
    assert Resources(WithResources(first, a)) == a && Resources(WithResources(last, b)) == b;
    assert a[STAGE] == WithoutProperty(Look(Resources(first), STAGE), "DeploymentId");
    assert b[STAGE] == WithoutProperty(Look(Resources(last), STAGE), "DeploymentId");
  }

  /** A run that starts open is never stuck: the next transition is refused only for its name or its direction. */
  lemma AcceptedIff(ts: seq<Json>, record: Json, steps: seq<Step>, next: Step)
    requires IsRun(ts, record, steps) && CaptureRoutes(ts[0]) == Ok(record)
    ensures var last := ts[|steps|];
      Accepted(last, record, next) <==>
        Token(next.token) && (next.op.Close? <==> Open(last)) && Name(next) !in Resources(last)
  {
    hide NativeTemplate, Accepted, Next, CaptureRoutes, ValidRecord, Logical, Token, Open, Name;
    CapturedOpen(ts[0], record);
    CapturedIsValid(ts[0], record);
    OpenAsCaptured(ts, record, steps);
    AcceptedWhen(ts[|steps|], record, next);
  }

  lemma OpenAsCaptured(ts: seq<Json>, record: Json, steps: seq<Step>)
    requires IsRun(ts, record, steps) && CaptureRoutes(ts[0]) == Ok(record)
    ensures
      var last := ts[|steps|];
      NativeTemplate(last) && (Open(last) ==> Paths(last)[PATH] == Get(record, "methods"))
  {
    CapturedOpen(ts[0], record);
    hide NativeTemplate, Accepted, Next, Grown, Stripped, WithPaths, Paths, CaptureRoutes;
    KeptAt(ts, record, steps, |steps|);
    assert steps[..|steps|] == steps;
  }

  lemma AcceptedWhen(t: Json, record: Json, s: Step)
    requires ValidRecord(record) && NativeTemplate(t) && (Open(t) ==> Paths(t)[PATH] == Get(record, "methods"))
    ensures Accepted(t, record, s) <==> Token(s.token) && (s.op.Close? <==> Open(t)) && Name(s) !in Resources(t)
  {
    hide NativeTemplate, Paths, ValidRecord, Logical, Token;
  }

  lemma CapturedIsValid(t: Json, record: Json)
    requires CaptureRoutes(t) == Ok(record)
    ensures ValidRecord(record)
  {
    hide NativeTemplate, ValidMethods;
  }
}
