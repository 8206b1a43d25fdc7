/** The physical resources behind a run of route transitions, and the record each transition is checked against. */
module RouteInventory {
  import opened Json
  import opened Routes
  import opened RouteRuns
  import opened Templates

  /** One row of the stack's inventory. */
  datatype Row = Row(kind: string, physicalId: string)

  /** What `observe` sees: the template and the stack's resources. */
  datatype Observation = Observation(template: Json, inventory: map<string, Row>)

  /** The part of a captured record that later observations are compared with. */
  datatype Captured = Captured(names: set<string>, inventory: map<string, Row>, stripped: Option<Json>)

  function Capture(o: Observation): Captured {
    Captured(Resources(o.template).Keys, o.inventory, Stripped(o.template, Resources(o.template).Keys))
  }

  /** `observe`: every row names a resource of the template, of its type. */
  predicate Fits(o: Observation) {
    forall n | n in o.inventory ::
      n in Resources(o.template) && Get(Resources(o.template)[n], "Type") == Str(o.inventory[n].kind)
  }

  /** `_validate_record`: nothing but retained deployments of transitions was added, and no recorded row changed. */
  predicate Validates(record: Captured, o: Observation) {
    && Stripped(o.template, record.names) == record.stripped
    && (forall n | n in record.inventory :: n in o.inventory && o.inventory[n] == record.inventory[n])
    && forall n | n in o.inventory && n !in record.inventory ::
         n !in record.names && exists op: Operation :: RetainedName(n, op)
  }

  /** What a transition demands of the stack after the change set ran. */
  predicate Executed(before: Observation, routes: Json, s: Step, after: Observation) {
    && Accepted(before.template, routes, s) && after.template == Next(before.template, routes, s) && Fits(after)
    && after.inventory.Keys == before.inventory.Keys + {Name(s)}
    && forall n | n in before.inventory :: after.inventory[n] == before.inventory[n]
  }

  /** Executed transitions, one after the other, from the observation that was captured. */
  predicate IsPhysicalRun(os: seq<Observation>, routes: Json, steps: seq<Step>) {
    && |os| == |steps| + 1 && Fits(os[0]) && CaptureRoutes(os[0].template) == Ok(routes)
    && forall i | 0 <= i < |steps| :: Executed(os[i], routes, steps[i], os[i + 1])
  }

  function TemplatesOf(os: seq<Observation>): (ts: seq<Json>)
    ensures |ts| == |os| && forall i | 0 <= i < |os| :: ts[i] == os[i].template
  {
    seq(|os|, i requires 0 <= i < |os| => os[i].template)
  }

  lemma TemplatesRun(os: seq<Observation>, routes: Json, steps: seq<Step>)
    requires IsPhysicalRun(os, routes, steps)
    ensures IsRun(TemplatesOf(os), routes, steps)
  {
    hide Accepted, Next, Fits, CaptureRoutes;
    var ts := TemplatesOf(os);
    forall i | 0 <= i < |steps|
      ensures Accepted(ts[i], routes, steps[i]) && ts[i + 1] == Next(ts[i], routes, steps[i])
    {
      assert Executed(os[i], routes, steps[i], os[i + 1]);
    }
  }

  /** The inventory is the captured one and one row for each transition; no row ever changes. */
  lemma {:induction false} InventoryGrows(os: seq<Observation>, routes: Json, steps: seq<Step>, i: nat, j: nat)
    requires IsPhysicalRun(os, routes, steps) && i <= j <= |steps|
    ensures os[j].inventory.Keys == os[i].inventory.Keys + Names(steps[i..j])
    ensures forall n | n in os[i].inventory :: os[j].inventory[n] == os[i].inventory[n]
    decreases j
  {
    hide Accepted, Next, Fits, CaptureRoutes, Name;
    if i == j {
      assert steps[i..j] == [];
    } else {
      InventoryGrows(os, routes, steps, i, j - 1);
      assert Executed(os[j - 1], routes, steps[j - 1], os[j]);
      assert steps[i..j] == steps[i..j - 1] + [steps[j - 1]];
      assert Names(steps[i..j]) == Names(steps[i..j - 1]) + {Name(steps[j - 1])};
    }
  }

  /** A deployment of the run is none of the captured resources, and has the name of one. */
  lemma AddedNames(os: seq<Observation>, routes: Json, steps: seq<Step>, i: nat, n: string)
    requires IsPhysicalRun(os, routes, steps) && i <= |steps| && n in Names(steps[..i])
    ensures n !in Resources(os[0].template) && exists op: Operation :: RetainedName(n, op)
  {
    hide NativeTemplate, Accepted, Next, Fits, CaptureRoutes, SameApi, Stripped, Name, RetainedName, ValidMethods;
    TemplatesRun(os, routes, steps);
    CapturedOpen(os[0].template, routes);
    KeptAt(TemplatesOf(os), routes, steps, i);
    var s :| s in steps[..i] && n == Name(s);
    var k :| 0 <= k < i && steps[k] == s;
    assert Executed(os[k], routes, steps[k], os[k + 1]);
    AcceptedParts(os[k].template, routes, s);
    LogicalIsRetained(s.op, s.token);
  }

  /**
   * The captured record validates at every point of every run. So neither the check before a transition nor
   * the one after it refuses a stack that only executed transitions changed, and no run gets stuck on its own
   * deployments.
   */
  lemma RecordValidatesThroughout(os: seq<Observation>, routes: Json, steps: seq<Step>, i: nat)
    requires IsPhysicalRun(os, routes, steps) && i <= |steps|
    ensures Validates(Capture(os[0]), os[i])
  {
    hide NativeTemplate, Accepted, Next, CaptureRoutes, Stripped, RetainedName, Names;
    TemplatesRun(os, routes, steps);
    CapturedOpen(os[0].template, routes);
    EveryTemplateOfARun(TemplatesOf(os), routes, steps, i);
    InventoryGrows(os, routes, steps, 0, i);
    assert steps[0..i] == steps[..i];
    forall n | n in os[i].inventory && n !in os[0].inventory
      ensures n !in Resources(os[0].template) && exists op: Operation :: RetainedName(n, op)
    {
      AddedNames(os, routes, steps, i, n);
    }
  }

  lemma CountInventory(first: map<string, Row>, last: map<string, Row>, names: set<string>)
    requires last.Keys == first.Keys + names && names !! first.Keys
    ensures |last| == |first| + |names|
  {
    assert |last| == |last.Keys| && |first| == |first.Keys|;
  }

  lemma DeploymentKind(op: Operation)
    ensures Get(DeploymentOf(op), "Type") == Str("AWS::ApiGateway::Deployment")
  {
  }

  lemma FitsThroughout(os: seq<Observation>, routes: Json, steps: seq<Step>, i: nat)
    requires IsPhysicalRun(os, routes, steps) && i <= |steps|
    ensures Fits(os[i])
  {
    hide Fits, Accepted, Next, CaptureRoutes;
    if i > 0 { assert Executed(os[i - 1], routes, steps[i - 1], os[i]); }
  }

  /** Names of the deployments of a run. */
  lemma StepNames(os: seq<Observation>, routes: Json, steps: seq<Step>)
    requires IsPhysicalRun(os, routes, steps)
    ensures Names(steps) !! Resources(os[0].template).Keys && Distinct(steps)
    ensures forall s | s in steps ::
      Name(s) in Resources(os[|steps|].template) && Resources(os[|steps|].template)[Name(s)] == DeploymentOf(s.op)
  {
    hide NativeTemplate, Accepted, Next, CaptureRoutes, Stripped, SameApi, Name, DeploymentOf;
    TemplatesRun(os, routes, steps);
    CapturedOpen(os[0].template, routes);
    RunLaws(TemplatesOf(os), routes, steps);
  }

  /** Every transition adds exactly one physical resource. */
  lemma OnePhysicalDeploymentEach(os: seq<Observation>, routes: Json, steps: seq<Step>)
    requires IsPhysicalRun(os, routes, steps)
    ensures |os[|steps|].inventory| == |os[0].inventory| + |steps|
    ensures forall n | n in os[|steps|].inventory && n !in os[0].inventory ::
      os[|steps|].inventory[n].kind == "AWS::ApiGateway::Deployment"
  {
    hide Accepted, Next, CaptureRoutes, Name, DeploymentOf, Resources, Executed;
    var last := os[|steps|];
    StepNames(os, routes, steps);
    CountNames(steps);
    InventoryGrows(os, routes, steps, 0, |steps|);
    assert steps[0..|steps|] == steps;
    FitsThroughout(os, routes, steps, 0);
    FitsThroughout(os, routes, steps, |steps|);
    CountInventory(os[0].inventory, last.inventory, Names(steps));
    forall n | n in last.inventory && n !in os[0].inventory
      ensures last.inventory[n].kind == "AWS::ApiGateway::Deployment"
    {
      var s :| s in steps && Name(s) == n;
      DeploymentKind(s.op);
    }
  }

  /** The physical id that a transition's deployment gets is its own for the rest of the run. */
  lemma PhysicalIdsAreKept(os: seq<Observation>, routes: Json, steps: seq<Step>, i: nat, j: nat)
    requires IsPhysicalRun(os, routes, steps) && i < j <= |steps|
    ensures Name(steps[i]) !in os[i].inventory && Name(steps[i]) in os[i + 1].inventory
    ensures Name(steps[i]) in os[j].inventory && os[j].inventory[Name(steps[i])] == os[i + 1].inventory[Name(steps[i])]
  {
    hide Accepted, Next, CaptureRoutes, Name, Names, Resources;
    assert Executed(os[i], routes, steps[i], os[i + 1]);
    FitsThroughout(os, routes, steps, i);
    NotThereYet(os[i].template, routes, steps[i]);
    InventoryGrows(os, routes, steps, i + 1, j);
  }

  lemma NotThereYet(t: Json, routes: Json, s: Step)
    requires Accepted(t, routes, s)
    ensures Name(s) !in Resources(t)
  {
    hide Accepted, Name;
    AcceptedParts(t, routes, s);
  }
}
