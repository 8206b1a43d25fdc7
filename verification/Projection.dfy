/** What `_filter_response` means: the projection of a JSON tree by a set of allowed paths. */
module Projection {
  import opened Json

  type Path = seq<string>

  /** The allowed paths below key `k`. */
  function Below(paths: set<Path>, k: string): set<Path> {
    set p | p in paths && |p| > 1 && p[0] == k :: p[1..]
  }

  /** A path ends at, or passes through, key `k`. */
  predicate Whole(paths: set<Path>, k: string) { [k] in paths }

  predicate Through(paths: set<Path>, k: string) { exists p | p in paths :: |p| > 1 && p[0] == k }

  /** Key `k` with value `v` is visible under `paths`. */
  predicate Visible(paths: set<Path>, k: string, v: Json) {
    Whole(paths, k) || (Through(paths, k) && (v.Obj? || v.List?))
  }

  /**
   * The declarative projection: keys named by a path keep their whole value; objects on the way to a
   * deeper path are projected, lists element by element, and list elements that are not objects are hidden.
   */
  function Project(j: Json, paths: set<Path>): (r: Json)
    requires j.Obj?
    ensures r.Obj?
    decreases j, 0
  {
    Obj(map k | k in j.fields && Visible(paths, k, j.fields[k]) :: ProjectAt(j.fields[k], paths, k))
  }

  function ProjectAt(v: Json, paths: set<Path>, k: string): Json
    decreases v, 2
  {
    if Whole(paths, k) then v else ProjectInside(v, Below(paths, k))
  }

  /** The value of a key that some paths pass through. */
  function ProjectInside(v: Json, paths: set<Path>): Json
    decreases v, 1
  {
    match v
    case Obj(_) => Project(v, paths)
    case List(items) => List(ProjectItems(v, paths))
    case _ => v
  }

  function ProjectItems(v: Json, paths: set<Path>): (r: seq<Json>)
    requires v.List?
    ensures |r| == |v.items|
    decreases v, 0
  {
    seq(|v.items|, i requires 0 <= i < |v.items| => if v.items[i].Obj? then Project(v.items[i], paths) else Null)
  }

  // ------------------------------------------------------------- its own laws

  lemma {:induction false} ProjectIdempotent(j: Json, paths: set<Path>)
    requires j.Obj?
    ensures Project(Project(j, paths), paths) == Project(j, paths)
    decreases j, 0
  {
    var once := Project(j, paths);
    forall k | k in once.fields
      ensures Visible(paths, k, once.fields[k]) && ProjectAt(once.fields[k], paths, k) == once.fields[k]
    {
      assert Visible(paths, k, j.fields[k]) && once.fields[k] == ProjectAt(j.fields[k], paths, k);
      if !Whole(paths, k) {
        assert j.fields[k].Obj? || j.fields[k].List?;
        ProjectInsideIdempotent(j.fields[k], Below(paths, k));
      }
    }
    assert Project(once, paths).fields == once.fields;
  }

  lemma {:induction false} ProjectInsideIdempotent(v: Json, paths: set<Path>)
    ensures ProjectInside(ProjectInside(v, paths), paths) == ProjectInside(v, paths)
    decreases v, 1
  {
    match v
    case Obj(_) => ProjectIdempotent(v, paths);
    case List(items) =>
      var once := ProjectItems(v, paths);
      forall i | 0 <= i < |items| ensures ProjectItems(List(once), paths)[i] == once[i] {
        if items[i].Obj? { ProjectIdempotent(items[i], paths); }
      }
      assert ProjectItems(List(once), paths) == once;
    case _ =>
  }

  /** `x` shows nothing that `y` does not show: fewer keys, or a hidden list element. */
  predicate Within(x: Json, y: Json) {
    match x
    case Obj(fields) => y.Obj? && forall k | k in fields :: k in y.fields && Within(fields[k], y.fields[k])
    case List(items) => y.List? && |items| == |y.items| && forall i | 0 <= i < |items| :: Within(items[i], y.items[i])
    case Null => true
    case _ => x == y
  }

  lemma {:induction false} WithinReflexive(x: Json)
    ensures Within(x, x)
  {
    match x
    case Obj(fields) => forall k | k in fields ensures Within(fields[k], fields[k]) { WithinReflexive(fields[k]); }
    case List(items) => forall i | 0 <= i < |items| ensures Within(items[i], items[i]) { WithinReflexive(items[i]); }
    case _ =>
  }

  lemma {:induction false} ProjectWithinSource(j: Json, paths: set<Path>)
    requires j.Obj?
    ensures Within(Project(j, paths), j)
    decreases j, 0
  {
    forall k | k in Project(j, paths).fields ensures Within(ProjectAt(j.fields[k], paths, k), j.fields[k]) {
      if Whole(paths, k) { WithinReflexive(j.fields[k]); } else { InsideWithinSource(j.fields[k], Below(paths, k)); }
    }
  }

  lemma {:induction false} InsideWithinSource(v: Json, paths: set<Path>)
    ensures Within(ProjectInside(v, paths), v)
    decreases v, 1
  {
    match v
    case Obj(_) => ProjectWithinSource(v, paths);
    case List(items) =>
      forall i | 0 <= i < |items| ensures Within(ProjectItems(v, paths)[i], items[i]) {
        if items[i].Obj? { ProjectWithinSource(items[i], paths); }
      }
    case _ =>
  }

  /** Allowing more paths never hides anything. */
  lemma {:induction false} ProjectMonotone(j: Json, fewer: set<Path>, more: set<Path>)
    requires j.Obj? && fewer <= more
    ensures Within(Project(j, fewer), Project(j, more))
    decreases j, 0
  {
    forall k | k in Project(j, fewer).fields
      ensures Visible(more, k, j.fields[k]) && Within(ProjectAt(j.fields[k], fewer, k), ProjectAt(j.fields[k], more, k))
    {
      if Whole(fewer, k) {
        WithinReflexive(j.fields[k]);
      } else if Whole(more, k) {
        InsideWithinSource(j.fields[k], Below(fewer, k));
      } else {
        InsideMonotone(j.fields[k], Below(fewer, k), Below(more, k));
      }
    }
  }

  lemma {:induction false} InsideMonotone(v: Json, fewer: set<Path>, more: set<Path>)
    requires fewer <= more
    ensures Within(ProjectInside(v, fewer), ProjectInside(v, more))
    decreases v, 1
  {
    match v
    case Obj(_) => ProjectMonotone(v, fewer, more);
    case List(items) =>
      forall i | 0 <= i < |items| ensures Within(ProjectItems(v, fewer)[i], ProjectItems(v, more)[i]) {
        if items[i].Obj? { ProjectMonotone(items[i], fewer, more); }
      }
    case _ => WithinReflexive(v);
  }

}
