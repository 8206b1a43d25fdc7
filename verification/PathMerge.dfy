/**
 * `_copy_allowed_path` and `_filter_response` of lambda_function.py on a heap of dictionaries and lists.
 * The result may share nodes with the response it was filtered from; every write is accounted for.
 */
module PathMerge {
  import opened Json
  import opened Projection
  import opened Text

  /** A Python value: a scalar, or a reference to a dictionary or a list. */
  datatype Value = Atom(j: Json) | D(dict: Dict) | L(list: ListNode)

  datatype Move = Key(key: string) | Index(index: nat)
  type Position = seq<Move>

  class Dict {
    var fields: map<string, Value>
    /** Where in the filtered tree this dictionary was created. */
    ghost const at: Position

    constructor (ghost at: Position)
      ensures fields == map[] && this.at == at
    {
      fields := map[];
      this.at := at;
    }
  }

  class ListNode {
    var items: seq<Value>
    ghost const at: Position

    constructor (items: seq<Value>, ghost at: Position)
      ensures this.items == items && this.at == at
    {
      this.items := items;
      this.at := at;
    }
  }

  /** The contents of some nodes at some moment. */
  datatype Heap = Heap(dicts: map<Dict, map<string, Value>>, lists: map<ListNode, seq<Value>>)

  /** The nodes of `h` hold what `h` says. */
  ghost predicate Live(h: Heap)
    reads h.dicts.Keys, h.lists.Keys
  {
    (forall d | d in h.dicts :: d.fields == h.dicts[d]) && (forall l | l in h.lists :: l.items == h.lists[l])
  }

  ghost predicate Apart(x: Heap, y: Heap) { x.dicts.Keys !! y.dicts.Keys && x.lists.Keys !! y.lists.Keys }

  /** In heap `h`, value `v` is the JSON tree `j`. */
  ghost predicate Holds(v: Value, j: Json, h: Heap)
    decreases j
  {
    match j
    case Obj(m) =>
      && v.D? && v.dict in h.dicts && h.dicts[v.dict].Keys == m.Keys
      && forall k | k in m :: Holds(h.dicts[v.dict][k], m[k], h)
    case List(js) =>
      && v.L? && v.list in h.lists && |h.lists[v.list]| == |js|
      && forall i | 0 <= i < |js| :: Holds(h.lists[v.list][i], js[i], h)
    case _ => v == Atom(j)
  }

  /**
   * Target value `t`, at position `at`, is what remains of source value `s` (tree `j`) under `paths`:
   * own nodes along the paths, the source's own nodes wherever a path ends.
   */
  ghost predicate Rep(t: Value, s: Value, j: Json, paths: set<Path>, at: Position, src: Heap, own: Heap)
    decreases j, 2
  {
    match j
    case Obj(m) =>
      && s.D? && s.dict in src.dicts && src.dicts[s.dict].Keys == m.Keys
      && t.D? && t.dict in own.dicts && t.dict.at == at
      && RepFields(own.dicts[t.dict], src.dicts[s.dict], j, paths, at, src, own)
    case List(js) =>
      && s.L? && s.list in src.lists && |src.lists[s.list]| == |js|
      && t.L? && t.list in own.lists && t.list.at == at && |own.lists[t.list]| == |js|
      && forall i | 0 <= i < |js| ::
           RepItem(own.lists[t.list][i], src.lists[s.list][i], js[i], paths, at + [Index(i)], src, own)
    case _ => false
  }

  ghost predicate RepFields(
      fields: map<string, Value>, sourceFields: map<string, Value>, j: Json,
      paths: set<Path>, at: Position, src: Heap, own: Heap)
    requires j.Obj? && sourceFields.Keys == j.fields.Keys
    decreases j, 1
  {
    var m := j.fields;
    && (forall k :: k in fields <==> k in m && Visible(paths, k, m[k]))
    && forall k | k in m && Visible(paths, k, m[k]) ::
         if Whole(paths, k) then fields[k] == sourceFields[k]
         else Rep(fields[k], sourceFields[k], m[k], Below(paths, k), at + [Key(k)], src, own)
  }

  ghost predicate RepItem(t: Value, s: Value, j: Json, paths: set<Path>, at: Position, src: Heap, own: Heap)
    decreases j, 3
  {
    if j.Obj? then Rep(t, s, j, paths, at, src, own) else t == Atom(Null)
  }

  // --------------------------------------------------------- reading a target

  function Both(x: Heap, y: Heap): Heap { Heap(x.dicts + y.dicts, x.lists + y.lists) }

  lemma {:induction false} HoldsInBoth(v: Value, j: Json, src: Heap, own: Heap)
    requires Holds(v, j, src) && Apart(src, own)
    ensures Holds(v, j, Both(src, own))
    decreases j
  {
    match j
    case Obj(m) =>
      forall k | k in m ensures Holds(src.dicts[v.dict][k], m[k], Both(src, own)) {
        HoldsInBoth(src.dicts[v.dict][k], m[k], src, own);
      }
    case List(js) =>
      forall i | 0 <= i < |js| ensures Holds(src.lists[v.list][i], js[i], Both(src, own)) {
        HoldsInBoth(src.lists[v.list][i], js[i], src, own);
      }
    case _ =>
  }

  /** A target that represents `paths` is the declarative projection. */
  lemma {:induction false} RepIsProjection(t: Value, s: Value, j: Json, paths: set<Path>, at: Position, src: Heap,
      own: Heap)
    requires Holds(s, j, src) && Rep(t, s, j, paths, at, src, own) && Apart(src, own)
    ensures Holds(t, ProjectInside(j, paths), Both(src, own))
    decreases j
  {
    match j
    case Obj(m) =>
      var p, ts, ss := Project(j, paths).fields, own.dicts[t.dict], src.dicts[s.dict];
      forall k | k in p ensures Holds(ts[k], p[k], Both(src, own)) {
        assert Visible(paths, k, m[k]) && p[k] == ProjectAt(m[k], paths, k);
        if Whole(paths, k) {
          HoldsInBoth(ss[k], m[k], src, own);
        } else {
          RepIsProjection(ts[k], ss[k], m[k], Below(paths, k), at + [Key(k)], src, own);
        }
      }
    case List(js) =>
      var p, ts, ss := ProjectItems(j, paths), own.lists[t.list], src.lists[s.list];
      forall i | 0 <= i < |js| ensures Holds(ts[i], p[i], Both(src, own)) {
        assert RepItem(ts[i], ss[i], js[i], paths, at + [Index(i)], src, own);
        if js[i].Obj? { RepIsProjection(ts[i], ss[i], js[i], paths, at + [Index(i)], src, own); }
      }
    case _ =>
  }

  // ------------------------------------------------------------------ framing

  /** From `own` to `after` no node is lost, and only nodes at or below `at` change. */
  ghost predicate Confined(at: Position, own: Heap, after: Heap) {
    && own.dicts.Keys <= after.dicts.Keys && own.lists.Keys <= after.lists.Keys
    && (forall d | d in own.dicts && !(at <= d.at) :: after.dicts[d] == own.dicts[d])
    && (forall l | l in own.lists && !(at <= l.at) :: after.lists[l] == own.lists[l])
  }

  /** The positions branch off from each other, so neither is above the other. */
  predicate Elsewhere(p: Position, q: Position) {
    exists i | 0 <= i < |p| :: i < |q| && p[i] != q[i]
  }

  /** No node is lost, and nothing at or below `at` changes. */
  ghost predicate Still(at: Position, own: Heap, after: Heap) {
    && own.dicts.Keys <= after.dicts.Keys && own.lists.Keys <= after.lists.Keys
    && (forall d | d in own.dicts && at <= d.at :: after.dicts[d] == own.dicts[d])
    && (forall l | l in own.lists && at <= l.at :: after.lists[l] == own.lists[l])
  }

  lemma ConfinedElsewhere(changed: Position, at: Position, own: Heap, after: Heap)
    requires Confined(changed, own, after) && Elsewhere(changed, at)
    ensures Still(at, own, after)
  {
    var i :| 0 <= i < |changed| && i < |at| && changed[i] != at[i];
    forall d | d in own.dicts && at <= d.at ensures after.dicts[d] == own.dicts[d] { assert d.at[i] == at[i]; }
    forall l | l in own.lists && at <= l.at ensures after.lists[l] == own.lists[l] { assert l.at[i] == at[i]; }
  }

  lemma {:induction false} RepKept(
      t: Value, s: Value, j: Json, paths: set<Path>, at: Position, src: Heap, own: Heap, after: Heap)
    requires Rep(t, s, j, paths, at, src, own) && Still(at, own, after)
    ensures Rep(t, s, j, paths, at, src, after)
    decreases j, 0
  {
    match j
    case Obj(m) =>
      var ts, ss := own.dicts[t.dict], src.dicts[s.dict];
      forall k | k in m && Visible(paths, k, m[k]) && !Whole(paths, k)
        ensures Rep(ts[k], ss[k], m[k], Below(paths, k), at + [Key(k)], src, after)
      {
        RepKept(ts[k], ss[k], m[k], Below(paths, k), at + [Key(k)], src, own, after);
      }
    case List(js) =>
      var ts, ss := own.lists[t.list], src.lists[s.list];
      forall i | 0 <= i < |js| ensures RepItem(ts[i], ss[i], js[i], paths, at + [Index(i)], src, after) {
        assert RepItem(ts[i], ss[i], js[i], paths, at + [Index(i)], src, own);
        RepItemKept(ts[i], ss[i], js[i], paths, at + [Index(i)], src, own, after);
      }
    case _ =>
  }

  lemma RepItemKept(t: Value, s: Value, j: Json, paths: set<Path>, at: Position, src: Heap, own: Heap, after: Heap)
    requires RepItem(t, s, j, paths, at, src, own) && Still(at, own, after)
    ensures RepItem(t, s, j, paths, at, src, after)
    decreases j, 1
  {
    if j.Obj? { RepKept(t, s, j, paths, at, src, own, after); }
  }

  // ------------------------------------------------------------------ merging

  /** Adding a path changes what is visible only below its first key. */
  lemma AddedPath(paths: set<Path>, parts: Path, k: string)
    requires parts != []
    ensures Whole(paths + {parts}, k) <==> Whole(paths, k) || parts == [k]
    ensures Through(paths + {parts}, k) <==> Through(paths, k) || (|parts| > 1 && parts[0] == k)
    ensures Below(paths + {parts}, k) == Below(paths, k) + (if |parts| > 1 && parts[0] == k then {parts[1..]} else {})
  {
    var after, before := Below(paths + {parts}, k), Below(paths, k);
    if Through(paths, k) {
      var p :| p in paths && |p| > 1 && p[0] == k;
      assert p in paths + {parts};
    }
    if |parts| > 1 && parts[0] == k {
      assert parts in paths + {parts} && parts[1..] in after;
    }
    forall q | q in before ensures q in after {
      var p :| p in paths && |p| > 1 && p[0] == k && p[1..] == q;
      assert p in paths + {parts};
    }
  }

  /** The fields of `t` after `key` received `child`. */
  function WithField(own: Heap, t: Dict, key: string, child: Value): Heap
    requires t in own.dicts
  {
    own.(dicts := own.dicts[t := own.dicts[t][key := child]])
  }

  /** From `own` to `after` only field `key` of `t` changes, and what lies below it. */
  ghost predicate KeyChanged(at: Position, key: string, t: Dict, own: Heap, after: Heap, child: Value) {
    && t in own.dicts && t.at == at && t in after.dicts && after.dicts[t] == own.dicts[t][key := child]
    && own.dicts.Keys <= after.dicts.Keys && own.lists.Keys <= after.lists.Keys
    && (forall d | d in own.dicts && d != t && !(at + [Key(key)] <= d.at) :: after.dicts[d] == own.dicts[d])
    && (forall l | l in own.lists && !(at + [Key(key)] <= l.at) :: after.lists[l] == own.lists[l])
  }

  lemma StillBeside(at: Position, key: string, k: string, t: Dict, own: Heap, after: Heap, child: Value)
    requires KeyChanged(at, key, t, own, after, child) && k != key
    ensures Still(at + [Key(k)], own, after)
  {
    var p := at + [Key(k)];
    forall d | d in own.dicts && p <= d.at ensures after.dicts[d] == own.dicts[d] { assert d.at[|at|] == Key(k); }
    forall l | l in own.lists && p <= l.at ensures after.lists[l] == own.lists[l] { assert l.at[|at|] == Key(k); }
  }

  /** What `RepFields` says of one key. */
  ghost predicate RepKey(
      fields: map<string, Value>, sourceFields: map<string, Value>, j: Json, k: string,
      paths: set<Path>, at: Position, src: Heap, own: Heap)
    requires j.Obj? && sourceFields.Keys == j.fields.Keys
  {
    var m := j.fields;
    && (k in fields <==> k in m && Visible(paths, k, m[k]))
    && (k in m && Visible(paths, k, m[k]) ==>
          if Whole(paths, k) then fields[k] == sourceFields[k]
          else Rep(fields[k], sourceFields[k], m[k], Below(paths, k), at + [Key(k)], src, own))
  }

  lemma OtherKey(
      t: Dict, ss: map<string, Value>, j: Json, paths: set<Path>, parts: Path, k: string, at: Position,
      src: Heap, own: Heap, after: Heap, child: Value)
    requires j.Obj? && parts != [] && k != parts[0] && ss.Keys == j.fields.Keys
    requires KeyChanged(at, parts[0], t, own, after, child)
    requires RepKey(own.dicts[t], ss, j, k, paths, at, src, own)
    ensures RepKey(after.dicts[t], ss, j, k, paths + {parts}, at, src, after)
  {
    AddedPath(paths, parts, k);
    assert Below(paths + {parts}, k) == Below(paths, k);
    if k in j.fields && Visible(paths, k, j.fields[k]) && !Whole(paths, k) {
      StillBeside(at, parts[0], k, t, own, after, child);
      RepKept(own.dicts[t][k], ss[k], j.fields[k], Below(paths, k), at + [Key(k)], src, own, after);
    }
  }

  lemma FieldsGiveKey(
      fields: map<string, Value>, ss: map<string, Value>, j: Json, k: string,
      paths: set<Path>, at: Position, src: Heap, own: Heap)
    requires j.Obj? && ss.Keys == j.fields.Keys && RepFields(fields, ss, j, paths, at, src, own)
    ensures RepKey(fields, ss, j, k, paths, at, src, own)
  {
    hide Rep, Visible, Whole;
  }

  lemma KeysGiveFields(
      fields: map<string, Value>, ss: map<string, Value>, j: Json, paths: set<Path>, at: Position, src: Heap, own: Heap)
    requires j.Obj? && ss.Keys == j.fields.Keys && forall k :: RepKey(fields, ss, j, k, paths, at, src, own)
    ensures RepFields(fields, ss, j, paths, at, src, own)
  {
    hide Rep, Visible, Whole;
    forall k ensures k in fields <==> k in j.fields && Visible(paths, k, j.fields[k]) {
      assert RepKey(fields, ss, j, k, paths, at, src, own);
    }
    forall k | k in j.fields && Visible(paths, k, j.fields[k])
      ensures if Whole(paths, k) then fields[k] == ss[k]
              else Rep(fields[k], ss[k], j.fields[k], Below(paths, k), at + [Key(k)], src, own)
    {
      assert RepKey(fields, ss, j, k, paths, at, src, own);
    }
  }

  /**
   * One key changes: `t` holds `child` at `key`, and `child` represents the paths below it. Everything
   * else of `t` is where it was.
   */
  lemma RepWithKey(
      t: Dict, s: Dict, j: Json, paths: set<Path>, parts: Path, at: Position, src: Heap, own: Heap, after: Heap,
      child: Value)
    requires j.Obj? && parts != [] && Rep(D(t), D(s), j, paths, at, src, own)
    requires KeyChanged(at, parts[0], t, own, after, child)
    requires RepKey(after.dicts[t], src.dicts[s], j, parts[0], paths + {parts}, at, src, after)
    ensures Rep(D(t), D(s), j, paths + {parts}, at, src, after)
  {
    var ss := src.dicts[s];
    assert RepFields(own.dicts[t], ss, j, paths, at, src, own);
    hide RepKey, RepFields;
    forall k ensures RepKey(after.dicts[t], ss, j, k, paths + {parts}, at, src, after) {
      if k != parts[0] {
        FieldsGiveKey(own.dicts[t], ss, j, k, paths, at, src, own);
        OtherKey(t, ss, j, paths, parts, k, at, src, own, after, child);
      }
    }
    KeysGiveFields(after.dicts[t], ss, j, paths + {parts}, at, src, after);
  }

  // ------------------------------------------------------------------ methods

  /** What every merge below promises about the nodes it may write. */
  ghost predicate Merged(at: Position, src: Heap, own: Heap, after: Heap)
    reads src.dicts.Keys, src.lists.Keys, after.dicts.Keys, after.lists.Keys
  {
    Live(src) && Live(after) && Apart(src, after) && Confined(at, own, after)
  }

  /** A whole value ends the path: the target shares it with the source. */
  lemma WholeKey(t: Dict, s: Dict, j: Json, paths: set<Path>, key: string, at: Position, src: Heap, own: Heap)
    requires j.Obj? && key in j.fields && Rep(D(t), D(s), j, paths, at, src, own)
    ensures Rep(D(t), D(s), j, paths + {[key]}, at, src, WithField(own, t, key, src.dicts[s][key]))
  {
    AddedPath(paths, [key], key);
    RepWithKey(t, s, j, paths, [key], at, src, own, WithField(own, t, key, src.dicts[s][key]), src.dicts[s][key]);
  }

  /** A path below a key that is whole already adds nothing. */
  lemma UnderWhole(t: Dict, s: Dict, j: Json, paths: set<Path>, parts: Path, at: Position, src: Heap, own: Heap)
    requires j.Obj? && |parts| > 1 && parts[0] in j.fields && Whole(paths, parts[0])
    requires Rep(D(t), D(s), j, paths, at, src, own)
    ensures Rep(D(t), D(s), j, paths + {parts}, at, src, own)
  {
    var key := parts[0];
    AddedPath(paths, parts, key);
    assert RepFields(own.dicts[t], src.dicts[s], j, paths, at, src, own);
    FieldsGiveKey(own.dicts[t], src.dicts[s], j, key, paths, at, src, own);
    assert own.dicts[t][key := own.dicts[t][key]] == own.dicts[t];
    RepWithKey(t, s, j, paths, parts, at, src, own, own, own.dicts[t][key]);
  }

  /** A path that leads nowhere adds nothing. */
  lemma Nowhere(t: Dict, s: Dict, j: Json, paths: set<Path>, parts: Path, at: Position, src: Heap, own: Heap)
    requires j.Obj? && parts != [] && Rep(D(t), D(s), j, paths, at, src, own)
    requires parts[0] !in j.fields || (|parts| > 1 && !j.fields[parts[0]].Obj? && !j.fields[parts[0]].List?)
    ensures Rep(D(t), D(s), j, paths + {parts}, at, src, own)
  {
    var fields, ss := own.dicts[t], src.dicts[s];
    assert RepFields(fields, ss, j, paths, at, src, own);
    forall k ensures RepKey(fields, ss, j, k, paths + {parts}, at, src, own) {
      FieldsGiveKey(fields, ss, j, k, paths, at, src, own);
      AddedPath(paths, parts, k);
      if k != parts[0] { assert Below(paths + {parts}, k) == Below(paths, k); }
    }
    hide RepKey;
    KeysGiveFields(fields, ss, j, paths + {parts}, at, src, own);
  }

  lemma EmptyPathAddsNothing(t: Value, s: Value, j: Json, paths: set<Path>, at: Position, src: Heap, own: Heap)
    requires Rep(t, s, j, paths, at, src, own)
    ensures Rep(t, s, j, paths + {[]}, at, src, own)
    decreases j
  {
    match j
    case Obj(m) =>
      var fields, ss := own.dicts[t.dict], src.dicts[s.dict];
      forall k ensures RepKey(fields, ss, j, k, paths + {[]}, at, src, own) {
        FieldsGiveKey(fields, ss, j, k, paths, at, src, own);
        assert Below(paths + {[]}, k) == Below(paths, k);
        assert Through(paths + {[]}, k) <==> Through(paths, k) by {
          if Through(paths, k) { var p :| p in paths && |p| > 1 && p[0] == k; assert p in paths + {[]}; }
        }
      }
      hide RepKey;
      KeysGiveFields(fields, ss, j, paths + {[]}, at, src, own);
    case List(js) =>
      var ts, ss := own.lists[t.list], src.lists[s.list];
      forall i | 0 <= i < |js| ensures RepItem(ts[i], ss[i], js[i], paths + {[]}, at + [Index(i)], src, own) {
        assert RepItem(ts[i], ss[i], js[i], paths, at + [Index(i)], src, own);
        if js[i].Obj? { EmptyPathAddsNothing(ts[i], ss[i], js[i], paths, at + [Index(i)], src, own); }
      }
    case _ =>
  }

  lemma SourceNode(s: Dict, j: Json, src: Heap)
    requires j.Obj? && Holds(D(s), j, src)
    ensures s in src.dicts && src.dicts[s].Keys == j.fields.Keys
    ensures forall k | k in j.fields :: Holds(src.dicts[s][k], j.fields[k], src)
  {
  }

  lemma TargetNode(t: Dict, s: Dict, j: Json, paths: set<Path>, at: Position, src: Heap, own: Heap)
    requires j.Obj? && Rep(D(t), D(s), j, paths, at, src, own)
    ensures t in own.dicts && t.at == at
  {
  }

  /** The last key of a path: `target[key] = value`. */
  method AssignWhole(
      source: Dict, target: Dict, key: string,
      ghost j: Json, ghost paths: set<Path>, ghost at: Position, ghost src: Heap, ghost own: Heap)
      returns (ghost after: Heap)
    requires j.Obj? && key in j.fields && Holds(D(source), j, src) && Merged(at, src, own, own)
    requires target == source || Rep(D(target), D(source), j, paths, at, src, own)
    requires source in src.dicts && key in source.fields
    modifies target
    ensures Merged(at, src, own, after) && after.dicts.Keys == own.dicts.Keys && after.lists.Keys == own.lists.Keys
    ensures target == source ==> after == own
    ensures target != source ==> Rep(D(target), D(source), j, paths + {[key]}, at, src, after)
  {
    hide Rep, Holds;
    ghost var value := source.fields[key];
    after := own;
    target.fields := target.fields[key := source.fields[key]];
    if target == source {
      assert source.fields == src.dicts[source];
    } else {
      TargetNode(target, source, j, paths, at, src, own);
      WholeKey(target, source, j, paths, key, at, src, own);
      after := WithField(own, target, key, value);
    }
  }

  /** The child of `target` at `key` after its own merge, put back into the whole. */
  lemma ChildMerged(
      t: Dict, s: Dict, j: Json, paths: set<Path>, parts: Path, at: Position, src: Heap,
      own: Heap, linked: Heap, after: Heap, child: Value)
    requires j.Obj? && |parts| > 1 && parts[0] in j.fields && (j.fields[parts[0]].Obj? || j.fields[parts[0]].List?)
    requires Rep(D(t), D(s), j, paths, at, src, own) && !Whole(paths, parts[0])
    requires KeyChanged(at, parts[0], t, own, linked, child) && Confined(at + [Key(parts[0])], linked, after)
    requires Rep(child, src.dicts[s][parts[0]], j.fields[parts[0]], Below(paths, parts[0]) + {parts[1..]},
      at + [Key(parts[0])], src, after)
    ensures Rep(D(t), D(s), j, paths + {parts}, at, src, after) && Confined(at, own, after)
  {
    AddedPath(paths, parts, parts[0]);
    hide Rep;
    RepWithKey(t, s, j, paths, parts, at, src, own, after, child);
  }

  /** An empty dictionary represents nothing yet. */
  lemma EmptyDict(t: Dict, s: Dict, j: Json, at: Position, src: Heap, own: Heap)
    requires j.Obj? && Holds(D(s), j, src) && t in own.dicts && t.at == at && own.dicts[t] == map[]
    ensures Rep(D(t), D(s), j, {}, at, src, own)
  {
    forall k ensures !Visible({}, k, Null) && !Whole({}, k) && !Through({}, k) {}
  }

  /** A key that is not there yet has nothing below it. */
  lemma FreshKey(t: Dict, s: Dict, j: Json, paths: set<Path>, key: string, at: Position, src: Heap, own: Heap)
    requires j.Obj? && key in j.fields && (j.fields[key].Obj? || j.fields[key].List?)
    requires Rep(D(t), D(s), j, paths, at, src, own)
    ensures key !in own.dicts[t] ==> !Whole(paths, key) && Below(paths, key) == {}
    ensures key in own.dicts[t] && Whole(paths, key) ==> own.dicts[t][key] == src.dicts[s][key]
    ensures key in own.dicts[t] && !Whole(paths, key) ==>
      Rep(own.dicts[t][key], src.dicts[s][key], j.fields[key], Below(paths, key), at + [Key(key)], src, own)
  {
    FieldsGiveKey(own.dicts[t], src.dicts[s], j, key, paths, at, src, own);
  }

  // -------------------------------------------------------------------- lists

  /** The first `n` items represent one path more than the others. */
  ghost predicate Halfway(
      t: ListNode, s: ListNode, j: Json, n: nat, paths: set<Path>, rest: Path, at: Position, src: Heap, own: Heap)
    requires j.List?
  {
    && s in src.lists && |src.lists[s]| == |j.items| && t in own.lists && t.at == at && |own.lists[t]| == |j.items|
    && forall i | 0 <= i < |j.items| ::
         RepItem(own.lists[t][i], src.lists[s][i], j.items[i],
           if i < n then paths + {rest} else paths, at + [Index(i)], src, own)
  }

  lemma HalfwayStep(
      t: ListNode, s: ListNode, j: Json, n: nat, paths: set<Path>, rest: Path, at: Position,
      src: Heap, own: Heap, after: Heap)
    requires j.List? && n < |j.items| && Halfway(t, s, j, n, paths, rest, at, src, own)
    requires Confined(at + [Index(n)], own, after)
    requires RepItem(own.lists[t][n], src.lists[s][n], j.items[n], paths + {rest}, at + [Index(n)], src, after)
    ensures Halfway(t, s, j, n + 1, paths, rest, at, src, after) && Confined(at, own, after)
    ensures after.lists[t] == own.lists[t]
  {
    hide RepItem;
    assert !(at + [Index(n)] <= t.at);
    forall i | 0 <= i < |j.items|
      ensures RepItem(after.lists[t][i], src.lists[s][i], j.items[i],
        if i < n + 1 then paths + {rest} else paths, at + [Index(i)], src, after)
    {
      if i != n {
        var p, q := at + [Index(n)], at + [Index(i)];
        assert p[|at|] != q[|at|];
        ConfinedElsewhere(p, q, own, after);
        RepItemKept(own.lists[t][i], src.lists[s][i], j.items[i],
          if i < n then paths + {rest} else paths, q, src, own, after);
      }
    }
  }

  lemma HalfwayEnds(t: ListNode, s: ListNode, j: Json, paths: set<Path>, rest: Path, at: Position, src: Heap, own: Heap)
    requires j.List?
    ensures Rep(L(t), L(s), j, paths, at, src, own) ==> Halfway(t, s, j, 0, paths, rest, at, src, own)
    ensures Halfway(t, s, j, |j.items|, paths, rest, at, src, own) ==> Rep(L(t), L(s), j, paths + {rest}, at, src, own)
  {
    hide RepItem;
  }

  /** An entry of a new shell: a fresh dictionary for a dictionary, `None` for everything else. */
  ghost predicate ShellItem(t: Value, j: Json, at: Position, own: Heap) {
    if j.Obj? then t.D? && t.dict in own.dicts && t.dict.at == at && own.dicts[t.dict] == map[] else t == Atom(Null)
  }

  lemma ShellIsRep(shell: ListNode, list: ListNode, j: Json, at: Position, src: Heap, own: Heap)
    requires j.List? && Holds(L(list), j, src) && shell in own.lists && shell.at == at
    requires |own.lists[shell]| == |j.items|
    requires forall i | 0 <= i < |j.items| :: ShellItem(own.lists[shell][i], j.items[i], at + [Index(i)], own)
    ensures Rep(L(shell), L(list), j, {}, at, src, own)
  {
    var ts, ss := own.lists[shell], src.lists[list];
    forall i | 0 <= i < |j.items| ensures RepItem(ts[i], ss[i], j.items[i], {}, at + [Index(i)], src, own) {
      assert ShellItem(ts[i], j.items[i], at + [Index(i)], own);
      assert Holds(ss[i], j.items[i], src);
      if j.items[i].Obj? {
        EmptyDict(ts[i].dict, ss[i].dict, j.items[i], at + [Index(i)], src, own);
      }
    }
  }

  /** The nodes of `own` are all in `after`, with the same contents. */
  ghost predicate Extended(own: Heap, after: Heap) {
    && own.dicts.Keys <= after.dicts.Keys && own.lists.Keys <= after.lists.Keys
    && (forall d | d in own.dicts :: after.dicts[d] == own.dicts[d])
    && (forall l | l in own.lists :: after.lists[l] == own.lists[l])
  }

  lemma ShellItemKept(t: Value, j: Json, at: Position, own: Heap, after: Heap)
    requires ShellItem(t, j, at, own) && Extended(own, after)
    ensures ShellItem(t, j, at, after)
  {
  }

  /** The placeholder of one list item in a new shell: an empty dictionary, or nothing. */
  method ShellEntry(item: Value, ghost j: Json, ghost at: Position, ghost src: Heap, ghost own: Heap)
      returns (entry: Value, ghost after: Heap)
    requires Holds(item, j, src) && Live(src) && Live(own) && Apart(src, own)
    ensures Live(src) && Live(after) && Apart(src, after) && Extended(own, after) && after.lists == own.lists
    ensures forall n | n in after.dicts :: n in own.dicts || fresh(n)
    ensures ShellItem(entry, j, at, after)
  {
    hide Holds;
    after := own;
    if item.D? {
      DictValue(item, j, src);
      var dict := new Dict(at);
      entry, after := D(dict), own.(dicts := own.dicts[dict := map[]]);
    } else {
      NotADict(item, j, src);
      entry := Atom(Null);
    }
  }

  /** The placeholders of all items of a list. */
  method ShellItems(list: ListNode, ghost j: Json, ghost at: Position, ghost src: Heap, ghost own: Heap)
      returns (items: seq<Value>, ghost after: Heap)
    requires j.List? && Holds(L(list), j, src) && Live(src) && Live(own) && Apart(src, own)
    ensures Live(src) && Live(after) && Apart(src, after) && Extended(own, after)
    ensures (forall n | n in after.dicts :: n in own.dicts || fresh(n)) && after.lists == own.lists
    ensures |items| == |j.items|
    ensures forall i | 0 <= i < |items| :: ShellItem(items[i], j.items[i], at + [Index(i)], after)
  {
    items, after := [], own;
    for i := 0 to |list.items|
      invariant |items| == i && |list.items| == |j.items| && list in src.lists && src.lists[list] == list.items
      invariant forall k | 0 <= k < i :: ShellItem(items[k], j.items[k], at + [Index(k)], after)
      invariant Live(src) && Live(after) && Apart(src, after) && Extended(own, after)
      invariant (forall n | n in after.dicts :: n in own.dicts || fresh(n)) && after.lists == own.lists
    {
      ghost var before, done := after, items;
      assert Holds(list.items[i], j.items[i], src);
      hide Holds, ShellItem;
      var entry: Value;
      entry, after := ShellEntry(list.items[i], j.items[i], at + [Index(i)], src, after);
      items := items + [entry];
      forall k | 0 <= k < i ensures ShellItem(items[k], j.items[k], at + [Index(k)], after) {
        ShellItemKept(done[k], j.items[k], at + [Index(k)], before, after);
      }
    }
  }

  method NewShell(list: ListNode, ghost j: Json, ghost at: Position, ghost src: Heap, ghost own: Heap)
      returns (shell: ListNode, ghost after: Heap)
    requires j.List? && Holds(L(list), j, src) && Live(src) && Live(own) && Apart(src, own)
    ensures shell !in own.lists && Live(src) && Live(after) && Apart(src, after)
    ensures (forall n | n in after.dicts :: n in own.dicts || fresh(n))
      && (forall n | n in after.lists :: n in own.lists || fresh(n))
    ensures Extended(own, after)
    ensures Rep(L(shell), L(list), j, {}, at, src, after)
  {
    hide Rep, Holds;
    var items: seq<Value>;
    items, after := ShellItems(list, j, at, src, own);
    ghost var filled := after;
    shell := new ListNode(items, at);
    after := after.(lists := after.lists[shell := items]);
    forall i | 0 <= i < |items| ensures ShellItem(items[i], j.items[i], at + [Index(i)], after) {
      ShellItemKept(items[i], j.items[i], at + [Index(i)], filled, after);
    }
    hide ShellItem;
    ShellIsRep(shell, list, j, at, src, after);
  }

  /**
   * `_copy_allowed_path`. The target is either the source itself (an earlier path ended above) or the
   * representation of the paths merged so far; afterwards it represents one path more. The source keeps
   * its contents, node by node.
   */
  method CopyAllowedPath(
      source: Dict, target: Dict, parts: Path,
      ghost j: Json, ghost paths: set<Path>, ghost at: Position, ghost src: Heap, ghost own: Heap)
      returns (ghost after: Heap)
    requires j.Obj? && Holds(D(source), j, src) && Merged(at, src, own, own)
    requires target == source || Rep(D(target), D(source), j, paths, at, src, own)
    modifies src.dicts.Keys, own.dicts.Keys, own.lists.Keys
    ensures Merged(at, src, own, after)
    ensures (forall n | n in after.dicts :: n in own.dicts || fresh(n))
      && (forall n | n in after.lists :: n in own.lists || fresh(n))
    ensures target == source ==> after == own
    ensures target != source ==> Rep(D(target), D(source), j, paths + {parts}, at, src, after)
    decreases |parts|, 0
  {
    hide Rep, Holds;
    after := own;
    SourceNode(source, j, src);
    if parts == [] {
      if target != source { EmptyPathAddsNothing(D(target), D(source), j, paths, at, src, own); }
      return;
    }
    var key := parts[0];
    if key !in source.fields {
      if target != source { Nowhere(target, source, j, paths, parts, at, src, own); }
      return;
    }
    if target != source { TargetNode(target, source, j, paths, at, src, own); }
    if |parts| == 1 {
      assert parts == [key];
      after := AssignWhole(source, target, key, j, paths, at, src, own);
      return;
    }
    match source.fields[key]
    case L(list) =>
      ListValue(source.fields[key], j.fields[key], src);
      after := CopyIntoList(source, target, key, list, parts[1..], j, paths, at, src, own);
      assert parts == [key] + parts[1..];
    case D(dict) =>
      DictValue(source.fields[key], j.fields[key], src);
      after := CopyIntoDict(source, target, key, dict, parts[1..], j, paths, at, src, own);
      assert parts == [key] + parts[1..];
    case Atom(_) =>
      AtomValue(source.fields[key], j.fields[key], src);
      if target != source { Nowhere(target, source, j, paths, parts, at, src, own); }
  }

  lemma ListValue(v: Value, j: Json, src: Heap)
    requires v.L? && Holds(v, j, src)
    ensures j.List? && v.list in src.lists && |src.lists[v.list]| == |j.items|
  {
  }

  lemma DictValue(v: Value, j: Json, src: Heap)
    requires v.D? && Holds(v, j, src)
    ensures j.Obj? && v.dict in src.dicts
  {
  }

  lemma NotADict(v: Value, j: Json, src: Heap)
    requires !v.D? && Holds(v, j, src)
    ensures !j.Obj?
  {
  }

  lemma AtomValue(v: Value, j: Json, src: Heap)
    requires v.Atom? && Holds(v, j, src)
    ensures !j.Obj? && !j.List?
  {
  }

  /** A representation of an object is a dictionary, of a list a list. */
  lemma RepKind(t: Value, s: Value, j: Json, paths: set<Path>, at: Position, src: Heap, own: Heap)
    requires Rep(t, s, j, paths, at, src, own)
    ensures j.Obj? ==> t.D? && t.dict in own.dicts && t.dict.at == at
    ensures j.List? ==> t.L? && t.list in own.lists && t.list.at == at
  {
  }

  /** `target[key] = child` for a new child: a dictionary or a list nothing else refers to yet. */
  method Link(
      target: Dict, key: string, child: Value,
      ghost at: Position, ghost src: Heap, ghost own: Heap, ghost made: Heap)
      returns (ghost linked: Heap)
    requires target in own.dicts && target.at == at && Merged(at, src, own, own)
    requires Live(made) && Apart(src, made) && Extended(own, made)
    modifies target
    ensures linked == made.(dicts := made.dicts[target := own.dicts[target][key := child]])
    ensures Merged(at, src, own, linked) && KeyChanged(at, key, target, own, linked, child)
    ensures Still(at + [Key(key)], made, linked)
  {
    target.fields := target.fields[key := child];
    linked := made.(dicts := made.dicts[target := target.fields]);
    assert !(at + [Key(key)] <= at);
  }

  lemma Unlinked(at: Position, key: string, t: Dict, own: Heap)
    requires t in own.dicts && t.at == at && key in own.dicts[t]
    ensures KeyChanged(at, key, t, own, own, own.dicts[t][key])
  {
    assert own.dicts[t][key := own.dicts[t][key]] == own.dicts[t];
  }

  /** `nested = target.get(key)`, replaced by a new dictionary when there is none. */
  method NestedDict(
      source: Dict, target: Dict, key: string, dict: Dict,
      ghost j: Json, ghost paths: set<Path>, ghost at: Position, ghost src: Heap, ghost own: Heap)
      returns (nested: Dict, ghost linked: Heap)
    requires j.Obj? && key in j.fields && j.fields[key].Obj? && Holds(D(dict), j.fields[key], src)
      && Merged(at, src, own, own)
    requires source in src.dicts && dict in src.dicts && key in source.fields && source.fields[key] == D(dict)
    requires Rep(D(target), D(source), j, paths, at, src, own) && target in own.dicts && target.at == at
    modifies target
    ensures Merged(at, src, own, linked) && KeyChanged(at, key, target, own, linked, D(nested))
    ensures (forall n | n in linked.dicts :: n in own.dicts || fresh(n)) && linked.lists == own.lists
    ensures Whole(paths, key) ==> nested == dict && linked == own
    ensures !Whole(paths, key) ==>
      Rep(D(nested), D(dict), j.fields[key], Below(paths, key), at + [Key(key)], src, linked) && nested in linked.dicts
  {
    hide Rep, Holds, Whole, Below;
    FreshKey(target, source, j, paths, key, at, src, own);
    ghost var here, child, below := at + [Key(key)], j.fields[key], Below(paths, key);
    if key in target.fields && !Whole(paths, key) {
      RepKind(target.fields[key], D(dict), child, below, here, src, own);
    }
    if key in target.fields && target.fields[key].D? {
      nested, linked := target.fields[key].dict, own;
      Unlinked(at, key, target, own);
    } else {
      nested, linked := NewNested(target, key, dict, child, at, src, own);
    }
  }

  method NewNested(target: Dict, key: string, dict: Dict, ghost child: Json, ghost at: Position, ghost src: Heap,
      ghost own: Heap)
      returns (nested: Dict, ghost linked: Heap)
    requires child.Obj? && Holds(D(dict), child, src) && Merged(at, src, own, own) && target in own.dicts
      && target.at == at
    modifies target
    ensures Merged(at, src, own, linked) && KeyChanged(at, key, target, own, linked, D(nested))
    ensures (forall n | n in linked.dicts :: n in own.dicts || fresh(n)) && linked.lists == own.lists
    ensures Rep(D(nested), D(dict), child, {}, at + [Key(key)], src, linked) && nested in linked.dicts
  {
    hide Rep, Holds;
    nested := new Dict(at + [Key(key)]);
    ghost var made := own.(dicts := own.dicts[nested := map[]]);
    linked := Link(target, key, D(nested), at, src, own, made);
    EmptyDict(nested, dict, child, at + [Key(key)], src, linked);
  }

  /** A path that goes on through a dictionary. */
  method CopyIntoDict(
      source: Dict, target: Dict, key: string, dict: Dict, rest: Path,
      ghost j: Json, ghost paths: set<Path>, ghost at: Position, ghost src: Heap, ghost own: Heap)
      returns (ghost after: Heap)
    requires j.Obj? && key in j.fields && j.fields[key].Obj? && rest != []
    requires Holds(D(dict), j.fields[key], src) && Merged(at, src, own, own)
    requires source in src.dicts && dict in src.dicts && key in source.fields && source.fields[key] == D(dict)
    requires target == source
      || (Rep(D(target), D(source), j, paths, at, src, own) && target in own.dicts && target.at == at)
    modifies src.dicts.Keys, own.dicts.Keys, own.lists.Keys
    ensures Merged(at, src, own, after)
    ensures (forall n | n in after.dicts :: n in own.dicts || fresh(n))
      && (forall n | n in after.lists :: n in own.lists || fresh(n))
    ensures target == source ==> after == own
    ensures target != source ==> Rep(D(target), D(source), j, paths + {[key] + rest}, at, src, after)
    decreases |rest|, 3
  {
    hide Rep, Holds, Whole, Below;
    ghost var here, child, below := at + [Key(key)], j.fields[key], Below(paths, key);
    ghost var parts := [key] + rest;
    assert parts[0] == key && parts[1..] == rest && src.dicts[source] == source.fields;
    if target == source {
      after := CopyAllowedPath(dict, target.fields[key].dict, rest, child, below, here, src, own);
      return;
    }
    var nested: Dict;
    ghost var linked: Heap;
    nested, linked := NestedDict(source, target, key, dict, j, paths, at, src, own);
    hide KeyChanged;
    after := CopyAllowedPath(dict, nested, rest, child, below, here, src, linked);
    if Whole(paths, key) {
      UnderWhole(target, source, j, paths, parts, at, src, own);
    } else {
      hide Confined;
      ChildMerged(target, source, j, paths, parts, at, src, own, linked, after, D(nested));
    }
  }

  /** `existing = target.get(key)`, replaced by a new shell when there is none. */
  method ExistingList(
      source: Dict, target: Dict, key: string, list: ListNode,
      ghost j: Json, ghost paths: set<Path>, ghost at: Position, ghost src: Heap, ghost own: Heap)
      returns (existing: ListNode, ghost linked: Heap)
    requires j.Obj? && key in j.fields && j.fields[key].List? && Holds(L(list), j.fields[key], src)
      && Merged(at, src, own, own)
    requires source in src.dicts && list in src.lists && key in source.fields && source.fields[key] == L(list)
    requires Rep(D(target), D(source), j, paths, at, src, own) && target in own.dicts && target.at == at
    modifies target
    ensures Merged(at, src, own, linked) && KeyChanged(at, key, target, own, linked, L(existing))
    ensures (forall n | n in linked.dicts :: n in own.dicts || fresh(n))
      && (forall n | n in linked.lists :: n in own.lists || fresh(n))
    ensures Whole(paths, key) ==> existing == list && linked == own
    ensures !Whole(paths, key) ==>
      Rep(L(existing), L(list), j.fields[key], Below(paths, key), at + [Key(key)], src, linked) &&
      existing in linked.lists
  {
    hide Rep, Holds, Whole, Below;
    FreshKey(target, source, j, paths, key, at, src, own);
    ghost var here, child, below := at + [Key(key)], j.fields[key], Below(paths, key);
    if key in target.fields && !Whole(paths, key) {
      RepKind(target.fields[key], L(list), child, below, here, src, own);
    }
    if key in target.fields && target.fields[key].L? {
      existing, linked := target.fields[key].list, own;
      Unlinked(at, key, target, own);
    } else {
      ghost var made: Heap;
      existing, made := NewShell(list, child, here, src, own);
      linked := Link(target, key, L(existing), at, src, own, made);
      RepKept(L(existing), L(list), child, {}, here, src, made, linked);
    }
  }

  /** A path that goes on through the dictionaries of a list. */
  method CopyIntoList(
      source: Dict, target: Dict, key: string, list: ListNode, rest: Path,
      ghost j: Json, ghost paths: set<Path>, ghost at: Position, ghost src: Heap, ghost own: Heap)
      returns (ghost after: Heap)
    requires j.Obj? && key in j.fields && j.fields[key].List? && rest != []
    requires Holds(L(list), j.fields[key], src) && Merged(at, src, own, own)
    requires source in src.dicts && list in src.lists && key in source.fields && source.fields[key] == L(list)
    requires target == source
      || (Rep(D(target), D(source), j, paths, at, src, own) && target in own.dicts && target.at == at)
    modifies src.dicts.Keys, own.dicts.Keys, own.lists.Keys
    ensures Merged(at, src, own, after)
    ensures (forall n | n in after.dicts :: n in own.dicts || fresh(n))
      && (forall n | n in after.lists :: n in own.lists || fresh(n))
    ensures target == source ==> after == own
    ensures target != source ==> Rep(D(target), D(source), j, paths + {[key] + rest}, at, src, after)
    decreases |rest|, 3
  {
    hide Rep, Holds, Whole, Below;
    ghost var here, child, below := at + [Key(key)], j.fields[key], Below(paths, key);
    ghost var parts := [key] + rest;
    assert parts[0] == key && parts[1..] == rest && src.dicts[source] == source.fields;
    if target == source {
      after := CopyItems(list, target.fields[key].list, rest, child, below, here, src, own);
      return;
    }
    var existing: ListNode;
    ghost var linked: Heap;
    existing, linked := ExistingList(source, target, key, list, j, paths, at, src, own);
    hide KeyChanged;
    after := CopyItems(list, existing, rest, child, below, here, src, linked);
    if Whole(paths, key) {
      UnderWhole(target, source, j, paths, parts, at, src, own);
    } else {
      hide Confined;
      ChildMerged(target, source, j, paths, parts, at, src, own, linked, after, L(existing));
    }
  }

  /** The loop over a list: item by item, dictionaries only. */
  method CopyItems(
      list: ListNode, existing: ListNode, rest: Path,
      ghost j: Json, ghost paths: set<Path>, ghost at: Position, ghost src: Heap, ghost own: Heap)
      returns (ghost after: Heap)
    requires j.List? && Holds(L(list), j, src) && list in src.lists && Merged(at, src, own, own) && rest != []
    requires existing == list || Rep(L(existing), L(list), j, paths, at, src, own)
    modifies src.dicts.Keys, own.dicts.Keys, own.lists.Keys
    ensures Merged(at, src, own, after)
    ensures (forall n | n in after.dicts :: n in own.dicts || fresh(n))
      && (forall n | n in after.lists :: n in own.lists || fresh(n))
    ensures existing == list ==> after == own
    ensures existing != list ==> Rep(L(existing), L(list), j, paths + {rest}, at, src, after)
    decreases |rest|, 2
  {
    hide Rep, Holds;
    after := own;
    ListValue(L(list), j, src);
    if existing != list { HalfwayEnds(existing, list, j, paths, rest, at, src, own); }
    hide Halfway;
    var index := 0;
    while index < |list.items|
      invariant index <= |list.items| == |j.items| && list.items == src.lists[list]
      invariant Merged(at, src, own, after)
      invariant (forall n | n in after.dicts :: n in own.dicts || fresh(n))
        && (forall n | n in after.lists :: n in own.lists || fresh(n))
      invariant existing == list ==> after == own
      invariant existing != list ==> Halfway(existing, list, j, index, paths, rest, at, src, after)
    {
      after := CopyItem(list, existing, index, rest, j, paths, at, src, after);
      index := index + 1;
    }
    if existing != list { HalfwayEnds(existing, list, j, paths, rest, at, src, after); }
  }

  /** One item of the list. */
  method CopyItem(
      list: ListNode, existing: ListNode, index: nat, rest: Path,
      ghost j: Json, ghost paths: set<Path>, ghost at: Position, ghost src: Heap, ghost own: Heap)
      returns (ghost after: Heap)
    requires j.List? && Holds(L(list), j, src) && list in src.lists && index < |list.items| == |j.items| && rest != []
    requires list.items == src.lists[list] && Merged(at, src, own, own)
    requires existing == list || Halfway(existing, list, j, index, paths, rest, at, src, own)
    modifies src.dicts.Keys, own.dicts.Keys, own.lists.Keys
    ensures Merged(at, src, own, after)
    ensures (forall n | n in after.dicts :: n in own.dicts || fresh(n))
      && (forall n | n in after.lists :: n in own.lists || fresh(n))
    ensures existing == list ==> after == own
    ensures existing != list ==> Halfway(existing, list, j, index + 1, paths, rest, at, src, after)
    decreases |rest|, 1
  {
    assert Holds(list.items[index], j.items[index], src);
    hide Rep, Holds;
    after := own;
    ghost var here, child := at + [Index(index)], j.items[index];
    var item := list.items[index];
    if existing != list {
      assert RepItem(existing.items[index], item, child, paths, here, src, own);
    }
    if item.D? && index < |existing.items| {
      DictValue(item, child, src);
      if existing != list { RepKind(existing.items[index], item, child, paths, here, src, own); }
      hide Halfway;
      // The program would replace an entry that is no dictionary by an empty one; no entry here is any other.
      if !existing.items[index].D? { assert false; }
      after := CopyAllowedPath(item.dict, existing.items[index].dict, rest, child, paths, here, src, own);
    } else {
      NotADict(item, child, src);
      hide Halfway;
    }
    if existing != list { HalfwayStep(existing, list, j, index, paths, rest, at, src, own, after); }
  }

  // ---------------------------------------------------------- the whole filter

  /** The segments of a dotted field, without empty ones. */
  function Parts(field: string): Path { NonEmpty(Split(field, '.')) }

  function NonEmpty(parts: seq<string>): Path {
    if parts == [] then [] else (if parts[0] == "" then [] else [parts[0]]) + NonEmpty(parts[1..])
  }

  /** The texts of the allowed fields that are not blank; `str` is Python's. */
  function Allowed(fields: seq<Json>, str: Json -> string): seq<string> {
    if fields == [] then []
    else (if Strip(str(fields[0])) == "" then [] else [str(fields[0])]) + Allowed(fields[1..], str)
  }

  function PathsOf(allowed: seq<string>): set<Path> { set a | a in allowed :: Parts(a) }

  function Field(policy: Json, name: string): Json {
    if policy.Obj? && name in policy.fields then policy.fields[name] else Null
  }

  /** What `_filter_response` returns, by the declarative projection. */
  function Filtered(j: Json, policy: Json, str: Json -> string): (r: Json)
    requires j.Obj?
    ensures r.Obj?
  {
    var fields := Field(policy, "allowedFields");
    if !fields.List? then Obj(map[])
    else
      var p := Project(j, PathsOf(Allowed(fields.items, str)));
      if Field(policy, "singleItem") == Bool(true) then Obj(map["items" := List(if p.fields == map[] then [] else [p])])
      else p
  }

  /** A loop over the allowed fields that merges one path after the other into an empty dictionary. */
  method MergeAll(response: Dict, allowed: seq<string>, ghost j: Json, ghost src: Heap)
      returns (filtered: Dict, ghost own: Heap)
    requires j.Obj? && Holds(D(response), j, src) && Live(src)
    modifies src.dicts.Keys
    ensures Live(src) && Live(own) && Apart(src, own) && (forall n | n in own.dicts :: fresh(n))
      && (forall n | n in own.lists :: fresh(n))
    ensures filtered in own.dicts && Holds(D(filtered), Project(j, PathsOf(allowed)), Both(src, own))
  {
    hide Rep, Holds, Parts, Project, PathsOf;
    SourceNode(response, j, src);
    filtered := new Dict([]);
    own := Heap(map[filtered := map[]], map[]);
    EmptyDict(filtered, response, j, [], src, own);
    NoPaths(allowed[..0]);
    for i := 0 to |allowed|
      invariant Merged([], src, own, own)
      invariant (forall n | n in own.dicts :: fresh(n)) && (forall n | n in own.lists :: fresh(n))
      invariant filtered != response && Rep(D(filtered), D(response), j, PathsOf(allowed[..i]), [], src, own)
    {
      own := CopyAllowedPath(response, filtered, Parts(allowed[i]), j, PathsOf(allowed[..i]), [], src, own);
      NextPath(allowed, i);
    }
    assert allowed[..|allowed|] == allowed;
    TargetNode(filtered, response, j, PathsOf(allowed), [], src, own);
    RepIsProjection(D(filtered), D(response), j, PathsOf(allowed), [], src, own);
    InsideIsProject(j, PathsOf(allowed));
  }

  lemma NoPaths(allowed: seq<string>)
    requires allowed == []
    ensures PathsOf(allowed) == {}
  {
  }

  lemma NextPath(allowed: seq<string>, i: nat)
    requires i < |allowed|
    ensures PathsOf(allowed[..i + 1]) == PathsOf(allowed[..i]) + {Parts(allowed[i])}
  {
    hide Parts;
    assert allowed[..i + 1] == allowed[..i] + [allowed[i]];
  }

  lemma InsideIsProject(j: Json, paths: set<Path>)
    requires j.Obj?
    ensures ProjectInside(j, paths) == Project(j, paths)
  {
  }

  /** The answer of a policy that lists no fields. */
  method NothingAllowed(ghost src: Heap) returns (result: Dict, ghost own: Heap)
    requires Live(src)
    ensures Live(src) && Live(own) && Apart(src, own) && Holds(D(result), Obj(map[]), Both(src, own))
    ensures (forall n | n in own.dicts :: fresh(n)) && (forall n | n in own.lists :: fresh(n))
  {
    result := new Dict([]);
    own := Heap(map[result := map[]], map[]);
  }

  /**
   * `_filter_response`: the returned tree is the declarative projection, whatever nodes it shares with the
   * response, and every node of the response still has its contents.
   */
  method FilterResponse(response: Dict, policy: Json, str: Json -> string, ghost j: Json, ghost src: Heap)
      returns (result: Dict, ghost own: Heap)
    requires j.Obj? && Holds(D(response), j, src) && Live(src)
    modifies src.dicts.Keys
    ensures Live(src) && Live(own) && Apart(src, own) && (forall n | n in own.dicts :: fresh(n))
      && (forall n | n in own.lists :: fresh(n))
    ensures Holds(D(result), Filtered(j, policy, str), Both(src, own))
  {
    hide Allowed, PathsOf, Project;
    var fields := Field(policy, "allowedFields");
    hide Holds, Live, Apart, Both;
    if !fields.List? {
      result, own := NothingAllowed(src);
      return;
    }
    var allowed := Allowed(fields.items, str);
    result, own := MergeAll(response, allowed, j, src);
    if Field(policy, "singleItem") == Bool(true) {
      result, own := SingleItem(result, Project(j, PathsOf(allowed)), src, own);
    }
  }

  /** The `singleItem` form of a filtered response. */
  method SingleItem(filtered: Dict, ghost p: Json, ghost src: Heap, ghost own: Heap)
      returns (result: Dict, ghost after: Heap)
    requires p.Obj? && Holds(D(filtered), p, Both(src, own)) && Live(src) && Live(own) && Apart(src, own)
      && filtered in own.dicts
    ensures Live(src) && Live(after) && Apart(src, after)
    ensures (forall n | n in after.dicts :: n in own.dicts || fresh(n))
      && (forall n | n in after.lists :: n in own.lists || fresh(n))
    ensures Holds(D(result), Obj(map["items" := List(if p.fields == map[] then [] else [p])]), Both(src, after))
  {
    hide Holds;
    ghost var list: ListNode;
    result, list, after := Wrap(filtered, src, own);
    WrapHolds(result, list, filtered, p, src, own, after);
  }

  /** A dictionary whose only entry lists the filtered response, or nothing when that is empty. */
  method Wrap(filtered: Dict, ghost src: Heap, ghost own: Heap)
      returns (result: Dict, ghost list: ListNode, ghost after: Heap)
    requires Live(src) && Live(own) && Apart(src, own) && filtered in own.dicts
    ensures Live(src) && Live(after) && Apart(src, after) && Extended(own, after)
    ensures (forall n | n in after.dicts :: n in own.dicts || fresh(n))
      && (forall n | n in after.lists :: n in own.lists || fresh(n))
    ensures result in after.dicts && after.dicts[result] == map["items" := L(list)]
    ensures list in after.lists && after.lists[list] == if own.dicts[filtered] == map[] then [] else [D(filtered)]
  {
    var items := new ListNode(if filtered.fields != map[] then [D(filtered)] else [], []);
    result := new Dict([]);
    result.fields := map["items" := L(items)];
    list := items;
    after := Heap(own.dicts[result := result.fields], own.lists[list := list.items]);
  }

  lemma HoldsKeys(d: Dict, j: Json, h: Heap)
    requires j.Obj? && Holds(D(d), j, h)
    ensures d in h.dicts && h.dicts[d].Keys == j.fields.Keys
  {
  }

  lemma EmptyKeys<U, V>(m: map<string, U>, n: map<string, V>)
    requires m.Keys == n.Keys
    ensures m == map[] <==> n == map[]
  {
    assert m == map[] <==> m.Keys == {};
    assert n == map[] <==> n.Keys == {};
  }

  lemma BothExtended(src: Heap, own: Heap, after: Heap)
    requires Extended(own, after) && Apart(src, after)
    ensures Extended(Both(src, own), Both(src, after))
  {
  }

  lemma WrapHolds(d: Dict, l: ListNode, filtered: Dict, p: Json, src: Heap, own: Heap, after: Heap)
    requires p.Obj? && Holds(D(filtered), p, Both(src, own)) && Apart(src, own) && Apart(src, after)
    requires Extended(own, after) && filtered in own.dicts && d in after.dicts && after.dicts[d] == map["items" := L(l)]
    requires l in after.lists && after.lists[l] == if own.dicts[filtered] == map[] then [] else [D(filtered)]
    ensures Holds(D(d), Obj(map["items" := List(if p.fields == map[] then [] else [p])]), Both(src, after))
  {
    HoldsKeys(filtered, p, Both(src, own));
    EmptyKeys(own.dicts[filtered], p.fields);
    BothExtended(src, own, after);
    HoldsInMore(D(filtered), p, Both(src, own), Both(src, after));
    ItemsHold(d, l, filtered, p, Both(src, after));
  }

  lemma ItemsHold(d: Dict, l: ListNode, filtered: Dict, p: Json, h: Heap)
    requires p.Obj? && Holds(D(filtered), p, h) && d in h.dicts && h.dicts[d] == map["items" := L(l)]
    requires l in h.lists && h.lists[l] == if p.fields == map[] then [] else [D(filtered)]
    ensures Holds(D(d), Obj(map["items" := List(if p.fields == map[] then [] else [p])]), h)
  {
    assert Holds(L(l), List(if p.fields == map[] then [] else [p]), h);
  }

  lemma {:induction false} HoldsInMore(v: Value, j: Json, h: Heap, more: Heap)
    requires Holds(v, j, h) && Extended(h, more)
    ensures Holds(v, j, more)
    decreases j
  {
    match j
    case Obj(m) =>
      forall k | k in m ensures Holds(h.dicts[v.dict][k], m[k], more) {
        HoldsInMore(h.dicts[v.dict][k], m[k], h, more);
      }
    case List(js) =>
      forall i | 0 <= i < |js| ensures Holds(h.lists[v.list][i], js[i], more) {
        HoldsInMore(h.lists[v.list][i], js[i], h, more);
      }
    case _ =>
  }

  lemma {:induction false} InAllowed(fields: seq<Json>, str: Json -> string, a: string)
    ensures a in Allowed(fields, str) <==> exists f | f in fields :: str(f) == a && Strip(a) != ""
  {
    hide Strip;
    if fields != [] {
      var rest := fields[1..];
      InAllowed(rest, str, a);
      assert fields == [fields[0]] + rest;
      if a in Allowed(rest, str) { var f :| f in rest && str(f) == a; assert f in fields; }
      if f :| f in fields && str(f) == a && Strip(a) != "" { assert f == fields[0] || f in rest; }
    }
  }

  /** Neither the order nor the duplication of `allowedFields` matters. */
  lemma OrderAndDuplicatesDoNotMatter(j: Json, policy: Json, other: Json, str: Json -> string)
    requires j.Obj? && Field(policy, "singleItem") == Field(other, "singleItem")
    requires Field(policy, "allowedFields").List? && Field(other, "allowedFields").List?
    requires forall f :: f in Field(policy, "allowedFields").items <==> f in Field(other, "allowedFields").items
    ensures Filtered(j, policy, str) == Filtered(j, other, str)
  {
    var a, b := Field(policy, "allowedFields").items, Field(other, "allowedFields").items;
    forall w ensures w in Allowed(a, str) <==> w in Allowed(b, str) {
      InAllowed(a, str, w);
      InAllowed(b, str, w);
    }
    assert PathsOf(Allowed(a, str)) == PathsOf(Allowed(b, str));
  }

  /** Without `singleItem`, filtering what was filtered changes nothing. */
  lemma FilteringTwice(j: Json, policy: Json, str: Json -> string)
    requires j.Obj? && Field(policy, "singleItem") != Bool(true)
    ensures Filtered(Filtered(j, policy, str), policy, str) == Filtered(j, policy, str)
  {
    if Field(policy, "allowedFields").List? {
      ProjectIdempotent(j, PathsOf(Allowed(Field(policy, "allowedFields").items, str)));
    }
  }
}
