/** CloudFormation templates as JSON values: reading them, editing them, and what differs between two of them. */
module Templates {
  import opened Json

  /** `j.get(k)`, with `None` also for a value that has no fields. */
  function Get(j: Json, k: string): Json {
    if j.Obj? && k in j.fields then j.fields[k] else Null
  }

  function Fields(j: Json): map<string, Json> { if j.Obj? then j.fields else map[] }

  function Ref(name: string): Json { Obj(map["Ref" := Str(name)]) }

  /** `j` with field `k` set. */
  function With(j: Json, k: string, v: Json): Json { Obj(Fields(j)[k := v]) }

  function Without(j: Json, k: string): Json { Obj(Fields(j) - {k}) }

  function Resources(t: Json): map<string, Json> { Fields(Get(t, "Resources")) }

  function Resource(t: Json, name: string): Json { Get(Get(t, "Resources"), name) }

  function WithResources(t: Json, rs: map<string, Json>): (r: Json)
    ensures Resources(r) == rs
    ensures forall k | k != "Resources" :: Get(r, k) == Get(t, k)
    ensures Fields(r).Keys == Fields(t).Keys + {"Resources"}
  {
    With(t, "Resources", Obj(rs))
  }

  function Properties(r: Json): Json { Get(r, "Properties") }

  /** `r` with property `k` set. */
  function WithProperty(r: Json, k: string, v: Json): (w: Json)
    ensures Get(Properties(w), k) == v
    ensures forall n | n != k :: Get(Properties(w), n) == Get(Properties(r), n)
    ensures forall n | n != "Properties" :: Get(w, n) == Get(r, n)
    ensures Properties(w).Obj? && Fields(Properties(w)).Keys == Fields(Properties(r)).Keys + {k}
  {
    With(r, "Properties", With(Properties(r), k, v))
  }

  predicate IsA(rs: map<string, Json>, name: string, kind: string) {
    name in rs && Get(rs[name], "Type") == Str(kind)
  }

  // --------------------------------------------------------------------- diffs

  /** How one resource differs between two templates. */
  datatype Delta =
    | Added(name: string) | Removed(name: string)
    | Changed(name: string, properties: set<string>, beyond: bool)

  /** The properties whose value differs. */
  function ChangedProperties(a: Json, b: Json): set<string> {
    var x, y := Fields(a), Fields(b);
    set k | k in x.Keys + y.Keys && (k !in x || k !in y || x[k] != y[k])
  }

  /** Something other than the values of properties differs. */
  predicate ChangedBeyond(a: Json, b: Json) {
    || !a.Obj? || !b.Obj? || !Properties(a).Obj? || !Properties(b).Obj?
    || Without(a, "Properties") != Without(b, "Properties")
  }

  /** The resource-level difference. */
  function Diff(a: map<string, Json>, b: map<string, Json>): set<Delta> {
    (set n | n in b && n !in a :: Added(n))
    + (set n | n in a && n !in b :: Removed(n))
    + (set n | n in a && n in b && a[n] != b[n] ::
         Changed(n, ChangedProperties(Properties(a[n]), Properties(b[n])), ChangedBeyond(a[n], b[n])))
  }

  /** Setting a property that really changes is the only change. */
  lemma OnePropertyChanged(r: Json, k: string, v: Json)
    requires Properties(r).Obj? && (k !in Properties(r).fields || Properties(r).fields[k] != v)
    ensures ChangedProperties(Properties(r), Properties(WithProperty(r, k, v))) == {k}
    ensures !ChangedBeyond(r, WithProperty(r, k, v)) && WithProperty(r, k, v) != r
  {
    var w := WithProperty(r, k, v);
    assert Properties(w).fields == Properties(r).fields[k := v];
    assert Without(r, "Properties") == Without(w, "Properties");
  }

  // -------------------------------------------------------------------- digits

  predicate Hex(s: string) { forall c | c in s :: '0' <= c <= '9' || 'a' <= c <= 'f' }
}
