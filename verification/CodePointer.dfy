/** `_code` and `_compose` of tools/aws_live_snapshot.py: reading and writing a function's package pointer. */
module CodePointer {
  import opened Json
  import opened Templates

  const SAM := "AWS::Serverless::Function"
  const NATIVE := "AWS::Lambda::Function"
  const FUNCTIONS := ["ApiProxyFunction", "AuthProvisioningExecutorFunction", "AuthJwtAuthorizerFunction"]

  datatype Option<T> = None | Some(value: T)

  /** A package pointer as `_code` returns it; the values are whatever the template holds until they are checked. */
  datatype Pointer = Pointer(bucket: Json, key: Json, version: Option<Json>)

  datatype Package = Package(bucket: string, key: string, versionId: string)

  /** `text_value`: printable, without spaces, at most 2048 characters. */
  predicate TextValue(j: Json) {
    j.Str? && 0 < |j.s| <= 2048 && forall c | c in j.s :: '!' <= c <= '~'
  }

  predicate Texts(p: Pointer) {
    TextValue(p.bucket) && TextValue(p.key) && (p.version.Some? ==> TextValue(p.version.value))
  }

  function Kind(r: Json): string { if Get(r, "Type").Str? then Get(r, "Type").s else "" }

  /** The property that holds the pointer, and the names of its entries, in either template shape. */
  function Slot(kind: string): string { if kind == SAM then "CodeUri" else "Code" }

  function BucketKey(kind: string): string { if kind == SAM then "Bucket" else "S3Bucket" }

  function KeyKey(kind: string): string { if kind == SAM then "Key" else "S3Key" }

  function VersionKey(kind: string): string { if kind == SAM then "Version" else "S3ObjectVersion" }

  function FromFields(kind: string, fields: map<string, Json>): Option<Pointer> {
    if fields.Keys == {BucketKey(kind), KeyKey(kind)} then
      Some(Pointer(fields[BucketKey(kind)], fields[KeyKey(kind)], None))
    else if fields.Keys == {BucketKey(kind), KeyKey(kind), VersionKey(kind)} then
      Some(Pointer(fields[BucketKey(kind)], fields[KeyKey(kind)], Some(fields[VersionKey(kind)])))
    else None
  }

  /** `_code`; `url` splits an `s3://bucket/key` address that passes the checks on its parts. */
  function Code(r: Json, url: string -> Option<(string, string)>): Option<Pointer> {
    if Kind(r) != SAM && Kind(r) != NATIVE then None
    else
      var value := Get(Properties(r), Slot(Kind(r)));
      var pointer :=
        if value.Str? then
          (match url(value.s) case None => None case Some((bucket, key)) => Some(Pointer(Str(bucket), Str(key), None)))
        else if value.Obj? then FromFields(Kind(r), value.fields)
        else None;
      if pointer.Some? && Texts(pointer.value) then pointer else None
  }

  /** The pointer that `_compose` writes. */
  function Written(kind: string, package: Package): Json {
    Obj(map[
      BucketKey(kind) := Str(package.bucket), KeyKey(kind) := Str(package.key),
      VersionKey(kind) := Str(package.versionId)])
  }

  function Repointed(r: Json, package: Package): Json { WithProperty(r, Slot(Kind(r)), Written(Kind(r), package)) }

  predicate Readable(t: Json, name: string, url: string -> Option<(string, string)>) {
    name in Resources(t) && Code(Resources(t)[name], url).Some?
  }

  function ComposedResources(rs: map<string, Json>, package: Package): map<string, Json> {
    map n | n in rs :: if n in FUNCTIONS then Repointed(rs[n], package) else rs[n]
  }

  function Composed(t: Json, package: Package): Json { WithResources(t, ComposedResources(Resources(t), package)) }

  /** `_compose`: a copy in which the three functions point to the package; each old pointer must be readable. */
  method Compose(t: Json, package: Package, url: string -> Option<(string, string)>) returns (r: Option<Json>)
    ensures r == if forall n | n in FUNCTIONS :: Readable(t, n, url) then Some(Composed(t, package)) else None
  {
    FunctionsDiffer();
    hide Code, Repointed, FUNCTIONS;
    var rs := Resources(t);
    for i := 0 to |FUNCTIONS|
      invariant forall j | 0 <= j < i :: Readable(t, FUNCTIONS[j], url)
      invariant rs.Keys == Resources(t).Keys
      invariant forall j | 0 <= j < i :: rs[FUNCTIONS[j]] == Repointed(Resources(t)[FUNCTIONS[j]], package)
      invariant forall n | n in rs && (forall j | 0 <= j < i :: FUNCTIONS[j] != n) :: rs[n] == Resources(t)[n]
    {
      var name := FUNCTIONS[i];
      if name !in rs || Code(rs[name], url).None? {
        assert name in FUNCTIONS && !Readable(t, name, url);
        return None;
      }
      rs := rs[name := Repointed(rs[name], package)];
    }
    assert rs == ComposedResources(Resources(t), package);
    return Some(WithResources(t, rs));
  }

  lemma FunctionsDiffer()
    ensures forall i, j | 0 <= i < j < |FUNCTIONS| :: FUNCTIONS[i] != FUNCTIONS[j]
  {
  }

  // -------------------------------------------------------------- round trips

  predicate TextPackage(package: Package) {
    TextValue(Str(package.bucket)) && TextValue(Str(package.key)) && TextValue(Str(package.versionId))
  }

  function PointerOf(package: Package): Pointer {
    Pointer(Str(package.bucket), Str(package.key), Some(Str(package.versionId)))
  }

  lemma KeysDiffer(kind: string)
    ensures BucketKey(kind) != KeyKey(kind) && BucketKey(kind) != VersionKey(kind) && KeyKey(kind) != VersionKey(kind)
  {
  }

  /** In either shape the reader gets back what the writer wrote, exactly when the package's texts are valid. */
  lemma ReadsBackIff(r: Json, package: Package, url: string -> Option<(string, string)>)
    requires Kind(r) == SAM || Kind(r) == NATIVE
    ensures Code(Repointed(r, package), url) == Some(PointerOf(package)) <==> TextPackage(package)
    ensures !TextPackage(package) ==> Code(Repointed(r, package), url) == None
  {
    var w := Repointed(r, package);
    KeysDiffer(Kind(r));
    assert Kind(w) == Kind(r) && Get(Properties(w), Slot(Kind(r))) == Written(Kind(r), package);
    hide BucketKey, KeyKey, VersionKey, Slot, WithProperty, TextValue, SAM, NATIVE;
    assert Written(Kind(r), package).fields.Keys == {BucketKey(Kind(r)), KeyKey(Kind(r)), VersionKey(Kind(r))};
    assert BucketKey(Kind(r)) in {BucketKey(Kind(r)), KeyKey(Kind(r)), VersionKey(Kind(r))};
    assert VersionKey(Kind(r)) !in {BucketKey(Kind(r)), KeyKey(Kind(r))};
    assert FromFields(Kind(r), Written(Kind(r), package).fields) == Some(PointerOf(package));
  }

  lemma ReadableKind(r: Json, url: string -> Option<(string, string)>)
    requires Code(r, url).Some?
    ensures Kind(r) == SAM || Kind(r) == NATIVE
  {
  }

  lemma RepointedTwice(r: Json, package: Package)
    ensures Repointed(Repointed(r, package), package) == Repointed(r, package)
  {
    var w := Repointed(r, package);
    assert Kind(w) == Kind(r);
    var slot, v := Slot(Kind(r)), Written(Kind(r), package);
    hide Slot, Written;
    assert Properties(w) == With(Properties(r), slot, v);
    assert Fields(Properties(r))[slot := v][slot := v] == Fields(Properties(r))[slot := v];
    assert Fields(w)["Properties" := Properties(w)] == Fields(w);
  }

  /** After a composition every function's pointer reads back as the package. */
  lemma ComposedReadsBack(t: Json, package: Package, url: string -> Option<(string, string)>, name: string)
    requires name in FUNCTIONS && Readable(t, name, url) && TextPackage(package)
    ensures
      var after := Resources(Composed(t, package));
      name in after && Code(after[name], url) == Some(PointerOf(package))
  {
    ReadableKind(Resources(t)[name], url);
    ReadsBackIff(Resources(t)[name], package, url);
    hide Code, Repointed, FUNCTIONS, TextPackage;
  }

  /** Composing twice succeeds and changes nothing more, exactly when the package's texts are valid. */
  lemma ComposeTwiceIff(t: Json, package: Package, url: string -> Option<(string, string)>)
    requires forall n | n in FUNCTIONS :: Readable(t, n, url)
    ensures (forall n | n in FUNCTIONS :: Readable(Composed(t, package), n, url)) <==> TextPackage(package)
    ensures Composed(Composed(t, package), package) == Composed(t, package)
  {
    assert FUNCTIONS[0] in FUNCTIONS;
    hide Code, Repointed, FUNCTIONS, TextPackage;
    var rs, after := Resources(t), Resources(Composed(t, package));
    forall n | n in FUNCTIONS ensures Readable(Composed(t, package), n, url) <==> TextPackage(package) {
      assert Readable(t, n, url);
      ReadableKind(rs[n], url);
      ReadsBackIff(rs[n], package, url);
    }
    ComposedTwice(t, package);
  }

  lemma ComposedTwice(t: Json, package: Package)
    ensures Composed(Composed(t, package), package) == Composed(t, package)
  {
    hide Repointed, FUNCTIONS;
    var rs, after := Resources(t), Resources(Composed(t, package));
    forall n | n in rs ensures ComposedResources(after, package)[n] == after[n] { RepointedTwice(rs[n], package); }
    assert ComposedResources(after, package) == after;
    assert Fields(t)["Resources" := Obj(after)]["Resources" := Obj(after)] == Fields(t)["Resources" := Obj(after)];
  }

  /** A composition changes one property of each of the three functions and nothing else. */
  lemma NothingElseChanges(t: Json, package: Package, name: string)
    requires name in Resources(t)
    ensures var r, w := Resources(t)[name], Resources(Composed(t, package))[name];
      && (name !in FUNCTIONS ==> w == r)
      && (forall k | k != "Properties" :: Get(w, k) == Get(r, k))
      && (forall k | k != Slot(Kind(r)) :: Get(Properties(w), k) == Get(Properties(r), k))
    ensures Resources(Composed(t, package)).Keys == Resources(t).Keys
    ensures forall k | k != "Resources" :: Get(Composed(t, package), k) == Get(t, k)
  {
    hide Slot, FUNCTIONS;
  }
}
