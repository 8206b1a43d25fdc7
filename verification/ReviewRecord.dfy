/** The sealed production review: `make_review_record`, `verify_review_record` and `execute_retained`. */
module ReviewRecord {
  import opened ChangeInventory
  import opened Json
  import opened Simulation
  import opened Sorting
  import opened Templates

  const DAY := 86400
  const CONTRACT := "thn-production-retained-review/v1"
  const ARN := "arn:aws:cloudformation:us-east-1:765932874577:"
  const SERVICES := {"auth", "api", "hub", "image"}
  const PURPOSES := {"state", "activate", "general", "recover"}

  /** The fields of a record besides its digest; whatever JSON they hold. */
  datatype Body = Body(
    schemaVersion: Json, contract: Json, environment: Json, service: Json, purpose: Json, sourceSha: Json,
    stackId: Json,
    changeSetArn: Json, createdAt: Json, expiresAt: Json, baselineSha256: Json, originalTemplateSha256: Json,
    processedTemplateSha256: Json, parametersSha256: Json, permissionSha256: Json, identitySha256: Json,
    sourcePackageSha256: Json, packageManifest: Json, changes: Json, nativeInventorySha256: Json,
    recoveryCoordinates: Json)

  /** A record with exactly the closed set of fields, or something else. */
  datatype Record = Record(body: Body, digest: Json) | Malformed

  /**
   * The library functions the seal rests on: `sha` of a value, `seal` the same of a record's body, `canonical`.
   * Nothing says that the first two tell values apart.
   */
  datatype Hashing = Hashing(sha: Json -> string, seal: Body -> string, canonical: Json -> string)

  /** `_sha`: so many hexadecimal digits, not all zero. */
  predicate Digest(s: string, length: nat) {
    |s| == length && Hex(s) && exists c | c in s :: c != '0'
  }

  ghost predicate Hashes(h: Hashing) {
    Faithful(h.canonical) && (forall x :: Digest(h.sha(x), 64)) && forall b :: Digest(h.seal(b), 64)
  }

  datatype Inputs = Inputs(
    service: string, purpose: string, sourceSha: string, stackId: string, changeSetArn: string, createdAt: int,
    baseline: Json, original: Json, processed: Json, parameters: Json, permissions: Json, identity: Json,
    sourcePackage: Json, packages: seq<Json>, changes: seq<Json>, recovery: seq<Json>)

  /** One row of `safe_inventory`. */
  function SafeRow(item: Json, h: Hashing): Json {
    Obj(map[
      "resource" := Obj(map[
        "Action" := Get(Change(item), "Action"), "LogicalResourceId" := Get(Change(item), "LogicalResourceId"),
        "PhysicalResourceId" := Get(Change(item), "PhysicalResourceId"),
        "ResourceType" := Get(Change(item), "ResourceType"),
        "Replacement" := Get(Change(item), "Replacement"), "Scope" := Get(Change(item), "Scope")]),
      "nativeChangeSha256" := Str(h.sha(item))])
  }

  function SafeInventory(changes: seq<Json>, h: Hashing): (r: Json)
    ensures r.List?
  {
    List(Sort(Map(changes, c => SafeRow(c, h)), h.canonical))
  }

  function NativeInventory(changes: seq<Json>, h: Hashing): Json { List(Sort(changes, h.canonical)) }

  /** The record without its digest. */
  function BodyOf(x: Inputs, h: Hashing): Body {
    Body(
      Num(1), Str(CONTRACT), Str("production"), Str(x.service), Str(x.purpose), Str(x.sourceSha), Str(x.stackId),
      Str(x.changeSetArn), Num(x.createdAt), Num(x.createdAt + DAY), Str(h.sha(x.baseline)), Str(h.sha(x.original)),
      Str(h.sha(x.processed)), Str(h.sha(x.parameters)), Str(h.sha(x.permissions)), Str(h.sha(x.identity)),
      Str(h.sha(x.sourcePackage)), List(x.packages), SafeInventory(x.changes, h),
      Str(h.sha(NativeInventory(x.changes, h))),
      List(x.recovery))
  }

  function SealedDigest(x: Inputs, h: Hashing): string { h.seal(BodyOf(x, h)) }

  /** `make_review_record`, after its checks. */
  function Sealed(x: Inputs, h: Hashing): Record { Record(BodyOf(x, h), Str(SealedDigest(x, h))) }

  predicate Makeable(x: Inputs) { x.service in SERVICES && x.purpose in PURPOSES && Digest(x.sourceSha, 40) }

  // ------------------------------------------------------------------- verify

  predicate NonEmptyText(j: Json) { j.Str? && j.s != "" }

  predicate Coordinate(j: Json) {
    && j.Obj? && j.fields.Keys == {"bucket", "key", "versionId", "sha256"}
    && NonEmptyText(j.fields["bucket"]) && NonEmptyText(j.fields["key"]) && NonEmptyText(j.fields["versionId"])
    && j.fields["versionId"] != Str("null") && j.fields["sha256"].Str? && Digest(j.fields["sha256"].s, 64)
  }

  predicate Coordinates(j: Json) { j.List? && forall c | c in j.items :: Coordinate(c) }

  predicate Identity(b: Body, service: string, sourceSha: string) {
    && b.schemaVersion == Num(1) && b.contract == Str(CONTRACT) && b.environment == Str("production")
    && service in SERVICES && b.service == Str(service) && b.purpose.Str? && b.purpose.s in PURPOSES
    && Digest(sourceSha, 40) && b.sourceSha == Str(sourceSha)
  }

  predicate Unaltered(r: Record, approved: string, h: Hashing) {
    r.Record? && Digest(approved, 64) && r.digest == Str(approved) && h.seal(r.body) == approved
  }

  predicate Current(b: Body, now: int) {
    && b.createdAt.Num? && b.expiresAt.Num? && b.createdAt.n <= now < b.expiresAt.n
    && b.expiresAt.n - b.createdAt.n == DAY
  }

  predicate DigestText(j: Json) { j.Str? && Digest(j.s, 64) }

  predicate Content(b: Body, service: string) {
    && DigestText(b.baselineSha256) && DigestText(b.originalTemplateSha256) && DigestText(b.processedTemplateSha256)
    && DigestText(b.parametersSha256) && DigestText(b.permissionSha256) && DigestText(b.identitySha256)
    && DigestText(b.sourcePackageSha256) && DigestText(b.nativeInventorySha256)
    && Coordinates(b.packageManifest) && b.changes.List? && Coordinates(b.recoveryCoordinates)
    && b.stackId.Str? && (ARN + "stack/") <= b.stackId.s
    && b.changeSetArn.Str? && (ARN + "changeSet/thn-production-" + service + "-") <= b.changeSetArn.s
  }

  /** `verify_review_record`. */
  predicate Verifies(r: Record, approved: string, now: int, service: string, sourceSha: string, h: Hashing) {
    && r.Record? && Identity(r.body, service, sourceSha) && Unaltered(r, approved, h)
    && Current(r.body, now) && Content(r.body, service)
  }

  /** What the inputs of a record must be for it ever to verify. */
  predicate WellFormed(x: Inputs) {
    && Makeable(x) && (forall c | c in x.packages :: Coordinate(c)) && (forall c | c in x.recovery :: Coordinate(c))
    && (ARN + "stack/") <= x.stackId && (ARN + "changeSet/thn-production-" + x.service + "-") <= x.changeSetArn
  }

  // ----------------------------------------------------------------- the seal

  /**
   * A record verifies against its own digest from its creation for one day, if its inputs are well formed, and
   * never else.
   */
  lemma VerifiesExactlyForADay(x: Inputs, now: int, h: Hashing)
    requires Hashes(h)
    ensures Verifies(Sealed(x, h), SealedDigest(x, h), now, x.service, x.sourceSha, h)
      <==> WellFormed(x) && x.createdAt <= now < x.createdAt + DAY
  {
    hide Digest, Coordinate, Hex, SafeInventory, NativeInventory, CONTRACT, ARN, SERVICES, PURPOSES;
  }

  /** Two bodies that `seal` does not tell apart. */
  predicate SealCollision(a: Body, b: Body, h: Hashing) { a != b && h.seal(a) == h.seal(b) }

  predicate Collision(a: Json, b: Json, h: Hashing) { a != b && h.sha(a) == h.sha(b) }

  /** Whatever verifies against the approved digest is the approved record, or exhibits a collision with it. */
  lemma AlteredRecordsAreRefused(x: Inputs, r: Record, now: int, service: string, sourceSha: string, h: Hashing)
    requires Verifies(r, SealedDigest(x, h), now, service, sourceSha, h)
    ensures r == Sealed(x, h) || SealCollision(r.body, BodyOf(x, h), h)
  {
    hide Identity, Current, Content, BodyOf;
  }

  // ------------------------------------------------------------------ execute

  /** What `execute_retained` observes and is given. */
  datatype Observed = Observed(
    baseline: Json, permissions: Json, identity: Json, sourcePackage: Json, stackId: Json, status: Json,
    executionStatus: Json, changes: seq<Json>, parameters: Json, original: Json, processed: Json)

  function ScopeOf(purpose: Json): Scope {
    if purpose == Str("state") then State
    else if purpose == Str("activate") then Activate
    else if purpose == Str("general") then General
    else Recover
  }

  function Listed(j: Json): seq<Json> { if j.List? then j.items else [] }

  /** The checks between verification and the mutation, in order. */
  predicate Matches(b: Body, o: Observed, stored: Json -> bool, parse: Json -> Json, h: Hashing) {
    && Str(h.sha(o.baseline)) == b.baselineSha256
    && Str(h.sha(o.permissions)) == b.permissionSha256 && Str(h.sha(o.identity)) == b.identitySha256
    && Str(h.sha(o.sourcePackage)) == b.sourcePackageSha256
    && (forall c | c in Listed(b.packageManifest) + Listed(b.recoveryCoordinates) :: stored(c))
    && o.status == Str("CREATE_COMPLETE") && o.executionStatus == Str("AVAILABLE") && o.stackId == b.stackId
    && SafeInventory(o.changes, h) == b.changes && Str(h.sha(NativeInventory(o.changes, h))) == b.nativeInventorySha256
    && Str(h.sha(o.original)) == b.originalTemplateSha256 && Str(h.sha(o.processed)) == b.processedTemplateSha256
    && Str(h.sha(o.parameters)) == b.parametersSha256
    && Accepted(o.changes, parse(Get(o.baseline, "processed")), o.processed, ScopeOf(b.purpose))
  }

  /** `execute_retained` gets past every check. */
  predicate Executes(
      r: Record, approved: string, sourceSha: string, service: string, o: Observed, stored: Json -> bool,
      parse: Json -> Json, authority: bool, now: int, h: Hashing)
  {
    Verifies(r, approved, now, service, sourceSha, h) && Matches(r.body, o, stored, parse, h) && authority
  }

  /** A stack with one mutation. */
  class Stack {
    var executed: nat

    /**
     * `execute_retained`: `stored` is `verify_object`, `parse` is `parse_template`, `authority` the fresh source
     * check.
     */
    method ExecuteRetained(
        r: Record, approved: string, sourceSha: string, service: string, o: Observed, stored: Json -> bool,
        parse: Json -> Json, authority: bool, now: int, h: Hashing)
        returns (ok: bool)
      modifies this
      ensures ok <==> Executes(r, approved, sourceSha, service, o, stored, parse, authority, now, h)
      ensures executed == old(executed) + if ok then 1 else 0
    {
      hide Accepted, SafeInventory, NativeInventory, Identity, Unaltered, Current, Content, ScopeOf;
      if !Verifies(r, approved, now, service, sourceSha, h) { return false; }
      var b := r.body;
      if Str(h.sha(o.baseline)) != b.baselineSha256 { return false; }
      if Str(h.sha(o.permissions)) != b.permissionSha256 || Str(h.sha(o.identity)) != b.identitySha256 { return false; }
      if Str(h.sha(o.sourcePackage)) != b.sourcePackageSha256 { return false; }
      var coordinates := Listed(b.packageManifest) + Listed(b.recoveryCoordinates);
      for i := 0 to |coordinates|
        invariant forall j | 0 <= j < i :: stored(coordinates[j])
        invariant executed == old(executed)
      {
        assert coordinates[i] in coordinates;
        if !stored(coordinates[i]) { return false; }
      }
      if o.status != Str("CREATE_COMPLETE") || o.executionStatus != Str("AVAILABLE") { return false; }
      if o.stackId != b.stackId { return false; }
      if SafeInventory(o.changes, h) != b.changes { return false; }
      if Str(h.sha(NativeInventory(o.changes, h))) != b.nativeInventorySha256 { return false; }
      if Str(h.sha(o.original)) != b.originalTemplateSha256 { return false; }
      if Str(h.sha(o.processed)) != b.processedTemplateSha256 { return false; }
      if Str(h.sha(o.parameters)) != b.parametersSha256 { return false; }
      var reviewed := ReviewInventory(o.changes, parse(Get(o.baseline, "processed")), o.processed, ScopeOf(b.purpose),
        h.canonical);
      if reviewed.None? { return false; }
      if !authority { return false; }
      executed := executed + 1;
      return true;
    }
  }

  /** The observation is the sealed one: equal values, and the same changes in whatever order. */
  predicate SameAsSealed(x: Inputs, o: Observed) {
    && o.baseline == x.baseline && o.permissions == x.permissions && o.identity == x.identity
    && o.sourcePackage == x.sourcePackage && o.original == x.original && o.processed == x.processed
    && o.parameters == x.parameters && multiset(o.changes) == multiset(x.changes)
  }

  /** Some observed value differs from the sealed one and has the same hash. */
  predicate SomeCollision(x: Inputs, o: Observed, h: Hashing) {
    || Collision(o.baseline, x.baseline, h) || Collision(o.permissions, x.permissions, h)
    || Collision(o.identity, x.identity, h)
    || Collision(o.sourcePackage, x.sourcePackage, h) || Collision(o.original, x.original, h)
    || Collision(o.processed, x.processed, h) || Collision(o.parameters, x.parameters, h)
    || Collision(NativeInventory(o.changes, h), NativeInventory(x.changes, h), h)
  }

  lemma InventoryForgetsOrder(a: seq<Json>, b: seq<Json>, h: Hashing)
    requires Hashes(h)
    ensures NativeInventory(a, h) == NativeInventory(b, h) <==> multiset(a) == multiset(b)
    ensures multiset(a) == multiset(b) ==> SafeInventory(a, h) == SafeInventory(b, h)
  {
    SameSorted(a, b, h.canonical);
    if multiset(a) == multiset(b) {
      MapMultiset(a, b, c => SafeRow(c, h));
      SameSorted(Map(a, c => SafeRow(c, h)), Map(b, c => SafeRow(c, h)), h.canonical);
    }
  }

  lemma {:induction false} MapMultiset(a: seq<Json>, b: seq<Json>, f: Json -> Json)
    requires multiset(a) == multiset(b)
    ensures multiset(Map(a, f)) == multiset(Map(b, f))
    decreases |a|
  {
    assert |multiset(a)| == |a| && |multiset(b)| == |b|;
    if a == [] {
      assert Map(a, f) == Map(b, f);
    } else {
      assert a[0] in multiset(a);
      hide Map, Drop;
      var i := PositionOf(b, a[0]);
      TailsEqual(a, b, i);
      MapMultiset(a[1..], Drop(b, i), f);
      PairOut(a, b, i, f);
    }
  }

  /**
   * The mutation is reached with the sealed record exactly within its day, with every stored object in place,
   * fresh authority, the same stack ready, an accepted change list and everything else as sealed - or with a
   * hash collision.
   */
  lemma ReachesTheMutationIff(
      x: Inputs, o: Observed, stored: Json -> bool, parse: Json -> Json, authority: bool, now: int, h: Hashing)
    requires Hashes(h) && !SomeCollision(x, o, h)
    ensures var r := Sealed(x, h);
      (Verifies(r, SealedDigest(x, h), now, x.service, x.sourceSha, h) && Matches(r.body, o, stored, parse, h)
        && authority) <==>
        && WellFormed(x) && x.createdAt <= now < x.createdAt + DAY && authority
        && (forall c | c in x.packages + x.recovery :: stored(c))
        && o.status == Str("CREATE_COMPLETE") && o.executionStatus == Str("AVAILABLE") && o.stackId == Str(x.stackId)
        && SameAsSealed(x, o)
        && Accepted(x.changes, parse(Get(x.baseline, "processed")), x.processed, ScopeOf(Str(x.purpose)))
  {
    VerifiesExactlyForADay(x, now, h);
    MatchesIff(x, o, stored, parse, h);
    assert Faithful(h.canonical);
    hide *;
    if SameAsSealed(x, o) {
      SealedChanges(x, o);
      OrderDoesNotMatter(o.changes, x.changes, parse(Get(x.baseline, "processed")), x.processed,
        ScopeOf(Str(x.purpose)), h.canonical);
    }
  }

  lemma SealedChanges(x: Inputs, o: Observed)
    requires SameAsSealed(x, o)
    ensures o.baseline == x.baseline && o.processed == x.processed && multiset(o.changes) == multiset(x.changes)
  {
  }

  lemma MatchesIff(x: Inputs, o: Observed, stored: Json -> bool, parse: Json -> Json, h: Hashing)
    requires Hashes(h) && !SomeCollision(x, o, h)
    ensures Matches(Sealed(x, h).body, o, stored, parse, h) <==>
      && (forall c | c in x.packages + x.recovery :: stored(c))
      && o.status == Str("CREATE_COMPLETE") && o.executionStatus == Str("AVAILABLE") && o.stackId == Str(x.stackId)
      && SameAsSealed(x, o)
      && Accepted(o.changes, parse(Get(o.baseline, "processed")), o.processed, ScopeOf(Str(x.purpose)))
  {
    hide SafeInventory, NativeInventory, Accepted, ScopeOf, Get, Hashes, SomeCollision, CONTRACT;
    InventoryForgetsOrder(o.changes, x.changes, h);
    HashesTell(x, o, h);
  }

  /** Without a collision equal hashes mean equal values. */
  lemma HashesTell(x: Inputs, o: Observed, h: Hashing)
    requires !SomeCollision(x, o, h)
    ensures h.sha(o.baseline) == h.sha(x.baseline) <==> o.baseline == x.baseline
    ensures h.sha(o.permissions) == h.sha(x.permissions) <==> o.permissions == x.permissions
    ensures h.sha(o.identity) == h.sha(x.identity) <==> o.identity == x.identity
    ensures h.sha(o.sourcePackage) == h.sha(x.sourcePackage) <==> o.sourcePackage == x.sourcePackage
    ensures h.sha(o.original) == h.sha(x.original) <==> o.original == x.original
    ensures h.sha(o.processed) == h.sha(x.processed) <==> o.processed == x.processed
    ensures h.sha(o.parameters) == h.sha(x.parameters) <==> o.parameters == x.parameters
    ensures h.sha(NativeInventory(o.changes, h)) == h.sha(NativeInventory(x.changes, h))
      <==> NativeInventory(o.changes, h) == NativeInventory(x.changes, h)
  {
    hide NativeInventory;
  }

  /** What an execution needs besides the sealed record: the day, the stored objects, the stack and the observation. */
  predicate InPlace(
      x: Inputs, o: Observed, stored: Json -> bool, parse: Json -> Json, authority: bool, now: int)
  {
    && WellFormed(x) && x.createdAt <= now < x.createdAt + DAY && authority
    && (forall c | c in x.packages + x.recovery :: stored(c))
    && o.status == Str("CREATE_COMPLETE") && o.executionStatus == Str("AVAILABLE") && o.stackId == Str(x.stackId)
    && SameAsSealed(x, o)
    && Accepted(x.changes, parse(Get(x.baseline, "processed")), x.processed, ScopeOf(Str(x.purpose)))
  }

  /**
   * Whatever record is presented against the approved digest, for whatever service and source, the stack is
   * changed exactly when the record, the service and the source are the sealed ones and everything is in place -
   * or with a hash collision.
   */
  lemma OnlyTheSealedRecordExecutes(
      x: Inputs, r: Record, sourceSha: string, service: string, o: Observed, stored: Json -> bool,
      parse: Json -> Json, authority: bool, now: int, h: Hashing)
    requires Hashes(h) && !SomeCollision(x, o, h) && (r.Record? ==> !SealCollision(r.body, BodyOf(x, h), h))
    ensures Executes(r, SealedDigest(x, h), sourceSha, service, o, stored, parse, authority, now, h) <==>
      r == Sealed(x, h) && service == x.service && sourceSha == x.sourceSha
      && InPlace(x, o, stored, parse, authority, now)
  {
    hide SomeCollision, SealCollision, Matches, Hashes, Verifies, BodyOf, SealedDigest, WellFormed, SameAsSealed;
    hide Accepted;
    if Verifies(r, SealedDigest(x, h), now, service, sourceSha, h) {
      AlteredRecordsAreRefused(x, r, now, service, sourceSha, h);
      VerifiedIsRecord(r, SealedDigest(x, h), now, service, sourceSha, h);
      assert r == Sealed(x, h);
      SealedFor(x, now, service, sourceSha, h);
    }
    ReachesTheMutationIff(x, o, stored, parse, authority, now, h);
  }

  lemma VerifiedIsRecord(r: Record, approved: string, now: int, service: string, sourceSha: string, h: Hashing)
    requires Verifies(r, approved, now, service, sourceSha, h)
    ensures r.Record?
  {
    hide Identity, Unaltered, Current, Content;
  }

  /** A sealed record names its service and its source. */
  lemma SealedFor(x: Inputs, now: int, service: string, sourceSha: string, h: Hashing)
    requires Verifies(Sealed(x, h), SealedDigest(x, h), now, service, sourceSha, h)
    ensures service == x.service && sourceSha == x.sourceSha
  {
    hide Unaltered, Current, Content, Digest, SafeInventory, NativeInventory, CONTRACT;
  }
}
