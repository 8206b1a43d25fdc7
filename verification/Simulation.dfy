/** `stable_simulation_evaluations` of tools/thn_production_release.py: a normal form for unordered evidence. */
module Simulation {
  import opened Json
  import opened Sorting
  import opened Templates

  /** `canonical` tells JSON values apart. */
  ghost predicate Faithful(canonical: Json -> string) {
    forall x, y :: canonical(x) == canonical(y) ==> x == y
  }

  const MATCHED := "MatchedStatements"
  const MISSING := "MissingContextValues"
  const RESULTS := "ResourceSpecificResults"

  /** The row with the list under `key`, if there is one, in canonical order. */
  function SortField(row: Json, key: string, canonical: Json -> string): Json {
    if row.Obj? && key in row.fields && row.fields[key].List?
    then With(row, key, List(Sort(row.fields[key].items, canonical)))
    else row
  }

  /** The two unordered fields that a row and a resource result have in common. */
  function SortPlain(row: Json, canonical: Json -> string): Json {
    SortField(SortField(row, MATCHED, canonical), MISSING, canonical)
  }

  function Map(s: seq<Json>, f: Json -> Json): (r: seq<Json>)
    ensures |r| == |s| && forall i | 0 <= i < |s| :: r[i] == f(s[i])
  {
    seq(|s|, i requires 0 <= i < |s| => f(s[i]))
  }

  function NormalRow(row: Json, canonical: Json -> string): Json {
    var plain := SortPlain(row, canonical);
    if plain.Obj? && RESULTS in plain.fields && plain.fields[RESULTS].List?
    then With(plain, RESULTS, List(Sort(Map(plain.fields[RESULTS].items, r => SortPlain(r, canonical)), canonical)))
    else plain
  }

  function Normal(rows: seq<Json>, canonical: Json -> string): seq<Json> {
    Sort(Map(rows, r => NormalRow(r, canonical)), canonical)
  }

  // ------------------------------------------------------------------- method

  method SortedResults(results: seq<Json>, canonical: Json -> string) returns (r: seq<Json>)
    ensures r == Sort(Map(results, x => SortPlain(x, canonical)), canonical)
  {
    r := [];
    for i := 0 to |results|
      invariant r == Map(results[..i], x => SortPlain(x, canonical))
    {
      var resource := results[i];
      resource := SortField(resource, MATCHED, canonical);
      resource := SortField(resource, MISSING, canonical);
      r := r + [resource];
    }
    assert results[..|results|] == results;
    r := Sort(r, canonical);
  }

  /** One round of the outer loop. */
  method NormalizeRow(evaluation: Json, canonical: Json -> string) returns (row: Json)
    ensures row == NormalRow(evaluation, canonical)
  {
    row := SortField(evaluation, MATCHED, canonical);
    row := SortField(row, MISSING, canonical);
    if row.Obj? && RESULTS in row.fields && row.fields[RESULTS].List? {
      var results := SortedResults(row.fields[RESULTS].items, canonical);
      row := With(row, RESULTS, List(results));
    }
  }

  /** The loops over a copy of the rows, then the final sort. */
  method StableSimulationEvaluations(evaluations: seq<Json>, canonical: Json -> string) returns (rows: seq<Json>)
    ensures rows == Normal(evaluations, canonical)
  {
    hide NormalRow, Sort;
    rows := [];
    for i := 0 to |evaluations|
      invariant rows == Map(evaluations[..i], r => NormalRow(r, canonical))
    {
      var row := NormalizeRow(evaluations[i], canonical);
      rows := rows + [row];
    }
    assert evaluations[..|evaluations|] == evaluations;
    rows := Sort(rows, canonical);
  }

  // -------------------------------------------------- equality up to reordering

  /** `b` is a reordering of `a` in which corresponding elements are related by `same`. */
  ghost predicate Reordered(a: seq<Json>, b: seq<Json>, same: (Json, Json) -> bool)
    decreases |a|
  {
    |a| == |b| && (a == [] || exists i | 0 <= i < |b| :: same(a[0], b[i]) && Reordered(a[1..], Drop(b, i), same))
  }

  /** Two values of an unordered field. */
  ghost predicate SameList(x: Json, y: Json, same: (Json, Json) -> bool) {
    if x.List? && y.List? then Reordered(x.items, y.items, same) else x == y
  }

  ghost predicate Equal(x: Json, y: Json) { x == y }

  /** Two resource results that differ at most in the order of matched statements and missing values. */
  ghost predicate SameResult(x: Json, y: Json) {
    if x.Obj? && y.Obj? then
      && x.fields.Keys == y.fields.Keys
      && forall k | k in x.fields ::
           if k == MATCHED || k == MISSING then SameList(x.fields[k], y.fields[k], Equal)
           else x.fields[k] == y.fields[k]
    else x == y
  }

  /**
   * Two rows that differ at most in those orders, here and in their resource results, and in the order of the
   * results.
   */
  ghost predicate SameRow(x: Json, y: Json) {
    if x.Obj? && y.Obj? then
      && x.fields.Keys == y.fields.Keys
      && forall k | k in x.fields ::
           if k == MATCHED || k == MISSING then SameList(x.fields[k], y.fields[k], Equal)
           else if k == RESULTS then SameList(x.fields[k], y.fields[k], SameResult)
           else x.fields[k] == y.fields[k]
    else x == y
  }

  // ------------------------------------------------------------- multisets

  lemma MapDrop(s: seq<Json>, i: nat, f: Json -> Json)
    requires i < |s|
    ensures Map(Drop(s, i), f) == Drop(Map(s, f), i)
  {
  }

  /** One corresponding pair taken out on both sides. */
  lemma PairOut(a: seq<Json>, b: seq<Json>, i: nat, f: Json -> Json)
    requires a != [] && i < |b| && f(a[0]) == f(b[i])
    ensures multiset(Map(a, f)) == multiset(Map(b, f)) <==> multiset(Map(a[1..], f)) == multiset(Map(Drop(b, i), f))
  {
    var x, y := Map(a, f), Map(b, f);
    assert x == [f(a[0])] + Map(a[1..], f);
    MapDrop(b, i, f);
    DropMultiset(y, i);
    if multiset(x) == multiset(y) {
      assert multiset(Map(a[1..], f)) == multiset(x) - multiset{f(a[0])} == multiset(Drop(y, i));
    }
  }

  lemma PairExists(a: seq<Json>, b: seq<Json>, f: Json -> Json) returns (i: nat)
    requires a != [] && multiset(Map(a, f)) == multiset(Map(b, f))
    ensures i < |b| && f(a[0]) == f(b[i])
  {
    var x, y := Map(a, f), Map(b, f);
    assert x[0] in multiset(y);
    i :| 0 <= i < |y| && y[i] == x[0];
  }

  lemma {:induction false} ReorderedGivesImages(a: seq<Json>, b: seq<Json>, same: (Json, Json) -> bool, f: Json -> Json)
    requires forall x, y | x in a && y in b :: same(x, y) <==> f(x) == f(y)
    requires Reordered(a, b, same)
    ensures multiset(Map(a, f)) == multiset(Map(b, f))
    decreases |a|
  {
    if a == [] {
      assert Map(a, f) == Map(b, f);
    } else {
      hide Map;
      var i :| 0 <= i < |b| && same(a[0], b[i]) && Reordered(a[1..], Drop(b, i), same);
      ReorderedGivesImages(a[1..], Drop(b, i), same, f);
      PairOut(a, b, i, f);
    }
  }

  lemma {:induction false} ImagesGiveReordered(a: seq<Json>, b: seq<Json>, same: (Json, Json) -> bool, f: Json -> Json)
    requires forall x, y | x in a && y in b :: same(x, y) <==> f(x) == f(y)
    requires multiset(Map(a, f)) == multiset(Map(b, f))
    ensures Reordered(a, b, same)
    decreases |a|
  {
    SameLength(a, b, f);
    if a != [] {
      hide Map;
      var i := PairExists(a, b, f);
      PairOut(a, b, i, f);
      ImagesGiveReordered(a[1..], Drop(b, i), same, f);
    }
  }

  /** When `same` is equality of images, reordering is equality of the multisets of images. */
  lemma ReorderedByImages(a: seq<Json>, b: seq<Json>, same: (Json, Json) -> bool, f: Json -> Json)
    requires forall x, y | x in a && y in b :: same(x, y) <==> f(x) == f(y)
    ensures Reordered(a, b, same) <==> multiset(Map(a, f)) == multiset(Map(b, f))
  {
    hide Map, Reordered;
    if Reordered(a, b, same) { ReorderedGivesImages(a, b, same, f); }
    if multiset(Map(a, f)) == multiset(Map(b, f)) { ImagesGiveReordered(a, b, same, f); }
  }

  lemma SameLength(a: seq<Json>, b: seq<Json>, f: Json -> Json)
    requires multiset(Map(a, f)) == multiset(Map(b, f))
    ensures |a| == |b|
  {
    assert |multiset(Map(a, f))| == |a| && |multiset(Map(b, f))| == |b|;
  }

  // ---------------------------------------------------------- field by field

  /** An unordered field after normalization: its images, sorted. */
  function SortedImages(v: Json, f: Json -> Json, canonical: Json -> string): Json {
    if v.List? then List(Sort(Map(v.items, f), canonical)) else v
  }

  lemma SameSorted(a: seq<Json>, b: seq<Json>, canonical: Json -> string)
    requires Faithful(canonical)
    ensures Sort(a, canonical) == Sort(b, canonical) <==> multiset(a) == multiset(b)
  {
    if multiset(a) == multiset(b) { SortForgetsOrder(a, b, canonical); }
  }

  lemma SortedImagesEqual(v: Json, w: Json, same: (Json, Json) -> bool, f: Json -> Json, canonical: Json -> string)
    requires Faithful(canonical) && forall x, y :: same(x, y) <==> f(x) == f(y)
    ensures SortedImages(v, f, canonical) == SortedImages(w, f, canonical) <==> SameList(v, w, same)
  {
    if v.List? && w.List? {
      ReorderedByImages(v.items, w.items, same, f);
      SameSorted(Map(v.items, f), Map(w.items, f), canonical);
    }
  }

  function Same(j: Json): Json { j }

  /** What `SortPlain` does to every field. */
  lemma PlainFields(row: Json, canonical: Json -> string)
    ensures var p := SortPlain(row, canonical);
      if row.Obj? then
        && p.Obj? && p.fields.Keys == row.fields.Keys
        && forall k | k in row.fields :: p.fields[k] ==
             if k == MATCHED || k == MISSING then SortedImages(row.fields[k], Same, canonical) else row.fields[k]
      else p == row
  {
    if row.Obj? {
      forall k | k in row.fields && row.fields[k].List? ensures Map(row.fields[k].items, Same) == row.fields[k].items {}
    }
    hide Sort;
  }

  lemma SameObjects(x: Json, y: Json)
    requires x.Obj? && y.Obj? && x.fields.Keys == y.fields.Keys
    ensures x == y <==> forall k | k in x.fields :: x.fields[k] == y.fields[k]
  {
    if forall k | k in x.fields :: x.fields[k] == y.fields[k] { assert x.fields == y.fields; }
  }

  /** Two resource results normalize equally exactly when they are the same up to order. */
  lemma PlainEqual(x: Json, y: Json, canonical: Json -> string)
    requires Faithful(canonical)
    ensures SortPlain(x, canonical) == SortPlain(y, canonical) <==> SameResult(x, y)
  {
    PlainFields(x, canonical);
    PlainFields(y, canonical);
    hide SortPlain, SortedImages, SameList;
    if x.Obj? && y.Obj? {
      forall k | k in x.fields && k in y.fields
        ensures SortedImages(x.fields[k], Same, canonical) == SortedImages(y.fields[k], Same, canonical)
          <==> SameList(x.fields[k], y.fields[k], Equal)
      {
        SortedImagesEqual(x.fields[k], y.fields[k], Equal, Same, canonical);
      }
      if x.fields.Keys == y.fields.Keys { SameObjects(SortPlain(x, canonical), SortPlain(y, canonical)); }
    }
  }

  /** What `NormalRow` does to every field. */
  lemma RowFields(row: Json, canonical: Json -> string)
    ensures var p, f := NormalRow(row, canonical), r => SortPlain(r, canonical);
      if row.Obj? then
        && p.Obj? && p.fields.Keys == row.fields.Keys
        && forall k | k in row.fields :: p.fields[k] ==
             if k == MATCHED || k == MISSING then SortedImages(row.fields[k], Same, canonical)
             else if k == RESULTS then SortedImages(row.fields[k], f, canonical)
             else row.fields[k]
      else p == row
  {
    PlainFields(row, canonical);
    hide SortPlain, Sort, Map;
  }

  lemma RowEqual(x: Json, y: Json, canonical: Json -> string)
    requires Faithful(canonical)
    ensures NormalRow(x, canonical) == NormalRow(y, canonical) <==> SameRow(x, y)
  {
    var f := r => SortPlain(r, canonical);
    RowFields(x, canonical);
    RowFields(y, canonical);
    hide NormalRow, SortedImages, SameList, SortPlain;
    if x.Obj? && y.Obj? {
      forall k | k in x.fields && k in y.fields
        ensures SortedImages(x.fields[k], Same, canonical) == SortedImages(y.fields[k], Same, canonical)
          <==> SameList(x.fields[k], y.fields[k], Equal)
        ensures SortedImages(x.fields[k], f, canonical) == SortedImages(y.fields[k], f, canonical)
          <==> SameList(x.fields[k], y.fields[k], SameResult)
      {
        SortedImagesEqual(x.fields[k], y.fields[k], Equal, Same, canonical);
        forall r, s ensures SameResult(r, s) <==> f(r) == f(s) { PlainEqual(r, s, canonical); }
        SortedImagesEqual(x.fields[k], y.fields[k], SameResult, f, canonical);
      }
      if x.fields.Keys == y.fields.Keys { SameObjects(NormalRow(x, canonical), NormalRow(y, canonical)); }
    }
  }

  /** The normal form: two evaluations normalize equally if and only if they are equal up to those reorderings. */
  lemma NormalFormIff(a: seq<Json>, b: seq<Json>, canonical: Json -> string)
    requires Faithful(canonical)
    ensures Normal(a, canonical) == Normal(b, canonical) <==> Reordered(a, b, SameRow)
  {
    var f := r => NormalRow(r, canonical);
    forall x, y ensures SameRow(x, y) <==> f(x) == f(y) { RowEqual(x, y, canonical); }
    ReorderedByImages(a, b, SameRow, f);
    SameSorted(Map(a, f), Map(b, f), canonical);
  }

  // -------------------------------------------------------------- idempotence

  lemma ImagesTwice(v: Json, f: Json -> Json, canonical: Json -> string)
    requires forall x :: f(f(x)) == f(x)
    ensures SortedImages(SortedImages(v, f, canonical), f, canonical) == SortedImages(v, f, canonical)
  {
    if v.List? {
      var once := Sort(Map(v.items, f), canonical);
      SortedFixed(v.items, f, canonical);
      SortIdempotent(Map(v.items, f), canonical);
    }
  }

  lemma SortedFixed(s: seq<Json>, f: Json -> Json, canonical: Json -> string)
    requires forall x :: f(f(x)) == f(x)
    ensures Map(Sort(Map(s, f), canonical), f) == Sort(Map(s, f), canonical)
  {
    var once := Sort(Map(s, f), canonical);
    forall i | 0 <= i < |once| ensures f(once[i]) == once[i] {
      assert once[i] in multiset(once);
      assert once[i] in Map(s, f);
    }
  }

  lemma PlainTwice(row: Json, canonical: Json -> string)
    ensures SortPlain(SortPlain(row, canonical), canonical) == SortPlain(row, canonical)
  {
    var once := SortPlain(row, canonical);
    PlainFields(row, canonical);
    PlainFields(once, canonical);
    hide SortPlain, SortedImages;
    if row.Obj? {
      forall k | k in row.fields { ImagesTwice(row.fields[k], Same, canonical); }
      SameObjects(SortPlain(once, canonical), once);
    }
  }

  lemma RowTwice(row: Json, canonical: Json -> string)
    ensures NormalRow(NormalRow(row, canonical), canonical) == NormalRow(row, canonical)
  {
    var once, f := NormalRow(row, canonical), r => SortPlain(r, canonical);
    forall x ensures f(f(x)) == f(x) { PlainTwice(x, canonical); }
    RowFields(row, canonical);
    RowFields(once, canonical);
    hide NormalRow, SortPlain, SortedImages;
    if row.Obj? {
      forall k | k in row.fields ensures NormalRow(once, canonical).fields[k] == once.fields[k] {
        ImagesTwice(row.fields[k], Same, canonical);
        ImagesTwice(row.fields[k], f, canonical);
      }
      SameObjects(NormalRow(once, canonical), once);
    }
  }

  /** Normalizing twice is normalizing once. */
  lemma NormalIdempotent(rows: seq<Json>, canonical: Json -> string)
    ensures Normal(Normal(rows, canonical), canonical) == Normal(rows, canonical)
  {
    var f := r => NormalRow(r, canonical);
    forall x ensures f(f(x)) == f(x) { RowTwice(x, canonical); }
    hide NormalRow;
    SortedFixed(rows, f, canonical);
    SortIdempotent(Map(rows, f), canonical);
  }
}
