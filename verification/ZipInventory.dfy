/** `zip_inventory` of tools/aws_live_snapshot.py: what is in an archive, listed without unpacking it. */
module ZipInventory {
  import opened Sorting
  import opened Text

  const MAX_ZIP := 32 * 1024 * 1024
  const MAX_UNCOMPRESSED := 128 * 1024 * 1024
  const MAX_ENTRIES := 5000

  datatype Mode = Unset | Regular | Directory | Other
  datatype Method = Stored | Deflated | Unsupported

  datatype Option<T> = None | Some(value: T)

  type Bytes = seq<nat>

  /** An entry of the central directory; `content` is what reading it gives, if it can be read. */
  datatype Entry = Entry(
    name: string, originalName: string, mode: Mode, encrypted: bool, compression: Method, size: nat,
    content: Option<Bytes>)

  datatype Row = Row(path: string, sizeBytes: nat, sha256: string)

  /** `name.rstrip("/")`. */
  function Bare(name: string): string {
    if name != "" && name[|name| - 1] == '/' then Bare(name[..|name| - 1]) else name
  }

  predicate PathChar(c: char) {
    'A' <= c <= 'Z' || 'a' <= c <= 'z' || '0' <= c <= '9' || c in "_.@+/-"
  }

  predicate SafePath(name: string) {
    && name != "" && (forall c | c in name :: PathChar(c)) && name[0] != '/'
    && forall part | part in Split(Bare(name), '/') :: part != "" && part != "." && part != ".."
  }

  /** `casefold()` on the characters a path may have. */
  function Fold(s: string): (r: string)
    ensures |r| == |s|
  {
    seq(|s|, i requires 0 <= i < |s| => if 'A' <= s[i] <= 'Z' then (s[i] as int + 32) as char else s[i])
  }

  function Key(e: Entry): string { Fold(Bare(e.name)) }

  predicate IsDir(e: Entry) { e.name != "" && e.name[|e.name| - 1] == '/' }

  /** The checks on one entry, apart from `seen` and the running total. */
  predicate EntryOk(e: Entry) {
    && e.originalName == e.name && SafePath(e.name) && e.mode != Other && !e.encrypted && e.compression != Unsupported
    && if IsDir(e) then e.size == 0 && e.mode != Regular
       else e.mode != Directory && e.content.Some? && |e.content.value| == e.size
  }

  function RowOf(e: Entry, sha: Bytes -> string): Row
    requires EntryOk(e) && !IsDir(e)
  {
    Row(e.name, |e.content.value|, sha(e.content.value))
  }

  function FileSize(e: Entry): nat { if IsDir(e) then 0 else e.size }

  function Total(entries: seq<Entry>): nat {
    if entries == [] then 0 else FileSize(entries[0]) + Total(entries[1..])
  }

  function Rows(entries: seq<Entry>, sha: Bytes -> string): (r: seq<Row>)
    requires forall e | e in entries :: EntryOk(e)
  {
    if entries == [] then []
    else (if IsDir(entries[0]) then [] else [RowOf(entries[0], sha)]) + Rows(entries[1..], sha)
  }

  predicate Distinct(entries: seq<Entry>) {
    forall i, j | 0 <= i < j < |entries| :: Key(entries[i]) != Key(entries[j])
  }

  /** The verdict on the archive as a whole. */
  predicate Accepted(payloadSize: nat, entries: seq<Entry>) {
    && 0 < payloadSize <= MAX_ZIP && 0 < |entries| <= MAX_ENTRIES
    && (forall e | e in entries :: EntryOk(e)) && Distinct(entries) && Total(entries) <= MAX_UNCOMPRESSED
    && exists e | e in entries :: !IsDir(e)
  }

  function PathKey(r: Row): string { r.path }

  // ------------------------------------------------------------------- method

  lemma {:induction false} AppendTotal(entries: seq<Entry>, e: Entry)
    ensures Total(entries + [e]) == Total(entries) + FileSize(e)
  {
    hide FileSize;
    var all := entries + [e];
    if entries == [] {
      assert all == [e] && all[1..] == [];
    } else {
      assert all[0] == entries[0] && all[1..] == entries[1..] + [e];
      AppendTotal(entries[1..], e);
    }
  }

  lemma RowsFirst(e: Entry, rest: seq<Entry>, sha: Bytes -> string)
    requires forall x | x in [e] + rest :: EntryOk(x)
    ensures (forall x | x in rest :: EntryOk(x))
    ensures Rows([e] + rest, sha) == (if IsDir(e) then [] else [RowOf(e, sha)]) + Rows(rest, sha)
  {
    hide EntryOk, IsDir, RowOf;
    assert ([e] + rest)[1..] == rest;
  }

  lemma NoRows(sha: Bytes -> string)
    ensures Rows([], sha) == []
  {
  }

  lemma {:induction false} AppendRow(entries: seq<Entry>, e: Entry, sha: Bytes -> string)
    requires forall x | x in entries :: EntryOk(x)
    requires forall x | x in entries + [e] :: EntryOk(x)
    ensures EntryOk(e)
    ensures Rows(entries + [e], sha) == Rows(entries, sha) + if IsDir(e) then [] else [RowOf(e, sha)]
  {
    hide EntryOk, IsDir, RowOf, Rows;
    assert e in entries + [e];
    NoRows(sha);
    if entries == [] {
      assert entries + [e] == [e] + [];
      RowsFirst(e, [], sha);
    } else {
      var head, rest := entries[0], entries[1..];
      assert entries == [head] + rest && entries + [e] == [head] + (rest + [e]);
      RowsFirst(head, rest + [e], sha);
      RowsFirst(head, rest, sha);
      AppendRow(rest, e, sha);
    }
  }

  lemma {:induction false} PrefixTotal(entries: seq<Entry>, i: nat)
    requires i <= |entries|
    ensures Total(entries[..i]) <= Total(entries)
  {
    if i > 0 {
      PrefixTotal(entries[1..], i - 1);
      assert entries[..i][1..] == entries[1..][..i - 1];
    }
  }

  lemma {:induction false} NoFiles(entries: seq<Entry>, sha: Bytes -> string)
    requires forall e | e in entries :: EntryOk(e)
    ensures Rows(entries, sha) == [] <==> forall e | e in entries :: IsDir(e)
  {
    hide EntryOk, IsDir;
    if entries != [] {
      NoFiles(entries[1..], sha);
      assert entries == [entries[0]] + entries[1..];
    }
  }

  /** The loop: a running list, a running set of names and a running total. */
  method Scan(entries: seq<Entry>, sha: Bytes -> string) returns (r: Option<seq<Row>>)
    ensures r.Some?
      <==> (forall e | e in entries :: EntryOk(e)) && Distinct(entries) && Total(entries) <= MAX_UNCOMPRESSED
    ensures r.Some? ==> r.value == Rows(entries, sha)
  {
    hide EntryOk, Key, IsDir, RowOf;
    var result, seen, total := [], {}, 0;
    for i := 0 to |entries|
      invariant forall e | e in entries[..i] :: EntryOk(e)
      invariant seen == set j | 0 <= j < i :: Key(entries[j])
      invariant forall j, k | 0 <= j < k < i :: Key(entries[j]) != Key(entries[k])
      invariant total == Total(entries[..i]) <= MAX_UNCOMPRESSED
      invariant result == Rows(entries[..i], sha)
    {
      var item := entries[i];
      assert item in entries;
      if !EntryOk(item) || Key(item) in seen { return None; }
      assert entries[..i + 1] == entries[..i] + [item];
      AppendTotal(entries[..i], item);
      AppendRow(entries[..i], item, sha);
      PrefixTotal(entries, i + 1);
      seen := seen + {Key(item)};
      if !IsDir(item) {
        total := total + item.size;
        if total > MAX_UNCOMPRESSED { return None; }
        result := result + [RowOf(item, sha)];
      }
    }
    assert entries[..|entries|] == entries;
    return Some(result);
  }

  /**
   * `zip_inventory`: it accepts exactly when the archive as a whole is acceptable, so the running check on the
   * total is the final one.
   */
  method Inventory(payloadSize: nat, entries: seq<Entry>, sha: Bytes -> string) returns (r: Option<seq<Row>>)
    ensures r.Some? <==> Accepted(payloadSize, entries)
    ensures r.Some? ==> r.value == Sort(Rows(entries, sha), PathKey)
  {
    hide EntryOk, IsDir, Distinct, Total;
    if !(0 < payloadSize <= MAX_ZIP) || !(0 < |entries| <= MAX_ENTRIES) { return None; }
    var rows := Scan(entries, sha);
    if rows.None? { return None; }
    NoFiles(entries, sha);
    if rows.value == [] { return None; }
    return Some(Sort(rows.value, PathKey));
  }

  // ---------------------------------------------------------------- order

  lemma DistinctKept(a: seq<Entry>, b: seq<Entry>)
    requires multiset(a) == multiset(b) && Distinct(a)
    ensures Distinct(b)
  {
    hide Key;
    forall i, j | 0 <= i < j < |b| ensures Key(b[i]) != Key(b[j]) {
      Twice(b, i, j);
      var k, m := TwoPositions(a, b[i], b[j]);
      assert Key(a[k]) != Key(a[m]);
    }
  }

  lemma {:induction false} TotalDrop(s: seq<Entry>, i: nat)
    requires i < |s|
    ensures Total(s) == Total(Drop(s, i)) + FileSize(s[i])
  {
    if i == 0 {
      assert Drop(s, 0) == s[1..];
    } else {
      TotalDrop(s[1..], i - 1);
      assert Drop(s, i)[0] == s[0] && Drop(s, i)[1..] == Drop(s[1..], i - 1);
    }
  }

  lemma {:induction false} RowsDrop(s: seq<Entry>, i: nat, sha: Bytes -> string)
    requires i < |s| && forall e | e in s :: EntryOk(e)
    ensures forall e | e in Drop(s, i) :: EntryOk(e)
    ensures multiset(Rows(s, sha)) == multiset(Rows(Drop(s, i), sha)) + if IsDir(s[i]) then multiset{}
      else multiset{RowOf(s[i], sha)}
  {
    hide EntryOk, IsDir, RowOf, Rows;
    assert s == [s[0]] + s[1..];
    forall e | e in Drop(s, i) ensures EntryOk(e) { assert e in s; }
    FirstRow(s[0], s[1..], sha);
    if i == 0 {
      assert Drop(s, 0) == s[1..];
    } else {
      RowsDrop(s[1..], i - 1, sha);
      assert Drop(s, i) == [s[0]] + Drop(s[1..], i - 1);
      FirstRow(s[0], Drop(s[1..], i - 1), sha);
    }
  }

  lemma FirstRow(e: Entry, rest: seq<Entry>, sha: Bytes -> string)
    requires EntryOk(e) && (forall x | x in rest :: EntryOk(x)) && forall x | x in [e] + rest :: EntryOk(x)
    ensures multiset(Rows([e] + rest, sha))
      == (if IsDir(e) then multiset{} else multiset{RowOf(e, sha)}) + multiset(Rows(rest, sha))
  {
    hide EntryOk, IsDir;
    assert ([e] + rest)[0] == e && ([e] + rest)[1..] == rest;
  }

  lemma {:induction false} SameTotalsAndRows(a: seq<Entry>, b: seq<Entry>, sha: Bytes -> string)
    requires multiset(a) == multiset(b)
    ensures Total(a) == Total(b)
    ensures (forall e | e in a :: EntryOk(e)) && (forall e | e in b :: EntryOk(e)) ==>
      multiset(Rows(a, sha)) == multiset(Rows(b, sha))
    decreases |a|
  {
    hide EntryOk, IsDir, FileSize;
    assert |multiset(a)| == |a| && |multiset(b)| == |b|;
    if a != [] {
      assert a[0] in multiset(a);
      var i := PositionOf(b, a[0]);
      TailsEqual(a, b, i);
      TotalDrop(a, 0);
      TotalDrop(b, i);
      assert Drop(a, 0) == a[1..];
      if (forall e | e in a :: EntryOk(e)) && forall e | e in b :: EntryOk(e) {
        RowsDrop(a, 0, sha);
        RowsDrop(b, i, sha);
      }
      SameTotalsAndRows(a[1..], Drop(b, i), sha);
    }
  }

  lemma AcceptedKept(payloadSize: nat, a: seq<Entry>, b: seq<Entry>)
    requires multiset(a) == multiset(b) && Accepted(payloadSize, a)
    ensures Accepted(payloadSize, b)
  {
    hide EntryOk, IsDir, Distinct;
    DistinctKept(a, b);
    SameTotalsAndRows(a, b, _ => "");
    assert |multiset(a)| == |a| && |multiset(b)| == |b|;
    forall e | e in b ensures EntryOk(e) { assert e in multiset(b); assert e in a; }
    var f :| f in a && !IsDir(f);
    assert f in multiset(a);
    assert f in b;
  }

  /** Two rows of an accepted archive with one path are one row. */
  lemma {:induction false} RowFrom(entries: seq<Entry>, sha: Bytes -> string, r: Row) returns (e: Entry)
    requires (forall e | e in entries :: EntryOk(e)) && r in Rows(entries, sha)
    ensures e in entries && !IsDir(e) && r == RowOf(e, sha)
  {
    hide EntryOk, IsDir;
    if !IsDir(entries[0]) && r == RowOf(entries[0], sha) {
      e := entries[0];
    } else {
      e := RowFrom(entries[1..], sha, r);
    }
  }

  lemma PathsApart(payloadSize: nat, entries: seq<Entry>, sha: Bytes -> string)
    requires Accepted(payloadSize, entries)
    ensures KeyedApart(Rows(entries, sha), PathKey)
  {
    hide EntryOk, IsDir;
    forall x, y | x in Rows(entries, sha) && y in Rows(entries, sha) && PathKey(x) == PathKey(y) ensures x == y {
      var e := RowFrom(entries, sha, x);
      var f := RowFrom(entries, sha, y);
      assert Key(e) == Key(f);
      var i :| 0 <= i < |entries| && entries[i] == e;
      var j :| 0 <= j < |entries| && entries[j] == f;
      assert i == j;
    }
  }

  /** The verdict and the list are the same for every order of the members. */
  lemma OrderDoesNotMatter(payloadSize: nat, a: seq<Entry>, b: seq<Entry>, sha: Bytes -> string)
    requires multiset(a) == multiset(b)
    ensures Accepted(payloadSize, a) <==> Accepted(payloadSize, b)
    ensures Accepted(payloadSize, a) ==> Sort(Rows(a, sha), PathKey) == Sort(Rows(b, sha), PathKey)
  {
    hide Accepted;
    if Accepted(payloadSize, a) {
      AcceptedKept(payloadSize, a, b);
      SortedRowsEqual(payloadSize, a, b, sha);
    }
    if Accepted(payloadSize, b) { AcceptedKept(payloadSize, b, a); }
  }

  lemma SortedRowsEqual(payloadSize: nat, a: seq<Entry>, b: seq<Entry>, sha: Bytes -> string)
    requires multiset(a) == multiset(b) && Accepted(payloadSize, a) && Accepted(payloadSize, b)
    ensures Sort(Rows(a, sha), PathKey) == Sort(Rows(b, sha), PathKey)
  {
    hide EntryOk, IsDir, Distinct;
    SameTotalsAndRows(a, b, sha);
    PathsApart(payloadSize, a, sha);
    SortForgetsOrder(Rows(a, sha), Rows(b, sha), PathKey);
  }

  // -------------------------------------------------------- what the list says

  function Sizes(rows: seq<Row>): nat { if rows == [] then 0 else rows[0].sizeBytes + Sizes(rows[1..]) }

  lemma {:induction false} SizesAre(entries: seq<Entry>, sha: Bytes -> string)
    requires forall e | e in entries :: EntryOk(e)
    ensures Sizes(Rows(entries, sha)) == Total(entries)
  {
    if entries != [] {
      var rest := Rows(entries[1..], sha);
      SizesAre(entries[1..], sha);
      assert EntryOk(entries[0]);
      if !IsDir(entries[0]) {
        assert Rows(entries, sha) == [RowOf(entries[0], sha)] + rest;
        assert Rows(entries, sha)[1..] == rest;
      } else {
        assert Rows(entries, sha) == rest;
      }
    }
  }

  lemma {:induction false} SizesDrop(s: seq<Row>, i: nat)
    requires i < |s|
    ensures Sizes(s) == Sizes(Drop(s, i)) + s[i].sizeBytes
  {
    if i == 0 {
      assert Drop(s, 0) == s[1..];
    } else {
      SizesDrop(s[1..], i - 1);
      assert Drop(s, i)[0] == s[0] && Drop(s, i)[1..] == Drop(s[1..], i - 1);
    }
  }

  lemma {:induction false} SizesForgetOrder(a: seq<Row>, b: seq<Row>)
    requires multiset(a) == multiset(b)
    ensures Sizes(a) == Sizes(b)
    decreases |a|
  {
    assert |multiset(a)| == |a| && |multiset(b)| == |b|;
    if a != [] {
      assert a[0] in multiset(a);
      var i := PositionOf(b, a[0]);
      TailsEqual(a, b, i);
      SizesDrop(b, i);
      SizesForgetOrder(a[1..], Drop(b, i));
    }
  }

  /**
   * The list of an accepted archive: sorted by path, within the size cap, every path relative and free of
   * empty, `.` and `..` segments, no two paths equal up to letter case.
   */
  lemma ListIsSafe(payloadSize: nat, entries: seq<Entry>, sha: Bytes -> string)
    requires Accepted(payloadSize, entries)
    ensures var rows := Sort(Rows(entries, sha), PathKey);
      && rows != [] && Sorted(rows, PathKey) && Sizes(rows) <= MAX_UNCOMPRESSED
      && (forall r | r in rows :: SafePath(r.path) && Bare(r.path) == r.path)
      && FoldDistinct(rows)
  {
    var all := Rows(entries, sha);
    var rows := Sort(all, PathKey);
    hide EntryOk, IsDir, Sort, Distinct, Fold, SafePath, Bare;
    SortSorted(all, PathKey);
    SizesForgetOrder(rows, all);
    SizesAre(entries, sha);
    NoFiles(entries, sha);
    assert |rows| == |multiset(rows)| == |multiset(all)| == |all|;
    forall r | r in rows ensures SafePath(r.path) && Bare(r.path) == r.path {
      assert r in multiset(rows);
      assert r in all;
      var e := RowFrom(entries, sha, r);
      FilePath(e, sha);
    }
    FoldsApart(entries, sha);
    forall i, j | 0 <= i < j < |rows| ensures Fold(rows[i].path) != Fold(rows[j].path) {
      Twice(rows, i, j);
      var k, m := TwoPositions(all, rows[i], rows[j]);
    }
  }

  lemma FilePath(e: Entry, sha: Bytes -> string)
    requires EntryOk(e) && !IsDir(e)
    ensures SafePath(RowOf(e, sha).path) && Bare(e.name) == e.name && Key(e) == Fold(RowOf(e, sha).path)
  {
    hide SafePath, Fold;
  }

  predicate FoldDistinct(rows: seq<Row>) {
    forall i, j | 0 <= i < j < |rows| :: Fold(rows[i].path) != Fold(rows[j].path)
  }

  lemma FoldDistinctFirst(r: Row, rows: seq<Row>)
    requires FoldDistinct(rows) && forall x | x in rows :: Fold(x.path) != Fold(r.path)
    ensures FoldDistinct([r] + rows)
  {
    hide Fold;
    var all := [r] + rows;
    forall i, j | 0 <= i < j < |all| ensures Fold(all[i].path) != Fold(all[j].path) {
      assert all[j] == rows[j - 1] && rows[j - 1] in rows;
      if i > 0 { assert all[i] == rows[i - 1]; }
    }
  }

  lemma {:induction false} FoldsApart(entries: seq<Entry>, sha: Bytes -> string)
    requires (forall e | e in entries :: EntryOk(e)) && Distinct(entries)
    ensures FoldDistinct(Rows(entries, sha))
  {
    hide EntryOk, IsDir, Fold, FoldDistinct, Key;
    if entries == [] {
      assert FoldDistinct([]) by { NoFolds(); }
    } else {
      var first, rest := entries[0], entries[1..];
      assert Distinct(rest) by {
        forall i, j | 0 <= i < j < |rest| ensures Key(rest[i]) != Key(rest[j]) {
          assert rest[i] == entries[i + 1] && rest[j] == entries[j + 1];
        }
      }
      FoldsApart(rest, sha);
      if !IsDir(first) {
        FilePath(first, sha);
        forall r | r in Rows(rest, sha) ensures Fold(r.path) != Fold(first.name) {
          var e := RowFrom(rest, sha, r);
          FilePath(e, sha);
          var i :| 0 <= i < |rest| && rest[i] == e;
          assert Key(entries[0]) != Key(entries[i + 1]);
        }
        FoldDistinctFirst(RowOf(first, sha), Rows(rest, sha));
      } else {
        assert Rows(entries, sha) == Rows(rest, sha);
      }
    }
  }

  lemma NoFolds()
    ensures FoldDistinct([])
  {
  }
}
