/** When the repeated replacement of a URL template is the simultaneous substitution of its values. */
module UrlSubstitution {
  import opened PercentEncoding
  import opened UrlTemplate

  datatype Segment = Lit(c: char) | Hole(name: string)

  /** A template as a list of literal characters and placeholders. */
  function Segments(s: string): seq<Segment> {
    if s == "" then []
    else
      var n := PlaceholderAt(s);
      if n > 0 then [Hole(s[1..n + 1])] + Segments(s[n + 2..]) else [Lit(s[0])] + Segments(s[1..])
  }

  /** All holes filled at once; holes without a value stay. */
  function Substitute(segs: seq<Segment>, values: map<string, string>): string {
    if segs == [] then ""
    else
      (match segs[0]
       case Lit(c) => [c]
       case Hole(n) => if n in values then values[n] else Placeholder(n))
      + Substitute(segs[1..], values)
  }

  function Render(segs: seq<Segment>): string { Substitute(segs, map[]) }

  predicate PlainName(name: string) { name != "" && forall c | c in name :: IsName(c) }

  predicate PlainHoles(segs: seq<Segment>) {
    forall g | g in segs && g.Hole? :: PlainName(g.name)
  }

  function Holes(segs: seq<Segment>): seq<string> {
    if segs == [] then []
    else (if segs[0].Hole? then [segs[0].name] else []) + Holes(segs[1..])
  }

  // -------------------------------------------------------------------- traps

  /** Name characters and holes filled with them, up to a literal `}`. */
  predicate Closes(segs: seq<Segment>, through: set<string>) {
    segs != [] &&
    match segs[0]
    case Lit(c) => c == '}' || (IsName(c) && Closes(segs[1..], through))
    case Hole(n) => n in through && Closes(segs[1..], through)
  }

  /** A literal `{` that becomes the start of a placeholder. */
  predicate TrapAt(segs: seq<Segment>, through: set<string>) {
    |segs| > 1 && segs[0] == Lit('{') && segs[1] != Lit('}') && Closes(segs[1..], through)
  }

  /**
   * Filling the holes leaves a placeholder: somewhere stands `{`, then literal name characters and holes in
   * `through`, at least one of either, then `}`.
   */
  predicate Trapped(segs: seq<Segment>, through: set<string>) {
    segs != [] && (TrapAt(segs, through) || Trapped(segs[1..], through))
  }

  /** The placeholders whose values have name characters only. */
  function NameLike(values: map<string, string>): set<string> {
    set n | n in values && forall c | c in values[n] :: IsName(c)
  }

  lemma {:induction false} ClosesMore(segs: seq<Segment>, some: set<string>, more: set<string>)
    requires some <= more
    ensures Closes(segs, some) ==> Closes(segs, more)
  {
    if segs != [] { ClosesMore(segs[1..], some, more); }
  }

  lemma {:induction false} TrappedMore(segs: seq<Segment>, some: set<string>, more: set<string>)
    requires some <= more
    ensures Trapped(segs, some) ==> Trapped(segs, more)
  {
    if segs != [] {
      ClosesMore(segs[1..], some, more);
      TrappedMore(segs[1..], some, more);
    }
  }

  // --------------------------------------------------------- the same on text

  predicate ClosesText(s: string) {
    s != "" && (s[0] == '}' || (IsName(s[0]) && ClosesText(s[1..])))
  }

  lemma {:induction false} ClosesTextAt(s: string)
    ensures ClosesText(s) <==> NameLength(s) < |s| && s[NameLength(s)] == '}'
  {
    if s != "" && IsName(s[0]) { ClosesTextAt(s[1..]); }
  }

  lemma PlaceholderIff(s: string)
    ensures PlaceholderAt(s) > 0 <==> |s| > 1 && s[0] == '{' && s[1] != '}' && ClosesText(s[1..])
  {
    if s != "" { ClosesTextAt(s[1..]); }
  }

  lemma {:induction false} ClosesThrough(v: string, s: string)
    requires '}' !in v
    ensures ClosesText(v + s) <==> (forall c | c in v :: IsName(c)) && ClosesText(s)
  {
    if v == "" {
      assert v + s == s;
    } else {
      assert (v + s)[0] == v[0] && (v + s)[1..] == v[1..] + s;
      ClosesThrough(v[1..], s);
      assert v == [v[0]] + v[1..];
    }
  }

  /** Text without `{` holds no start of a placeholder. */
  lemma {:induction false} FindAllThrough(v: string, s: string)
    requires '{' !in v
    ensures FindAll(v + s) == FindAll(s)
  {
    if v == "" {
      assert v + s == s;
    } else {
      assert (v + s)[0] == v[0] && (v + s)[1..] == v[1..] + s;
      FindAllThrough(v[1..], s);
    }
  }

  ghost predicate EncodedValues(values: map<string, string>) {
    forall n | n in values :: values[n] != "" && Encoded(values[n])
  }

  lemma EncodedPlain(v: string)
    requires Encoded(v)
    ensures '{' !in v && '}' !in v
  {
  }

  lemma {:induction false} ClosesSubstituted(segs: seq<Segment>, values: map<string, string>)
    requires EncodedValues(values)
    ensures Closes(segs, NameLike(values)) <==> ClosesText(Substitute(segs, values))
  {
    if segs != [] {
      var rest := Substitute(segs[1..], values);
      ClosesSubstituted(segs[1..], values);
      match segs[0]
      case Lit(c) => assert ([c] + rest)[1..] == rest;
      case Hole(n) =>
        if n in values {
          EncodedPlain(values[n]);
          ClosesThrough(values[n], rest);
        } else {
          assert (Placeholder(n) + rest)[0] == '{';
        }
    }
  }

  /** Where a literal `{` starts a placeholder after the substitution. */
  lemma TrapSubstituted(segs: seq<Segment>, values: map<string, string>)
    requires EncodedValues(values) && segs != [] && segs[0].Lit?
    ensures TrapAt(segs, NameLike(values)) <==> PlaceholderAt(Substitute(segs, values)) > 0
  {
    var c, rest := segs[0].c, Substitute(segs[1..], values);
    var s := [c] + rest;
    assert s[1..] == rest;
    PlaceholderIff(s);
    ClosesSubstituted(segs[1..], values);
    if |segs| > 1 { FirstBrace(segs[1..], values); }
    hide Closes, ClosesText, NameLike, PlaceholderAt, EncodedValues;
  }

  lemma FirstBrace(segs: seq<Segment>, values: map<string, string>)
    requires EncodedValues(values) && segs != []
    ensures var s := Substitute(segs, values); s != "" && (s[0] == '}' <==> segs[0] == Lit('}'))
  {
    if segs[0].Hole? && segs[0].name in values {
      assert values[segs[0].name][0] in values[segs[0].name];
    }
  }

  /** What is filled in leaves a placeholder exactly when the template traps it. */
  lemma {:induction false} UnresolvedIff(segs: seq<Segment>, values: map<string, string>)
    requires EncodedValues(values) && forall n | n in Holes(segs) :: n in values
    ensures FindAll(Substitute(segs, values)) == [] <==> !Trapped(segs, NameLike(values))
  {
    if segs != [] {
      var rest := Substitute(segs[1..], values);
      UnresolvedIff(segs[1..], values);
      hide Closes, NameLike, PlaceholderAt;
      match segs[0]
      case Lit(c) =>
        TrapSubstituted(segs, values);
        assert ([c] + rest)[1..] == rest;
      case Hole(n) =>
        assert n in Holes(segs);
        EncodedPlain(values[n]);
        FindAllThrough(values[n], rest);
    }
  }

  // ------------------------------------------------------ parsing and replacing

  lemma PlaceholderSplits(s: string)
    requires PlaceholderAt(s) > 0
    ensures var n := PlaceholderAt(s); PlainName(s[1..n + 1]) && s == Placeholder(s[1..n + 1]) + s[n + 2..]
  {
    var n := PlaceholderAt(s);
    hide IsName;
    forall c | c in s[1..n + 1] ensures IsName(c) {
      var i :| 0 <= i < n && c == s[1..n + 1][i];
      assert s[i + 1] == c;
    }
  }

  lemma {:induction false} SegmentsOf(s: string)
    ensures Render(Segments(s)) == s && Holes(Segments(s)) == FindAll(s) && PlainHoles(Segments(s))
  {
    if s != "" {
      var n := PlaceholderAt(s);
      if n > 0 { PlaceholderSplits(s); }
      hide PlaceholderAt, PlainName, Placeholder;
      if n > 0 { SegmentsOf(s[n + 2..]); } else { SegmentsOf(s[1..]); }
    }
  }

  /** The literals of a parsed template form no placeholder. */
  lemma {:induction false} SegmentsUntrapped(s: string)
    ensures !Trapped(Segments(s), {})
  {
    if s != "" {
      var n := PlaceholderAt(s);
      hide Closes;
      if n > 0 {
        SegmentsUntrapped(s[n + 2..]);
      } else {
        SegmentsUntrapped(s[1..]);
        SegmentsOf(s);
        assert NameLike(map[]) == {};
        TrapSubstituted(Segments(s), map[]);
      }
    }
  }

  function Fill(segs: seq<Segment>, name: string, v: string): seq<Segment> {
    if segs == [] then []
    else (if segs[0] == Hole(name) then Literals(v) else [segs[0]]) + Fill(segs[1..], name, v)
  }

  function Literals(v: string): (r: seq<Segment>)
    ensures |r| == |v| && forall i | 0 <= i < |v| :: r[i] == Lit(v[i])
  {
    seq(|v|, i requires 0 <= i < |v| => Lit(v[i]))
  }

  lemma {:induction false} SubstituteAppend(a: seq<Segment>, b: seq<Segment>, values: map<string, string>)
    ensures Substitute(a + b, values) == Substitute(a, values) + Substitute(b, values)
  {
    hide Substitute;
    if a == [] {
      SubstituteNone(values);
      assert a + b == b;
    } else {
      var head, rest := [a[0]], a[1..];
      SubstituteAppend(rest, b, values);
      SubstituteFirst(a[0], rest + b, values);
      SubstituteFirst(a[0], rest, values);
      assert a == head + rest && a + b == head + (rest + b);
    }
  }

  lemma SubstituteNone(values: map<string, string>)
    ensures Substitute([], values) == ""
  {
  }

  lemma SubstituteFirst(g: Segment, rest: seq<Segment>, values: map<string, string>)
    ensures Substitute([g] + rest, values) == Substitute([g], values) + Substitute(rest, values)
  {
    assert ([g] + rest)[1..] == rest && [g][1..] == [];
  }

  lemma {:induction false} SubstituteLiterals(v: string, values: map<string, string>)
    ensures Substitute(Literals(v), values) == v
  {
    if v != "" {
      assert Literals(v)[1..] == Literals(v[1..]);
      SubstituteLiterals(v[1..], values);
    }
  }

  /** A character where no match starts is kept. */
  lemma ReplaceSkips(c: char, s: string, p: string, v: string)
    requires p != "" && !(p <= [c] + s)
    ensures Replace([c] + s, p, v) == [c] + Replace(s, p, v)
  {
    var t := [c] + s;
    assert t[1..] == s;
    if |t| >= |p| { assert t[..|p|] != p; }
  }

  /** A match at the start is replaced. */
  lemma ReplaceFirst(p: string, s: string, v: string)
    requires p != ""
    ensures Replace(p + s, p, v) == v + Replace(s, p, v)
  {
    assert (p + s)[..|p|] == p && (p + s)[|p|..] == s;
  }

  lemma StartsOtherwise(c: char, t: string, name: string)
    requires c != '{'
    ensures !(Placeholder(name) <= [c] + t)
  {
    assert Placeholder(name)[0] == '{' && ([c] + t)[0] == c;
  }

  /** Text without `{` is passed over. */
  lemma {:induction false} ReplacePasses(w: string, s: string, name: string, v: string)
    requires '{' !in w
    ensures Replace(w + s, Placeholder(name), v) == w + Replace(s, Placeholder(name), v)
  {
    hide Replace;
    if w == "" {
      assert w + s == s;
    } else {
      var c, rest := w[0], w[1..];
      assert w == [c] + rest;
      ReplacePasses(rest, s, name, v);
      StartsOtherwise(c, rest + s, name);
      ReplaceSkips(c, rest + s, Placeholder(name), v);
      Regrouped([c], rest, s);
      Regrouped([c], rest, Replace(s, Placeholder(name), v));
    }
  }

  /** A placeholder that text starts with is the one that is found. */
  lemma PlaceholderFound(name: string, s: string)
    requires PlainName(name)
    ensures PlaceholderAt(Placeholder(name) + s) == |name|
  {
    var t := Placeholder(name) + s;
    NameLengthOf(name, "}" + s);
    assert t[1..] == name + ("}" + s) && t[|name| + 1] == '}';
  }

  lemma {:induction false} NameLengthOf(name: string, s: string)
    requires forall c | c in name :: IsName(c)
    requires s != "" ==> !IsName(s[0])
    ensures NameLength(name + s) == |name|
  {
    if name == "" {
      assert name + s == s;
    } else {
      assert (name + s)[0] == name[0] && (name + s)[1..] == name[1..] + s;
      NameLengthOf(name[1..], s);
    }
  }

  lemma StartsWith(p: string, t: string)
    requires p <= t
    ensures t == p + t[|p|..]
  {
  }

  /** Another placeholder is passed over. */
  lemma ReplaceOther(m: string, s: string, name: string, v: string)
    requires PlainName(m) && PlainName(name) && m != name
    ensures Replace(Placeholder(m) + s, Placeholder(name), v) == Placeholder(m) + Replace(s, Placeholder(name), v)
  {
    var p, w := Placeholder(name), m + "}";
    assert Placeholder(m) + s == ['{'] + (w + s) && Placeholder(m) == ['{'] + w;
    assert !(p <= Placeholder(m) + s) by {
      if p <= Placeholder(m) + s { OnePlaceholder(m, name, s); }
    }
    assert '{' !in w;
    hide Replace, Placeholder, PlainName;
    ReplacePasses(w, s, name, v);
    ReplaceSkips('{', w + s, p, v);
    assert ['{'] + (w + Replace(s, p, v)) == Placeholder(m) + Replace(s, p, v);
  }

  lemma OnePlaceholder(m: string, name: string, s: string)
    requires PlainName(m) && PlainName(name) && Placeholder(name) <= Placeholder(m) + s
    ensures m == name
  {
    var t := Placeholder(m) + s;
    PlaceholderFound(m, s);
    StartsWith(Placeholder(name), t);
    PlaceholderFound(name, t[|name| + 2..]);
    assert t[1..|m| + 1] == m && t[1..|name| + 1] == Placeholder(name)[1..|name| + 1] == name;
  }

  /** One `str.replace` fills one placeholder everywhere, if no literal braces look like one. */
  lemma {:induction false} ReplaceIsFill(segs: seq<Segment>, name: string, v: string)
    requires PlainHoles(segs) && PlainName(name) && !Trapped(segs, {})
    ensures Replace(Render(segs), Placeholder(name), v) == Render(Fill(segs, name, v))
  {
    if segs != [] {
      var rest, filled, p := Render(segs[1..]), Fill(segs[1..], name, v), Placeholder(name);
      assert segs[0] in segs;
      ReplaceIsFill(segs[1..], name, v);
      match segs[0]
      case Lit(c) =>
        LiteralStays(segs, name);
        SubstituteFirst(Lit(c), filled, map[]);
        hide Replace, Trapped, Placeholder;
        ReplaceSkips(c, rest, p, v);
      case Hole(m) =>
        if m == name {
          ReplaceFirst(p, rest, v);
          SubstituteAppend(Literals(v), filled, map[]);
          SubstituteLiterals(v, map[]);
        } else {
          ReplaceOther(m, rest, name, v);
          SubstituteFirst(Hole(m), filled, map[]);
        }
    }
  }

  /** No match starts at a literal that starts no trap. */
  lemma LiteralStays(segs: seq<Segment>, name: string)
    requires segs != [] && segs[0].Lit? && !TrapAt(segs, {}) && PlainName(name)
    ensures !(Placeholder(name) <= [segs[0].c] + Render(segs[1..]))
  {
    var t, p := [segs[0].c] + Render(segs[1..]), Placeholder(name);
    TrapSubstituted(segs, map[]);
    assert NameLike(map[]) == {};
    if p <= t {
      StartsWith(p, t);
      PlaceholderFound(name, t[|p|..]);
    }
  }

  /** Filling one hole first and the others afterwards fills all of them. */
  lemma {:induction false} SubstituteFill(segs: seq<Segment>, name: string, v: string, values: map<string, string>)
    requires name in values ==> values[name] == v
    ensures Substitute(Fill(segs, name, v), values) == Substitute(segs, values[name := v])
  {
    if segs != [] {
      var filled := Fill(segs[1..], name, v);
      SubstituteFill(segs[1..], name, v, values);
      if segs[0] == Hole(name) {
        SubstituteAppend(Literals(v), filled, values);
        SubstituteLiterals(v, values);
      } else {
        SubstituteFirst(segs[0], filled, values);
      }
    }
  }

  lemma {:induction false} FillHoles(segs: seq<Segment>, name: string, v: string)
    requires PlainHoles(segs)
    ensures PlainHoles(Fill(segs, name, v)) && forall n | n in Holes(Fill(segs, name, v)) :: n in Holes(segs)
  {
    if segs != [] {
      FillHoles(segs[1..], name, v);
      assert segs[0] in segs;
      HolesAppend(Literals(v), Fill(segs[1..], name, v));
      HolesAppend([segs[0]], Fill(segs[1..], name, v));
      LiteralsHaveNoHoles(v);
    }
  }

  lemma {:induction false} HolesAppend(a: seq<Segment>, b: seq<Segment>)
    ensures Holes(a + b) == Holes(a) + Holes(b)
  {
    if a == [] {
      assert a + b == b;
    } else {
      assert (a + b)[0] == a[0] && (a + b)[1..] == a[1..] + b;
      HolesAppend(a[1..], b);
    }
  }

  lemma {:induction false} LiteralsHaveNoHoles(v: string)
    ensures Holes(Literals(v)) == []
  {
    if v != "" {
      assert Literals(v)[1..] == Literals(v[1..]);
      LiteralsHaveNoHoles(v[1..]);
    }
  }

  /** The values of some names only. */
  function Only(values: map<string, string>, names: seq<string>): map<string, string> {
    map n | n in names && n in values :: values[n]
  }

  /** If the filled template holds no placeholder, no step on the way there ever meets a false one. */
  lemma {:induction false} ReplaceEachIsSubstitute(segs: seq<Segment>, names: seq<string>, values: map<string, string>)
    requires PlainHoles(segs) && EncodedValues(values) && (forall n | n in names :: PlainName(n) && n in values)
    requires (forall n | n in Holes(segs) :: n in values) && FindAll(Substitute(segs, values)) == []
    ensures ReplaceEach(Render(segs), names, values) == Substitute(segs, Only(values, names))
    decreases |names|
  {
    hide FindAll, PlainHoles, PlainName, EncodedValues, Substitute, Trapped;
    if names == [] {
      assert Only(values, names) == map[];
    } else {
      var name, rest := names[0], names[1..];
      var v := values[name];
      UnresolvedIff(segs, values);
      TrappedMore(segs, {}, NameLike(values));
      ReplaceIsFill(segs, name, v);
      FillHoles(segs, name, v);
      SubstituteFill(segs, name, v, values);
      assert values[name := v] == values;
      ReplaceEachIsSubstitute(Fill(segs, name, v), rest, values);
      SubstituteFill(segs, name, v, Only(values, rest));
      assert names == [name] + rest;
      assert Only(values, names) == Only(values, rest)[name := v];
    }
  }
}
