/** When a resolved URL tells apart the inputs it can come from. */
module UrlInjectivity {
  import opened PercentEncoding
  import opened Text
  import opened UrlTemplate
  import opened UrlSubstitution
  import opened UrlTheorems

  /** A character that no encoded value contains, as `/`. */
  predicate Delimiter(c: char) { !Unreserved(c) && c != '%' }

  /** No placeholder follows, or a delimiter comes first. */
  predicate Guarded(segs: seq<Segment>) {
    Holes(segs) == [] || (segs[0].Lit? && (Delimiter(segs[0].c) || Guarded(segs[1..])))
  }

  /** Between any two consecutive placeholders stands a delimiter. */
  predicate Separated(segs: seq<Segment>) {
    segs == [] || ((segs[0].Hole? ==> Guarded(segs[1..])) && Separated(segs[1..]))
  }

  predicate Period(w: string, d: nat)
    requires d <= |w|
  {
    forall i | 0 <= i < |w| - d :: w[i] == w[i + d]
  }

  /** A gap text that can move: values of up to `limit` characters can take over a period of it and give it back. */
  predicate Slips(w: string, limit: nat) {
    if w == "" then limit >= 2 else exists d | 1 <= d <= |w| && d < limit :: Period(w, d)
  }

  /** The gap, of which `w` is behind us, ends the template, holds a delimiter or cannot move. */
  predicate FirmGap(segs: seq<Segment>, w: string, limit: nat) {
    segs == [] ||
    match segs[0]
    case Lit(c) => Delimiter(c) || FirmGap(segs[1..], w + [c], limit)
    case Hole(_) => !Slips(w, limit)
  }

  /** No gap between two consecutive placeholders can move. */
  predicate Firm(segs: seq<Segment>, limit: nat) {
    segs == [] || ((segs[0].Hole? ==> FirmGap(segs[1..], "", limit)) && Firm(segs[1..], limit))
  }

  // ----------------------------------------------------- separated: injective

  lemma CutNotLater(a: string, b: string, s: string, t: string)
    requires a + s == b + t && Encoded(b) && (s != "" ==> Delimiter(s[0]))
    ensures |b| <= |a|
  {
    var u := a + s;
    forall i | 0 <= i < |b| ensures u[i] in b { assert u == b + t && u[i] == b[i]; }
    assert s != "" ==> u[|a|] == s[0];
  }

  /** An encoded value ends where the delimiter starts. */
  lemma CutAtDelimiter(a: string, b: string, s: string, t: string)
    requires a + s == b + t && Encoded(a) && Encoded(b)
    requires (s != "" ==> Delimiter(s[0])) && (t != "" ==> Delimiter(t[0]))
    ensures a == b && s == t
  {
    assert (a + s)[..|a|] == a && (b + t)[..|b|] == b && (a + s)[|a|..] == s && (b + t)[|b|..] == t;
    CutNotLater(a, b, s, t);
    CutNotLater(b, a, t, s);
  }

  lemma {:induction false} AgreeSubstitutes(segs: seq<Segment>, f: map<string, string>, g: map<string, string>)
    requires forall n | n in Holes(segs) :: n in f && n in g && f[n] == g[n]
    ensures Substitute(segs, f) == Substitute(segs, g)
  {
    if segs != [] { AgreeSubstitutes(segs[1..], f, g); }
  }

  /** Encoded text in front of a guarded rest can be told apart from it. */
  lemma {:induction false} CutAtGuard(
      a: string, b: string, segs: seq<Segment>, f: map<string, string>, g: map<string, string>)
    requires Guarded(segs) && Encoded(a) && Encoded(b) && a + Substitute(segs, f) == b + Substitute(segs, g)
    ensures a == b && Substitute(segs, f) == Substitute(segs, g)
    decreases |segs|
  {
    var s, t := Substitute(segs, f), Substitute(segs, g);
    if Holes(segs) == [] {
      AgreeSubstitutes(segs, f, g);
      assert a == (a + s)[..|a|] && b == (b + t)[..|b|];
    } else {
      var c, s', t' := segs[0].c, Substitute(segs[1..], f), Substitute(segs[1..], g);
      if Delimiter(c) {
        CutAtDelimiter(a, b, s, t);
      } else {
        assert (a + [c]) + s' == a + s && (b + [c]) + t' == b + t;
        CutAtGuard(a + [c], b + [c], segs[1..], f, g);
        assert a == (a + [c])[..|a|] && b == (b + [c])[..|b|];
      }
    }
  }

  lemma {:induction false} SubstituteInjective(segs: seq<Segment>, f: map<string, string>, g: map<string, string>)
    requires Separated(segs) && Substitute(segs, f) == Substitute(segs, g)
    requires forall n | n in Holes(segs) :: n in f && n in g && Encoded(f[n]) && Encoded(g[n])
    ensures forall n | n in Holes(segs) :: f[n] == g[n]
  {
    if segs != [] {
      var s, t := Substitute(segs[1..], f), Substitute(segs[1..], g);
      if segs[0].Lit? {
        assert ([segs[0].c] + s)[1..] == s && ([segs[0].c] + t)[1..] == t;
      } else {
        var n := segs[0].name;
        assert n in Holes(segs);
        CutAtGuard(f[n], g[n], segs[1..], f, g);
      }
      SubstituteInjective(segs[1..], f, g);
    }
  }

  // ------------------------------------------------ firm: injective up to a limit

  /** A gap that two values of different length share is a gap that can move. */
  lemma SharedGapSlips(u: string, v: string, w: string, s: string, t: string, limit: nat)
    requires Quote(u) + (w + s) == Quote(v) + (w + t) && |Quote(u)| < |Quote(v)|
    requires u != "" && |v| <= limit && forall c | c in w :: Unreserved(c)
    ensures Slips(w, limit)
  {
    var a, b := Quote(u), Quote(v);
    hide Quote, Unquote, Unreserved, Slips;
    assert (a + (w + s))[..|b|] == b;
    var z := b[|a|..];
    assert b == a + z && (a + (w + s))[|a|..] == w + s;
    assert w + s == z + (w + t) by { assert (b + (w + t))[|a|..] == z + (w + t); }
    UnquoteInFront(u, z);
    QuoteRoundTrip(v);
    MovedBy(w, z, s, t, limit);
  }

  /** The longer value takes over `z`, which starts the gap, and which the gap repeats. */
  lemma MovedBy(w: string, z: string, s: string, t: string, limit: nat)
    requires w + s == z + (w + t) && z != "" && |Unquote(z)| < limit && forall c | c in w :: Unreserved(c)
    ensures Slips(w, limit)
  {
    hide Unquote, Unreserved, Quote;
    var d := |z|;
    if d <= |w| {
      assert z == w[..d] by { assert (w + s)[..d] == z; }
      PlainText(z);
      forall i | 0 <= i < |w| - d ensures w[i] == w[i + d] {
        assert w[i + d] == (w + s)[i + d] == (z + (w + t))[i + d] == (w + t)[i];
      }
      assert Period(w, d);
    } else {
      var r := z[|w|..];
      assert z == w + r by { assert (w + s)[..|w|] == w && (z + (w + t))[..|w|] == z[..|w|]; }
      QuoteUnreserved(w);
      UnquoteInFront(w, r);
      UnquotePresent(r);
      assert Period(w, |w|);
    }
  }

  lemma PlainText(z: string)
    requires forall c | c in z :: Unreserved(c)
    ensures Unquote(z) == z
  {
    hide Quote, Unquote;
    QuoteUnreserved(z);
    QuoteRoundTrip(z);
  }

  /** The same whichever of the two is longer: in front of a gap that cannot move the values are equal. */
  lemma CutAtFirmGap(u: string, v: string, w: string, s: string, t: string, limit: nat)
    requires Quote(u) + (w + s) == Quote(v) + (w + t) && !Slips(w, limit)
    requires 0 < |u| <= limit && 0 < |v| <= limit && forall c | c in w :: Unreserved(c)
    ensures Quote(u) == Quote(v) && s == t
  {
    hide Quote, Slips, Unreserved;
    var a, b := Quote(u), Quote(v);
    if |a| < |b| { SharedGapSlips(u, v, w, s, t, limit); }
    if |b| < |a| { SharedGapSlips(v, u, w, t, s, limit); }
    assert (a + (w + s))[..|a|] == a && (b + (w + t))[..|b|] == b;
    assert (a + (w + s))[|a| + |w|..] == s && (b + (w + t))[|b| + |w|..] == t;
  }

  /** `values` holds the encoded form of `texts`, none empty or longer than the limit. */
  predicate Encodes(values: map<string, string>, texts: map<string, string>, limit: nat) {
    forall n | n in values :: n in texts && values[n] == Quote(texts[n]) && 0 < |texts[n]| <= limit
  }

  lemma EncodesEncoded(values: map<string, string>, texts: map<string, string>, limit: nat, n: string)
    requires Encodes(values, texts, limit) && n in values
    ensures Encoded(values[n])
  {
    QuoteAlphabet(Encode(texts[n]));
  }

  /** The value in front of a gap that ends the template, holds a delimiter or cannot move. */
  lemma CutAtGap(
      a: string, b: string, segs: seq<Segment>, f: map<string, string>, g: map<string, string>,
      u: string, v: string, limit: nat)
    requires FirmGap(segs, "", limit) && NoPercent(segs) && a == Quote(u) && b == Quote(v)
    requires 0 < |u| <= limit && 0 < |v| <= limit && a + Substitute(segs, f) == b + Substitute(segs, g)
    ensures a == b && Substitute(segs, f) == Substitute(segs, g)
  {
    hide Quote, Slips, Unreserved, FirmGap, Guarded, Substitute;
    if Guarded(segs) {
      assert Encoded(a) && Encoded(b) by {
        var m := map["u" := u, "v" := v];
        var q := map["u" := a, "v" := b];
        EncodesEncoded(q, m, limit, "u");
        EncodesEncoded(q, m, limit, "v");
      }
      CutAtGuard(a, b, segs, f, g);
    } else {
      var w, second, behind := UnguardedGap(segs);
      FirmGapOf(segs, "", w, second, behind, limit);
      assert "" + w == w;
      SubstituteAppend(Literals(w), [Hole(second)] + behind, f);
      SubstituteAppend(Literals(w), [Hole(second)] + behind, g);
      SubstituteLiterals(w, f);
      SubstituteLiterals(w, g);
      CutAtFirmGap(u, v, w, Substitute([Hole(second)] + behind, f), Substitute([Hole(second)] + behind, g), limit);
    }
  }

  /** What firmness says of a gap without a delimiter. */
  lemma {:induction false} FirmGapOf(
      segs: seq<Segment>, w: string, between: string, second: string, behind: seq<Segment>, limit: nat)
    requires segs == Literals(between) + ([Hole(second)] + behind) && forall c | c in between :: Unreserved(c)
    ensures FirmGap(segs, w, limit) <==> !Slips(w + between, limit)
    decreases |between|
  {
    hide Slips;
    if between == "" {
      assert segs[0] == Hole(second) && w + between == w;
    } else {
      var c, rest := between[0], between[1..];
      assert segs[0] == Lit(c) && segs[1..] == Literals(rest) + ([Hole(second)] + behind);
      FirmGapOf(segs[1..], w + [c], rest, second, behind, limit);
      assert (w + [c]) + rest == w + between;
      assert c in between;
    }
  }

  lemma {:induction false} FirmInjective(
      segs: seq<Segment>, f: map<string, string>, g: map<string, string>, texts: map<string, string>,
      others: map<string, string>, limit: nat)
    requires Firm(segs, limit) && NoPercent(segs) && Substitute(segs, f) == Substitute(segs, g)
    requires Encodes(f, texts, limit) && Encodes(g, others, limit)
    requires forall n | n in Holes(segs) :: n in f && n in g
    ensures forall n | n in Holes(segs) :: f[n] == g[n]
  {
    if segs != [] {
      var s, t := Substitute(segs[1..], f), Substitute(segs[1..], g);
      hide Quote, FirmGap, Unreserved;
      if segs[0].Lit? {
        assert ([segs[0].c] + s)[1..] == s && ([segs[0].c] + t)[1..] == t;
      } else {
        var n := segs[0].name;
        assert n in Holes(segs);
        CutAtGap(f[n], g[n], segs[1..], f, g, texts[n], others[n], limit);
      }
      FirmInjective(segs[1..], f, g, texts, others, limit);
    }
  }

  // ------------------------------------------------------------------ the inputs

  /** The input can be used and closes no trap, so the URL is the simultaneous substitution. */
  predicate Clear(template: string, input: Input) {
    Usable(template, input) && !Trapped(Segments(template), Transparent(template, input))
  }

  lemma ClearIsFilled(template: string, input: Input, valid: string -> bool)
    requires Clear(template, input)
    ensures Simultaneous(template, input, valid)
  {
    SimultaneousIff(template, input, valid);
  }

  lemma SameUrl(template: string, input: Input, other: Input, valid: string -> bool)
    requires Clear(template, input) && Clear(template, other)
    requires Resolution(template, input, valid).Ok? && Resolution(template, other, valid).Ok?
    requires Resolution(template, input, valid).value.url == Resolution(template, other, valid).value.url
    ensures Filled(template, input) == Filled(template, other)
  {
    hide Resolution, Filled, Usable, FindAll, Trapped, Transparent;
    ClearIsFilled(template, input, valid);
    ClearIsFilled(template, other, valid);
  }

  predicate SameTexts(template: string, input: Input, other: Input) {
    forall n | n in FindAll(template) :: n in input.safe && n in other.safe && Trim(n, input) == Trim(n, other)
  }

  function TextsOf(template: string, input: Input): map<string, string>
    requires Usable(template, input)
  {
    map n | n in FindAll(template) :: assert Problem(n, input).None?; Trim(n, input)
  }

  lemma TextsEncoded(template: string, input: Input)
    requires Usable(template, input)
    ensures Encodes(ValuesOf(FindAll(template), input), TextsOf(template, input), input.limit)
  {
    hide FindAll, Strip, Quote;
    forall n | n in FindAll(template) ensures 0 < |Trim(n, input)| <= input.limit { assert Problem(n, input).None?; }
  }

  lemma SameValues(template: string, input: Input, other: Input)
    requires Usable(template, input) && Usable(template, other)
    requires forall n | n in FindAll(template) ::
      ValuesOf(FindAll(template), input)[n] == ValuesOf(FindAll(template), other)[n]
    ensures SameTexts(template, input, other)
  {
    hide FindAll, Value, Trim, Unquote, Encoded;
    var names := FindAll(template);
    forall n | n in names ensures n in input.safe && n in other.safe && Trim(n, input) == Trim(n, other) {
      ValueEncodes(n, input);
      ValueEncodes(n, other);
      assert ValuesOf(names, input)[n] == ValuesOf(names, other)[n];
    }
  }

  /** If the placeholders are separated, the URL determines the trimmed text of every field it was made from. */
  lemma UrlDeterminesValues(template: string, input: Input, other: Input, valid: string -> bool)
    requires Separated(Segments(template)) && Clear(template, input) && Clear(template, other)
    requires Resolution(template, input, valid).Ok? && Resolution(template, other, valid).Ok?
    requires Resolution(template, input, valid).value.url == Resolution(template, other, valid).value.url
    ensures SameTexts(template, input, other)
  {
    SameUrl(template, input, other, valid);
    hide Resolution, Segments, Separated, FindAll, Value, Encoded, EncodedValues, SameTexts;
    SegmentsOf(template);
    ValuesAreEncoded(template, input);
    ValuesAreEncoded(template, other);
    EveryEncoded(ValuesOf(FindAll(template), input));
    EveryEncoded(ValuesOf(FindAll(template), other));
    SubstituteInjective(Segments(template), ValuesOf(FindAll(template), input), ValuesOf(FindAll(template), other));
    SameValues(template, input, other);
  }

  lemma EveryEncoded(values: map<string, string>)
    requires EncodedValues(values)
    ensures forall n | n in values :: Encoded(values[n])
  {
  }

  /** The same if no gap can move within the length limit of the inputs. */
  lemma UrlDeterminesWithin(template: string, input: Input, other: Input, valid: string -> bool)
    requires Firm(Segments(template), input.limit) && NoPercent(Segments(template)) && input.limit == other.limit
    requires Clear(template, input) && Clear(template, other)
    requires Resolution(template, input, valid).Ok? && Resolution(template, other, valid).Ok?
    requires Resolution(template, input, valid).value.url == Resolution(template, other, valid).value.url
    ensures SameTexts(template, input, other)
  {
    SameUrl(template, input, other, valid);
    hide Resolution, Segments, Firm, FindAll, Value, TextsOf, Encodes, SameTexts, NoPercent;
    SegmentsOf(template);
    TextsEncoded(template, input);
    TextsEncoded(template, other);
    FirmInjective(Segments(template), ValuesOf(FindAll(template), input), ValuesOf(FindAll(template), other),
      TextsOf(template, input), TextsOf(template, other), input.limit);
    SameValues(template, input, other);
  }

  // ------------------------------------------------------ not firm: ambiguous

  /** A run of unreserved characters between two placeholders. */
  datatype Gap = Gap(before: seq<Segment>, first: string, between: string, second: string, behind: seq<Segment>)

  function Whole(gap: Gap): seq<Segment> {
    gap.before + ([Hole(gap.first)] + (Literals(gap.between) + ([Hole(gap.second)] + gap.behind)))
  }

  predicate NoPercent(segs: seq<Segment>) { Lit('%') !in segs }

  predicate Distinct(names: seq<string>) {
    forall i, j | 0 <= i < j < |names| :: names[i] != names[j]
  }

  lemma {:induction false} UnguardedGap(segs: seq<Segment>)
      returns (between: string, second: string, behind: seq<Segment>)
    requires !Guarded(segs) && NoPercent(segs)
    ensures segs == Literals(between) + ([Hole(second)] + behind) && forall c | c in between :: Unreserved(c)
  {
    assert segs != [];
    if segs[0].Hole? {
      between, second, behind := "", segs[0].name, segs[1..];
    } else {
      between, second, behind := UnguardedGap(segs[1..]);
      assert segs[0] in segs;
      assert Literals([segs[0].c] + between) == [segs[0]] + Literals(between);
      between := [segs[0].c] + between;
    }
  }

  /** A guarded gap is firm. */
  lemma {:induction false} GuardedIsFirm(segs: seq<Segment>, w: string, limit: nat)
    requires Guarded(segs)
    ensures FirmGap(segs, w, limit)
    decreases |segs|
  {
    hide Slips;
    if segs != [] && segs[0].Lit? && !Delimiter(segs[0].c) { GuardedIsFirm(segs[1..], w + [segs[0].c], limit); }
  }

  /** A template that is not firm has a gap that can move. */
  lemma {:induction false} MovingGap(segs: seq<Segment>, limit: nat) returns (gap: Gap)
    requires !Firm(segs, limit) && NoPercent(segs)
    ensures Whole(gap) == segs && (forall c | c in gap.between :: Unreserved(c)) && Slips(gap.between, limit)
  {
    hide Slips, FirmGap, Guarded, Unreserved;
    if segs[0].Hole? && !FirmGap(segs[1..], "", limit) {
      if Guarded(segs[1..]) { GuardedIsFirm(segs[1..], "", limit); }
      var between, second, behind := UnguardedGap(segs[1..]);
      FirmGapOf(segs[1..], "", between, second, behind, limit);
      assert "" + between == between;
      gap := Gap([], segs[0].name, between, second, behind);
    } else {
      gap := MovingGap(segs[1..], limit);
      assert segs == [segs[0]] + Whole(gap);
      gap := gap.(before := [segs[0]] + gap.before);
    }
  }

  /** What the first value takes over from a gap that can move, and what the second one then lacks. */
  lemma Conjugate(w: string, limit: nat) returns (head: string, tail: string)
    requires Slips(w, limit) && forall c | c in w :: Unreserved(c)
    ensures head + w == w + tail && 0 < |head| == |tail| < limit
    ensures (forall c | c in head :: Unreserved(c)) && forall c | c in tail :: Unreserved(c)
  {
    if w == "" {
      head, tail := "-", "-";
    } else {
      var d :| 1 <= d <= |w| && d < limit && Period(w, d);
      head, tail := w[..d], w[|w| - d..];
      forall i | 0 <= i < |w| + d ensures (head + w)[i] == (w + tail)[i] {
        if d <= i < |w| { assert (head + w)[i] == w[i - d] == w[(i - d) + d]; }
      }
    }
  }

  /** All fields `-`, but one of them longer. */
  function Stretched(names: seq<string>, longer: string, text: string): map<string, string> {
    map n | n in names :: if n == longer then text else "-"
  }

  lemma WholeHoles(gap: Gap)
    ensures Holes(Whole(gap)) == Holes(gap.before) + [gap.first] + [gap.second] + Holes(gap.behind)
  {
    var tail := [Hole(gap.second)] + gap.behind;
    HolesAppend(gap.before, [Hole(gap.first)] + (Literals(gap.between) + tail));
    HolesAppend(Literals(gap.between), tail);
    LiteralsHaveNoHoles(gap.between);
    assert tail[1..] == gap.behind;
    assert ([Hole(gap.first)] + (Literals(gap.between) + tail))[1..] == Literals(gap.between) + tail;
    assert Holes(tail) == [gap.second] + Holes(gap.behind);
  }

  lemma WholeSubstitute(gap: Gap, values: map<string, string>)
    requires gap.first in values && gap.second in values
    ensures Substitute(Whole(gap), values)
      == Substitute(gap.before, values) + (values[gap.first] + gap.between + values[gap.second])
         + Substitute(gap.behind, values)
  {
    hide Substitute;
    var tail := [Hole(gap.second)] + gap.behind;
    SubstituteAppend(gap.before, [Hole(gap.first)] + (Literals(gap.between) + tail), values);
    SubstituteFirst(Hole(gap.first), Literals(gap.between) + tail, values);
    SubstituteAppend(Literals(gap.between), tail, values);
    SubstituteLiterals(gap.between, values);
    SubstituteFirst(Hole(gap.second), gap.behind, values);
    HoleAlone(gap.first, values);
    HoleAlone(gap.second, values);
    Regroup(Substitute(gap.before, values), values[gap.first], gap.between, values[gap.second],
      Substitute(gap.behind, values));
  }

  lemma Regroup(p: string, a: string, w: string, b: string, q: string)
    ensures p + (a + (w + (b + q))) == p + (a + w + b) + q
  {
  }

  lemma HoleAlone(name: string, values: map<string, string>)
    requires name in values
    ensures Substitute([Hole(name)], values) == values[name]
  {
    assert [Hole(name)][1..] == [];
  }

  lemma GapNames(gap: Gap, names: seq<string>)
    requires names == Holes(Whole(gap)) && Distinct(names)
    ensures gap.first != gap.second && gap.first in names && gap.second in names
    ensures forall n | n in Holes(gap.before) || n in Holes(gap.behind) ::
      n in names && n != gap.first && n != gap.second
  {
    hide Whole, Holes;
    WholeHoles(gap);
    var k := |Holes(gap.before)|;
    assert names[k] == gap.first && names[k + 1] == gap.second;
    forall n | n in Holes(gap.before) ensures n in names && n != gap.first && n != gap.second {
      var i :| 0 <= i < k && Holes(gap.before)[i] == n;
      assert names[i] == n;
    }
    forall n | n in Holes(gap.behind) ensures n in names && n != gap.first && n != gap.second {
      var i :| 0 <= i < |Holes(gap.behind)| && Holes(gap.behind)[i] == n;
      assert names[k + 2 + i] == n;
    }
  }

  /** The gap moves: stretching the first value by its head or the second one by its tail gives the same text. */
  lemma GapIsAmbiguous(gap: Gap, names: seq<string>, head: string, tail: string)
    requires names == Holes(Whole(gap)) && Distinct(names) && head + gap.between == gap.between + tail
    ensures gap.first != gap.second && gap.first in names && gap.second in names
    ensures Substitute(Whole(gap), Stretched(names, gap.first, "-" + head))
      == Substitute(Whole(gap), Stretched(names, gap.second, tail + "-"))
  {
    hide Whole, Holes, Substitute, Distinct;
    var f, g := Stretched(names, gap.first, "-" + head), Stretched(names, gap.second, tail + "-");
    GapNames(gap, names);
    AgreeSubstitutes(gap.before, f, g);
    AgreeSubstitutes(gap.behind, f, g);
    WholeSubstitute(gap, f);
    WholeSubstitute(gap, g);
    Moves(gap.between, head, tail);
  }

  lemma Moves(w: string, head: string, tail: string)
    requires head + w == w + tail
    ensures ("-" + head) + w + "-" == "-" + w + (tail + "-")
  {
    assert ("-" + head) + w + "-" == "-" + (head + w) + "-";
    assert "-" + w + (tail + "-") == "-" + (w + tail) + "-";
  }

  function StretchedInput(template: string, longer: string, text: string, limit: nat): Input {
    Strings(Stretched(FindAll(template), longer, text), FindAll(template), limit)
  }

  lemma StretchedValues(template: string, longer: string, text: string, limit: nat)
    requires Verbatim(text, limit) && limit >= 1
    ensures Usable(template, StretchedInput(template, longer, text, limit))
    ensures
      var names, input := FindAll(template), StretchedInput(template, longer, text, limit);
      && ValuesOf(names, input) == Stretched(names, longer, text)
      && forall n | n in names :: n in input.safe && Trim(n, input) == Stretched(names, longer, text)[n]
  {
    hide FindAll, Value, Problem, Trim;
    var names, fields := FindAll(template), Stretched(FindAll(template), longer, text);
    forall n | n in names ensures Verbatim(fields[n], limit) {}
    hide Stretched, Unreserved;
    StringsAreUsable(names, fields, names, limit);
    hide Verbatim;
  }

  lemma DashesAreNotNames(names: seq<string>, longer: string, text: string)
    requires '-' in text
    ensures NameLike(Stretched(names, longer, text)) == {}
  {
    assert !IsName('-');
    forall n | n in names ensures '-' in Stretched(names, longer, text)[n] {}
  }

  /** Such an input can be used and, as every value holds a `-`, closes no trap. */
  lemma StretchedIsClear(template: string, longer: string, text: string, limit: nat)
    requires Verbatim(text, limit) && '-' in text && limit >= 1
    ensures Clear(template, StretchedInput(template, longer, text, limit))
  {
    hide FindAll, Segments, Trapped, Stretched, Verbatim, NameLike, StretchedInput;
    StretchedValues(template, longer, text, limit);
    DashesAreNotNames(FindAll(template), longer, text);
    SegmentsUntrapped(template);
  }

  lemma SameFilling(template: string, input: Input, other: Input, valid: string -> bool)
    requires Clear(template, input) && Clear(template, other) && Filled(template, input) == Filled(template, other)
    ensures Resolution(template, input, valid) == Resolution(template, other, valid)
  {
    hide Resolution, Filled, Trapped, Usable, Transparent, FindAll, Segments;
    ClearIsFilled(template, input, valid);
    ClearIsFilled(template, other, valid);
  }

  /**
   * Two placeholders with a gap between them that can move: one URL comes from two inputs that differ in both
   * fields.
   */
  lemma MovingGapIsAmbiguous(template: string, limit: nat, valid: string -> bool)
      returns (input: Input, other: Input, name: string)
    requires !Firm(Segments(template), limit)
    requires NoPercent(Segments(template)) && Distinct(FindAll(template))
    ensures input.limit == limit == other.limit && Clear(template, input) && Clear(template, other)
    ensures Resolution(template, input, valid) == Resolution(template, other, valid)
    ensures name in FindAll(template) && name in input.safe && name in other.safe
      && Trim(name, input) != Trim(name, other)
  {
    hide Firm, Clear, Segments, FindAll, Trim, Resolution, Value, Slips, Whole, StretchedInput, Verbatim, Unreserved;
    SegmentsOf(template);
    var gap := MovingGap(Segments(template), limit);
    var head, tail := Conjugate(gap.between, limit);
    GapIsAmbiguous(gap, FindAll(template), head, tail);
    name := gap.first;
    var a, b := "-" + head, tail + "-";
    WithDash(head, tail, limit);
    StretchedValues(template, gap.first, a, limit);
    StretchedValues(template, gap.second, b, limit);
    StretchedIsClear(template, gap.first, a, limit);
    StretchedIsClear(template, gap.second, b, limit);
    input, other := StretchedInput(template, gap.first, a, limit), StretchedInput(template, gap.second, b, limit);
    LimitOf(template, gap.first, a, limit);
    LimitOf(template, gap.second, b, limit);
    SameFilling(template, input, other, valid);
  }

  lemma WithDash(head: string, tail: string, limit: nat)
    requires 0 < |head| == |tail| < limit
    requires (forall c | c in head :: Unreserved(c)) && forall c | c in tail :: Unreserved(c)
    ensures Verbatim("-" + head, limit) && Verbatim(tail + "-", limit) && '-' in "-" + head && '-' in tail + "-"
    ensures "-" + head != "-"
  {
  }

  lemma LimitOf(template: string, longer: string, text: string, limit: nat)
    ensures StretchedInput(template, longer, text, limit).limit == limit
  {
  }

  // ------------------------------------------------------------------- both ways

  /** If both inputs resolve to the same URL, all fields used have the same trimmed text. */
  predicate Tells(template: string, input: Input, other: Input, valid: string -> bool) {
    var r, q := Resolution(template, input, valid), Resolution(template, other, valid);
    r.Ok? && q.Ok? && r.value.url == q.value.url ==> SameTexts(template, input, other)
  }

  /** The URL tells apart every two inputs that close no trap, for the given length limit of values. */
  ghost predicate Determines(template: string, limit: nat) {
    forall input: Input, other: Input, valid: string -> bool |
      input.limit == limit == other.limit && Clear(template, input) && Clear(template, other) ::
      Tells(template, input, other, valid)
  }

  /**
   * For templates that name each placeholder once and have no literal `%`, and for every limit: the URL tells the
   * inputs apart exactly when no gap between two placeholders can move.
   */
  lemma UrlDeterminesIff(template: string, limit: nat)
    requires Distinct(FindAll(template)) && NoPercent(Segments(template))
    ensures Determines(template, limit) <==> Firm(Segments(template), limit)
  {
    hide Firm, Segments, FindAll, Resolution, Distinct, NoPercent, Clear, Tells, Trim;
    if Firm(Segments(template), limit) {
      forall input: Input, other: Input, valid: string -> bool
        | input.limit == limit == other.limit && Clear(template, input) && Clear(template, other)
        ensures Tells(template, input, other, valid)
      {
        FirmTells(template, input, other, valid);
      }
    } else {
      var all: string -> bool := _ => true;
      var input, other, name := MovingGapIsAmbiguous(template, limit, all);
      ClearResolves(template, input);
      DoesNotTell(template, input, other, all, name);
    }
  }

  lemma DoesNotTell(template: string, input: Input, other: Input, valid: string -> bool, name: string)
    requires Resolution(template, input, valid).Ok?
    requires Resolution(template, input, valid) == Resolution(template, other, valid)
    requires name in FindAll(template) && name in input.safe && name in other.safe
    requires Trim(name, input) != Trim(name, other)
    ensures !Tells(template, input, other, valid)
  {
    hide Resolution, FindAll, SameTexts, Trim;
    Differ(template, input, other, name);
  }

  lemma Differ(template: string, input: Input, other: Input, name: string)
    requires name in FindAll(template) && name in input.safe && name in other.safe
    requires Trim(name, input) != Trim(name, other)
    ensures !SameTexts(template, input, other)
  {
    hide FindAll, Trim;
  }

  lemma FirmTells(template: string, input: Input, other: Input, valid: string -> bool)
    requires Firm(Segments(template), input.limit) && NoPercent(Segments(template)) && input.limit == other.limit
    requires Clear(template, input) && Clear(template, other)
    ensures Tells(template, input, other, valid)
  {
    hide Firm, Segments, FindAll, Resolution, NoPercent, Clear, SameTexts;
    var r, q := Resolution(template, input, valid), Resolution(template, other, valid);
    if r.Ok? && q.Ok? && r.value.url == q.value.url { UrlDeterminesWithin(template, input, other, valid); }
  }

  lemma ClearResolves(template: string, input: Input)
    requires Clear(template, input)
    ensures Resolution(template, input, _ => true).Ok?
  {
    hide Resolution, Trapped, Usable, Transparent, Segments, FindAll;
    var all: string -> bool := _ => true;
    ClearIsFilled(template, input, all);
  }

  // ------------------------------------------------------- limits that do not matter

  lemma {:induction false} FirmGapIffGuarded(segs: seq<Segment>, w: string, limit: nat)
    requires |w| + |segs| < limit && NoPercent(segs)
    ensures FirmGap(segs, w, limit) <==> Guarded(segs)
    decreases |segs|
  {
    if segs != [] {
      assert segs[0] in segs;
      if segs[0].Lit? {
        FirmGapIffGuarded(segs[1..], w + [segs[0].c], limit);
      } else {
        assert w != "" ==> Period(w, |w|);
      }
    }
  }

  lemma {:induction false} FirmIffSeparated(segs: seq<Segment>, limit: nat)
    requires |segs| <= limit && NoPercent(segs)
    ensures Firm(segs, limit) <==> Separated(segs)
  {
    hide FirmGap, Guarded;
    if segs != [] {
      FirmGapIffGuarded(segs[1..], "", limit);
      FirmIffSeparated(segs[1..], limit);
    }
  }

  lemma {:induction false} SegmentsLength(s: string)
    ensures |Segments(s)| <= |s|
  {
    if s != "" {
      var n := PlaceholderAt(s);
      hide PlaceholderAt;
      if n > 0 { SegmentsLength(s[n + 2..]); } else { SegmentsLength(s[1..]); }
    }
  }

  /** For a template no longer than the limit: exactly when a delimiter stands between any two placeholders. */
  lemma ShortUrlDeterminesIff(template: string, limit: nat)
    requires |template| <= limit && Distinct(FindAll(template)) && NoPercent(Segments(template))
    ensures Determines(template, limit) <==> Separated(Segments(template))
  {
    hide Segments, FindAll, Distinct, NoPercent, Firm, Separated, Determines;
    SegmentsLength(template);
    FirmIffSeparated(Segments(template), limit);
    UrlDeterminesIff(template, limit);
  }

  // --------------------------------------------------- traps that confuse inputs

  /** `/{b}/{c}`, as it follows the trap of the example. */
  function Rest(): string { ['/'] + (Placeholder("b") + (['/'] + (Placeholder("c") + ""))) }

  function RestSegments(): seq<Segment> { [Lit('/'), Hole("b"), Lit('/'), Hole("c")] }

  /** The field `a` has the text `x`, the other two `v`. */
  function WithA(x: string): map<string, string> { map["a" := x, "b" := "v", "c" := "v"] }

  /**
   * Where a trap closes, separated placeholders do not help: `{{a}}/{b}/{c}` resolves to `v/v/v` for `a` being
   * `b` and for `a` being `c`, when the two other fields are `v`.
   */
  lemma TrapsConfuseInputs(x: string, valid: string -> bool)
    requires x in {"b", "c"}
    ensures
      var template, input := "{" + Placeholder("a") + "}" + Rest(), Strings(WithA(x), ["a", "b", "c"], 1);
      && Separated(Segments(template)) && Usable(template, input) && Trim("a", input) == x
      && Resolution(template, input, valid)
         == if valid("v/v/v") then Ok(Target("v/v/v", {"a", "b", "c"})) else Err(UrlRejected("v/v/v"))
  {
    var template := "{" + Placeholder("a") + "}" + Rest();
    assert template == ['{'] + (Placeholder("a") + (['}'] + Rest()));
    hide *;
    TrapSegments();
    SegmentsOf(template);
    ConfusedReplacements(x);
    ConfusedInput(template, x, valid);
  }

  lemma RestIsParsed()
    ensures Segments(Rest()) == RestSegments()
  {
    hide Segments;
    LiteralFirst('/', Placeholder("b") + (['/'] + (Placeholder("c") + "")));
    HoleFirst("b", ['/'] + (Placeholder("c") + ""));
    LiteralFirst('/', Placeholder("c") + "");
    HoleFirst("c", "");
    NoSegments();
  }

  function TrapAndRest(): seq<Segment> { [Lit('{'), Hole("a"), Lit('}')] + RestSegments() }

  lemma TrapSegments()
    ensures Segments(['{'] + (Placeholder("a") + (['}'] + Rest()))) == TrapAndRest()
    ensures Separated(TrapAndRest()) && Holes(TrapAndRest()) == ["a", "b", "c"]
  {
    RestIsParsed();
    TrapIsSeparated();
    hide Segments, Separated, Rest, RestSegments, Holes;
    LiteralFirst('{', Placeholder("a") + (['}'] + Rest()));
    HoleFirst("a", ['}'] + Rest());
    LiteralFirst('}', Rest());
    assert [Lit('{')] + ([Hole("a")] + ([Lit('}')] + RestSegments())) == TrapAndRest();
  }

  lemma TrapIsSeparated()
    ensures Separated(TrapAndRest()) && Holes(TrapAndRest()) == ["a", "b", "c"]
  {
    var s := TrapAndRest();
    assert Holes(s[7..]) == [] && Holes(s[6..]) == ["c"] by { assert s[6..] == [Hole("c")]; }
    assert s[5..][1..] == s[6..] && s[4..][1..] == s[5..] && s[3..][1..] == s[4..];
    assert s[2..][1..] == s[3..] && s[1..][1..] == s[2..] && s[6..][1..] == s[7..];
    assert Holes(s[5..]) == ["c"] && Holes(s[4..]) == ["b", "c"] && Holes(s[3..]) == ["b", "c"];
    assert Holes(s[2..]) == ["b", "c"] && Holes(s[1..]) == ["a", "b", "c"];
    assert Delimiter('/') && Delimiter('}');
    assert Separated(s[6..]) && Separated(s[5..]) && Separated(s[4..]) && Separated(s[3..]);
    assert Separated(s[2..]) && Separated(s[1..]);
  }

  /** After the first replacement the trap is a placeholder, and the other two replacements fill it too. */
  lemma ConfusedReplacements(x: string)
    requires x in {"b", "c"}
    ensures ReplaceEach(['{'] + (Placeholder("a") + (['}'] + Rest())), ["a", "b", "c"], WithA(x)) == "v/v/v"
  {
    var t, once := ['{'] + (Placeholder("a") + (['}'] + Rest())), Placeholder(x) + Rest();
    assert Replace(t, Placeholder("a"), x) == once by { FirstReplacement(x); }
    assert ["a", "b", "c"][1..] == ["b", "c"];
    OtherReplacements(x);
    hide Replace, Rest, Placeholder;
  }

  lemma FirstReplacement(x: string)
    requires x in {"b", "c"}
    ensures Replace(['{'] + (Placeholder("a") + (['}'] + Rest())), Placeholder("a"), x) == Placeholder(x) + Rest()
  {
    hide Replace, Rest;
    var p, tail := Placeholder("a"), ['}'] + Rest();
    assert !(p <= ['{'] + (p + tail)) by { assert (['{'] + (p + tail))[1] == '{' && p[1] == 'a'; }
    ReplaceSkips('{', p + tail, p, x);
    ReplaceFirst(p, tail, x);
    ReplacePasses("}", Rest(), "a", x);
    RestIsKept(x);
    assert ['{'] + (x + (['}'] + Rest())) == Placeholder(x) + Rest();
  }

  lemma RestIsKept(v: string)
    ensures Replace(Rest(), Placeholder("a"), v) == Rest()
  {
    hide Replace;
    assert PlainName("a") && PlainName("b") && PlainName("c");
    hide Placeholder;
    ReplacePasses("/", Placeholder("b") + (['/'] + (Placeholder("c") + "")), "a", v);
    ReplaceOther("b", ['/'] + (Placeholder("c") + ""), "a", v);
    ReplacePasses("/", Placeholder("c") + "", "a", v);
    ReplaceOther("c", "", "a", v);
    NothingToReplace(v);
  }

  lemma NothingToReplace(v: string)
    ensures Replace("", Placeholder("a"), v) == ""
  {
  }

  lemma OtherReplacements(x: string)
    requires x in {"b", "c"}
    ensures ReplaceEach(Placeholder(x) + Rest(), ["b", "c"], WithA(x)) == "v/v/v"
  {
    hide Segments, Substitute, FindAll, ReplaceEach, Rest, RestSegments, Placeholder, Encoded, Holes, WithA;
    var t, values := Placeholder(x) + Rest(), WithA(x);
    TextsOfA(x);
    RestIsParsed();
    HoleFirst(x, Rest());
    SegmentsOf(t);
    Fills(x, values);
    Fills(x, Only(values, ["b", "c"]));
    NoneFound();
    ReplaceEachIsSubstitute(Segments(t), ["b", "c"], values);
  }

  lemma TextsOfA(x: string)
    requires x in {"b", "c"}
    ensures WithA(x).Keys == {"a", "b", "c"} && WithA(x)["b"] == "v" == WithA(x)["c"] && EncodedValues(WithA(x))
    ensures PlainName(x) && PlainName("b") && PlainName("c")
  {
    Unreserveds();
    hide Encoded;
  }

  lemma Unreserveds()
    ensures Encoded("b") && Encoded("c") && Encoded("v")
  {
  }

  lemma NoneFound()
    ensures FindAll("v/v/v") == []
  {
    FindAllThrough("v/v/v", "");
    assert "v/v/v" + "" == "v/v/v";
  }

  lemma RestHoles()
    ensures Holes(RestSegments()) == ["b", "c"]
  {
    var s := RestSegments();
    assert s[3..] == [Hole("c")] && s[3..][1..] == [] && s[2..][1..] == s[3..] && s[1..][1..] == s[2..];
    assert Holes(s[3..]) == ["c"];
    assert Holes(s[2..]) == ["c"];
    assert s[1..][0] == Hole("b") && Holes(s[1..]) == ["b"] + ["c"];
  }

  lemma Fills(x: string, values: map<string, string>)
    requires x in {"b", "c"} && "b" in values && "c" in values && values["b"] == "v" && values["c"] == "v"
    ensures Substitute([Hole(x)] + RestSegments(), values) == "v/v/v"
    ensures forall n | n in Holes([Hole(x)] + RestSegments()) :: n in {"b", "c"}
  {
    var s := [Hole(x)] + RestSegments();
    assert s == [Hole(x), Lit('/'), Hole("b"), Lit('/'), Hole("c")];
    assert s[4..] == [Hole("c")] && s[4..][1..] == [] && s[3..][1..] == s[4..] && s[2..][1..] == s[3..];
    assert s[1..][1..] == s[2..];
    RestHoles();
    hide Holes, RestSegments;
    assert Substitute(s[4..], values) == "v";
    assert s[3..][0] == Lit('/') && Substitute(s[3..], values) == "/v";
    assert s[2..][0] == Hole("b") && Substitute(s[2..], values) == "v/v";
    assert s[1..][0] == Lit('/') && Substitute(s[1..], values) == "/v/v";
    assert s[0] == Hole(x) && s[1..] == RestSegments();
  }

  lemma ConfusedInput(template: string, x: string, valid: string -> bool)
    requires x in {"b", "c"} && FindAll(template) == ["a", "b", "c"]
    requires ReplaceEach(template, ["a", "b", "c"], WithA(x)) == "v/v/v"
    ensures
      var input := Strings(WithA(x), ["a", "b", "c"], 1);
      && Usable(template, input) && Trim("a", input) == x
      && Resolution(template, input, valid)
         == if valid("v/v/v") then Ok(Target("v/v/v", {"a", "b", "c"})) else Err(UrlRejected("v/v/v"))
  {
    hide ReplaceEach, Substitute, Segments, Value, Problem, Strings, Trim, FindAll;
    var names, input := ["a", "b", "c"], Strings(WithA(x), ["a", "b", "c"], 1);
    assert Verbatim("b", 1) && Verbatim("c", 1) && Verbatim("v", 1);
    StringsAreUsable(names, WithA(x), names, 1);
    assert ValuesOf(names, input) == WithA(x);
    NoneFound();
    assert (set n | n in names) == {"a", "b", "c"};
  }
}
