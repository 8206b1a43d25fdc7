/** What `_resolve_url_template` promises: simultaneous substitution, and a URL that tells its input apart. */
module UrlTheorems {
  import opened Json
  import opened PercentEncoding
  import opened Text
  import opened UrlTemplate
  import opened UrlSubstitution

  // ------------------------------------------------- simultaneous substitution

  predicate Usable(template: string, input: Input) { FirstProblem(FindAll(template), input).None? }

  function Filled(template: string, input: Input): string
    requires Usable(template, input)
  {
    Substitute(Segments(template), ValuesOf(FindAll(template), input))
  }

  /** The repeated replacement ends with the simultaneous substitution, and nothing is left unresolved. */
  predicate Simultaneous(template: string, input: Input, valid: string -> bool)
    requires Usable(template, input)
  {
    var url := Filled(template, input);
    Resolution(template, input, valid) ==
      if valid(url) then Ok(Target(url, set n | n in FindAll(template))) else Err(UrlRejected(url))
  }

  /** The placeholders whose encoded values could pass for a name. */
  function Transparent(template: string, input: Input): set<string>
    requires Usable(template, input)
  {
    NameLike(ValuesOf(FindAll(template), input))
  }

  lemma ValuesAreEncoded(template: string, input: Input)
    requires Usable(template, input)
    ensures EncodedValues(ValuesOf(FindAll(template), input))
  {
    hide Value, Problem, Encoded, Trim, Unquote;
    forall n | n in FindAll(template) ensures Value(n, input) != "" && Encoded(Value(n, input)) {
      ValueEncodes(n, input);
    }
  }

  lemma NamesAre(segs: seq<Segment>)
    requires PlainHoles(segs)
    ensures forall n | n in Holes(segs) :: PlainName(n)
  {
    HolesAre(segs);
  }

  lemma {:induction false} HolesAre(segs: seq<Segment>)
    ensures forall n :: n in Holes(segs) <==> Hole(n) in segs
  {
    if segs != [] {
      HolesAre(segs[1..]);
      assert segs == [segs[0]] + segs[1..];
    }
  }

  lemma FilledIsReached(template: string, input: Input)
    requires Usable(template, input) && FindAll(Filled(template, input)) == []
    ensures ReplaceEach(template, FindAll(template), ValuesOf(FindAll(template), input)) == Filled(template, input)
  {
    hide PlainHoles, PlainName, EncodedValues, Value, Problem;
    var segs, names := Segments(template), FindAll(template);
    var values := ValuesOf(names, input);
    SegmentsOf(template);
    NamesAre(segs);
    ValuesAreEncoded(template, input);
    hide Segments, FindAll;
    ReplaceEachIsSubstitute(segs, names, values);
    assert Only(values, names) == values;
  }

  /** Simultaneous or not, by what the replacements reach. */
  lemma SimultaneousWhenReached(template: string, input: Input, valid: string -> bool, reached: string)
    requires Usable(template, input)
    requires reached == ReplaceEach(template, FindAll(template), ValuesOf(FindAll(template), input))
    ensures Simultaneous(template, input, valid)
      <==> reached == Filled(template, input) && (FindAll(template) == [] || FindAll(reached) == [])
  {
    hide Filled, FindAll, ReplaceEach, ValuesOf, Problem, Value;
  }

  /**
   * For every input whose fields can be used: the repeated replacement is the simultaneous substitution of the
   * encoded values exactly when that leaves no placeholder, and so exactly when no brace of the template
   * forms one around values that could pass for a name.
   */
  lemma SimultaneousIff(template: string, input: Input, valid: string -> bool)
    requires Usable(template, input)
    ensures Simultaneous(template, input, valid) <==> FindAll(Filled(template, input)) == []
    ensures Simultaneous(template, input, valid) <==> !Trapped(Segments(template), Transparent(template, input))
  {
    hide Segments, Value, Problem, EncodedValues, Trapped, ReplaceEach, FindAll, Simultaneous, Resolution, NameLike;
    SegmentsOf(template);
    ValuesAreEncoded(template, input);
    UnresolvedIff(Segments(template), ValuesOf(FindAll(template), input));
    hide Filled;
    if FindAll(Filled(template, input)) == [] { FilledIsReached(template, input); }
    if FindAll(template) == [] { NothingToFill(template, input); }
    var reached := ReplaceEach(template, FindAll(template), ValuesOf(FindAll(template), input));
    SimultaneousWhenReached(template, input, valid, reached);
  }

  lemma NothingToFill(template: string, input: Input)
    requires FindAll(template) == []
    ensures Filled(template, input) == template
  {
    hide Segments;
    SegmentsOf(template);
    assert ValuesOf([], input) == map[];
  }

  /** An input whose fields all have the text `x`. */
  function AllX(template: string): Input {
    Input(map n | n in FindAll(template) :: Str("x"), FindAll(template), _ => "x", 1)
  }

  lemma XIsUsable(template: string, name: string)
    requires name in FindAll(template)
    ensures Problem(name, AllX(template)).None? && Value(name, AllX(template)) == "x"
  {
    hide FindAll, Quote, StripLeft, StripRight;
    assert Strip("x") == "x";
    QuoteUnreserved("x");
  }

  lemma AllXIsUsable(template: string)
    ensures Usable(template, AllX(template)) && Transparent(template, AllX(template)) == set n | n in FindAll(template)
  {
    hide FindAll, Problem, Value, AllX;
    forall n | n in FindAll(template)
      ensures Problem(n, AllX(template)).None? && Value(n, AllX(template)) == "x"
    {
      XIsUsable(template, n);
    }
    assert IsName('x');
  }

  lemma {:induction false} QuoteUnreserved(s: string)
    requires forall c | c in s :: Unreserved(c)
    ensures Quote(s) == s
  {
    if s != "" {
      assert Unreserved(s[0]);
      QuoteUnreserved(s[1..]);
      QuoteFirst(s[0], s[1..]);
      assert s == [s[0]] + s[1..];
    }
  }

  lemma QuoteFirst(c: char, s: string)
    requires Unreserved(c)
    ensures Quote([c] + s) == [c] + Quote(s)
  {
    var n := c as int;
    assert Utf8(c) == [n] && QuoteByte(n) == [c];
    assert ([c] + s)[1..] == s && Encode([c] + s) == [n] + Encode(s);
    assert ([n] + Encode(s))[1..] == Encode(s);
  }

  ghost predicate AlwaysSimultaneous(template: string) {
    forall input: Input, valid: string -> bool | Usable(template, input) :: Simultaneous(template, input, valid)
  }

  /**
   * A template is safe for every usable input exactly when it has no `{` that is followed by name characters
   * and placeholders only, at least one of either, and then `}`.
   */
  lemma AlwaysSimultaneousIff(template: string)
    ensures AlwaysSimultaneous(template) <==> !Trapped(Segments(template), set n | n in FindAll(template))
  {
    hide Simultaneous, Trapped, Segments, FindAll, Usable, AllX;
    var all := set n | n in FindAll(template);
    if AlwaysSimultaneous(template) {
      AllXIsUsable(template);
      SimultaneousIff(template, AllX(template), _ => true);
    }
    if !Trapped(Segments(template), all) {
      forall input: Input, valid: string -> bool | Usable(template, input)
        ensures Simultaneous(template, input, valid)
      {
        TransparentNames(template, input);
        TrappedMore(Segments(template), Transparent(template, input), all);
        SimultaneousIff(template, input, valid);
      }
    }
  }

  lemma TransparentNames(template: string, input: Input)
    requires Usable(template, input)
    ensures Transparent(template, input) <= set n | n in FindAll(template)
  {
  }

  // -------------------------------------------------------------- a trap closes

  /** An input of string fields. */
  function Strings(fields: map<string, string>, names: seq<string>, limit: nat): Input {
    Input(map n | n in fields :: Str(fields[n]), names, (j: Json) => if j.Str? then j.s else "", limit)
  }

  /** Texts that need no encoding: no white space at the ends, unreserved characters only, within the limit. */
  predicate Verbatim(text: string, limit: nat) {
    0 < |text| <= limit && forall c | c in text :: Unreserved(c)
  }

  lemma StripVerbatim(text: string, limit: nat)
    requires Verbatim(text, limit)
    ensures Strip(text) == text
  {
    assert Unreserved(text[0]) && Unreserved(text[|text| - 1]);
    assert Trimmed(text);
  }

  lemma StringsAreUsable(names: seq<string>, fields: map<string, string>, allowed: seq<string>, limit: nat)
    requires forall n | n in names :: n in allowed && n in fields && Verbatim(fields[n], limit)
    ensures FirstProblem(names, Strings(fields, allowed, limit)).None?
    ensures forall n | n in names ::
      Value(n, Strings(fields, allowed, limit)) == fields[n] == Trim(n, Strings(fields, allowed, limit))
  {
    hide Strip, Quote, Unreserved;
    forall n | n in names
      ensures Problem(n, Strings(fields, allowed, limit)).None?
      ensures Value(n, Strings(fields, allowed, limit)) == fields[n] == Trim(n, Strings(fields, allowed, limit))
    {
      StripVerbatim(fields[n], limit);
      QuoteUnreserved(fields[n]);
    }
  }

  /** A placeholder at the start is found. */
  lemma HoleFirst(name: string, s: string)
    requires PlainName(name)
    ensures Segments(Placeholder(name) + s) == [Hole(name)] + Segments(s)
  {
    var t := Placeholder(name) + s;
    PlaceholderFound(name, s);
    assert t[1..|name| + 1] == name && t[|name| + 2..] == s;
  }

  /** A character that starts no placeholder is a literal. */
  lemma LiteralFirst(c: char, s: string)
    requires c != '{' || (s != "" && s[0] == '{')
    ensures Segments([c] + s) == [Lit(c)] + Segments(s)
  {
    assert ([c] + s)[1..] == s;
  }

  /**
   * A stray brace breaks it: in `{{a}}{a}` with the value `a` the first replacement leaves a new placeholder,
   * which the second one fills, so the URL is `aa` where a simultaneous substitution leaves `{a}a`.
   */
  lemma StrayBracesBreakIt(valid: string -> bool)
    ensures
      var template, input := "{" + Placeholder("a") + "}" + Placeholder("a"), Strings(map["a" := "a"], ["a"], 1);
      && Usable(template, input) && Filled(template, input) == Placeholder("a") + "a"
      && Resolution(template, input, valid) == if valid("aa") then Ok(Target("aa", {"a"})) else Err(UrlRejected("aa"))
  {
    var p, values := Placeholder("a"), map["a" := "a"];
    var template, input := "{" + p + "}" + p, Strings(values, ["a"], 1);
    assert template == ['{'] + (p + (['}'] + (p + "")));
    hide *;
    StraySegments(p);
    StraySubstitution(values);
    SegmentsOf(template);
    StrayReplacements(p, values);
    StrayInput(template, values);
  }

  lemma StraySegments(p: string)
    requires p == Placeholder("a")
    ensures Segments(['{'] + (p + (['}'] + (p + "")))) == [Lit('{'), Hole("a"), Lit('}'), Hole("a")]
  {
    hide Segments;
    LiteralFirst('{', p + (['}'] + (p + "")));
    HoleFirst("a", ['}'] + (p + ""));
    LiteralFirst('}', p + "");
    HoleFirst("a", "");
    assert Segments("") == [] by { NoSegments(); }
  }

  lemma NoSegments()
    ensures Segments("") == []
  {
  }

  lemma StraySubstitution(values: map<string, string>)
    requires values == map["a" := "a"]
    ensures Substitute([Lit('{'), Hole("a"), Lit('}'), Hole("a")], values) == Placeholder("a") + "a"
    ensures Holes([Lit('{'), Hole("a"), Lit('}'), Hole("a")]) == ["a", "a"]
  {
    assert [Hole("a")][1..] == [];
    assert Substitute([Hole("a")], values) == "a" && Holes([Hole("a")]) == ["a"];
    assert [Lit('}'), Hole("a")][1..] == [Hole("a")];
    assert Substitute([Lit('}'), Hole("a")], values) == "}a" && Holes([Lit('}'), Hole("a")]) == ["a"];
    assert [Hole("a"), Lit('}'), Hole("a")][1..] == [Lit('}'), Hole("a")];
    assert Substitute([Hole("a"), Lit('}'), Hole("a")], values) == "a}a";
    assert [Lit('{'), Hole("a"), Lit('}'), Hole("a")][1..] == [Hole("a"), Lit('}'), Hole("a")];
  }

  lemma StrayReplacements(p: string, values: map<string, string>)
    requires p == Placeholder("a") && values == map["a" := "a"]
    ensures ReplaceEach(['{'] + (p + (['}'] + (p + ""))), ["a", "a"], values) == "aa"
  {
    var r := p + (['}'] + (p + ""));
    assert p == "{a}" && !(p <= ['{'] + r) by { assert r[0] == '{' && (['{'] + r)[1] == r[0] && p[1] == 'a'; }
    ReplaceSkips('{', r, p, "a");
    ReplaceFirst(p, ['}'] + (p + ""), "a");
    assert !(p <= ['}'] + (p + "")) by { assert p[0] == '{' && (['}'] + (p + ""))[0] == '}'; }
    ReplaceSkips('}', p + "", p, "a");
    ReplaceFirst(p, "", "a");
    assert Replace("", p, "a") == "";
    var once := Replace(['{'] + r, p, "a");
    assert once == ['{'] + ("a" + (['}'] + ("a" + ""))) == p + "a";
    ReplaceFirst(p, "a", "a");
    assert Replace("a", p, "a") == "a";
    assert ["a", "a"][1..] == ["a"] && ["a"][1..] == [];
  }

  lemma StrayInput(template: string, values: map<string, string>)
    requires FindAll(template) == ["a", "a"] && values == map["a" := "a"]
    requires ReplaceEach(template, ["a", "a"], values) == "aa"
    requires Substitute(Segments(template), values) == Placeholder("a") + "a"
    ensures
      var input := Strings(values, ["a"], 1);
      && Usable(template, input) && Filled(template, input) == Placeholder("a") + "a"
      && forall valid: string -> bool :: Resolution(template, input, valid)
           == if valid("aa") then Ok(Target("aa", {"a"})) else Err(UrlRejected("aa"))
  {
    hide ReplaceEach, Substitute, Segments, Value, Problem, Strings, Trim;
    assert Verbatim("a", 1);
    StringsAreUsable(["a", "a"], values, ["a"], 1);
    var input := Strings(values, ["a"], 1);
    assert ValuesOf(["a", "a"], input) == values;
    assert FindAll("aa") == [] by { NothingFound(); }
    assert (set n | n in ["a", "a"]) == {"a"};
  }

  lemma NothingFound()
    ensures FindAll("aa") == []
  {
    FindAllThrough("aa", "");
    assert "aa" + "" == "aa";
  }
}
