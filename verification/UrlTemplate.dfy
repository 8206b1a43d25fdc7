/** `_execute_integration`'s input split and `_resolve_url_template` of lambda_function.py. */
module UrlTemplate {
  import opened Json
  import opened PercentEncoding
  import opened Sorting
  import opened Text

  datatype Error =
    | InputNotAllowed(name: string) | FieldNotAllowed(name: string) | FieldMissing(name: string)
    | FieldNotScalar(name: string) | FieldRequired(name: string) | FieldTooLong(name: string)
    | Unresolved | UrlRejected(url: string)

  datatype Result<T> = Ok(value: T) | Err(error: Error)

  datatype Option<T> = None | Some(value: T)

  datatype Target = Target(url: string, fields: set<string>)

  /** What a placeholder may draw on; `text` is Python's `str`, `limit` is `MAX_TEMPLATE_INPUT_LENGTH`. */
  datatype Input = Input(safe: map<string, Json>, allowed: seq<string>, text: Json -> string, limit: nat)

  // ------------------------------------------------------------- placeholders

  predicate IsName(c: char) { 'A' <= c <= 'Z' || 'a' <= c <= 'z' || '0' <= c <= '9' || c == '_' }

  function NameLength(s: string): (n: nat)
    ensures n <= |s| && (forall i | 0 <= i < n :: IsName(s[i])) && (n < |s| ==> !IsName(s[n]))
  {
    if s != "" && IsName(s[0]) then 1 + NameLength(s[1..]) else 0
  }

  /** The length of the name when `s` starts with a placeholder, otherwise 0. */
  function PlaceholderAt(s: string): (n: nat)
    ensures n > 0 ==> n + 2 <= |s| && s[0] == '{' && s[n + 1] == '}' && forall i | 1 <= i <= n :: IsName(s[i])
  {
    if s == "" || s[0] != '{' then 0
    else
      var n := NameLength(s[1..]);
      if 1 + n < |s| && s[1 + n] == '}' then n else 0
  }

  /** `re.findall(r"{([A-Za-z0-9_]+)}", s)`. */
  function FindAll(s: string): seq<string> {
    if s == "" then []
    else
      var n := PlaceholderAt(s);
      if n > 0 then [s[1..n + 1]] + FindAll(s[n + 2..]) else FindAll(s[1..])
  }

  /** `s.replace(old, new)`. */
  function Replace(s: string, what: string, instead: string): string
    requires what != ""
  {
    if |s| < |what| then s
    else if s[..|what|] == what then instead + Replace(s[|what|..], what, instead)
    else [s[0]] + Replace(s[1..], what, instead)
  }

  function Placeholder(name: string): string { "{" + name + "}" }

  // ------------------------------------------------------------------- values

  /** What `_encode_template_value` and the two membership tests before it reject. */
  function Problem(name: string, input: Input): Option<Error> {
    if name !in input.allowed then Some(FieldNotAllowed(name))
    else if name !in input.safe then Some(FieldMissing(name))
    else if input.safe[name].Null? || input.safe[name].Obj? || input.safe[name].List? then Some(FieldNotScalar(name))
    else if Trim(name, input) == "" then Some(FieldRequired(name))
    else if |Trim(name, input)| > input.limit then Some(FieldTooLong(name))
    else None
  }

  /** The trimmed text of an input field. */
  function Trim(name: string, input: Input): string
    requires name in input.safe
  {
    Strip(input.text(input.safe[name]))
  }

  function Value(name: string, input: Input): string
    requires Problem(name, input).None?
  {
    Quote(Trim(name, input))
  }

  function FirstProblem(names: seq<string>, input: Input): (r: Option<Error>)
    ensures r.None? <==> forall n | n in names :: Problem(n, input).None?
  {
    if names == [] then None
    else if Problem(names[0], input).Some? then Problem(names[0], input)
    else FirstProblem(names[1..], input)
  }

  function ValuesOf(names: seq<string>, input: Input): map<string, string>
    requires FirstProblem(names, input).None?
  {
    map n | n in names :: Value(n, input)
  }

  /** The template after one replacement per name, in order. */
  function ReplaceEach(s: string, names: seq<string>, values: map<string, string>): string
    requires forall n | n in names :: n in values
    decreases |names|
  {
    if names == [] then s
    else ReplaceEach(Replace(s, Placeholder(names[0]), values[names[0]]), names[1..], values)
  }

  /** What goes into the URL holds no brace and no delimiter, is not empty, and says which text it came from. */
  lemma ValueEncodes(name: string, input: Input)
    requires Problem(name, input).None?
    ensures Encoded(Value(name, input)) && Value(name, input) != "" && Unquote(Value(name, input)) == Trim(name, input)
  {
    hide Strip, QuoteBytes;
    var text := Trim(name, input);
    QuoteRoundTrip(text);
    QuoteAlphabet(Encode(text));
    assert Encode(text) != [] by { assert Utf8(text[0]) + Encode(text[1..]) != []; }
  }

  // ------------------------------------------------------------------ methods

  /** The two membership tests of the loop, then `_encode_template_value`. */
  method EncodeTemplateValue(name: string, input: Input) returns (r: Result<string>)
    ensures r == if Problem(name, input).None? then Ok(Value(name, input)) else Err(Problem(name, input).value)
    ensures r.Ok? ==> Encoded(r.value) && r.value != "" && Unquote(r.value) == Trim(name, input)
  {
    if Problem(name, input).None? { ValueEncodes(name, input); }
    if name !in input.allowed { return Err(FieldNotAllowed(name)); }
    if name !in input.safe { return Err(FieldMissing(name)); }
    var value := input.safe[name];
    if value.Null? || value.Obj? || value.List? { return Err(FieldNotScalar(name)); }
    var normalized := Strip(input.text(value));
    if normalized == "" { return Err(FieldRequired(name)); }
    if |normalized| > input.limit { return Err(FieldTooLong(name)); }
    return Ok(Quote(normalized));
  }

  /** The template's target: the URL after all replacements, and the fields it used up. */
  function Resolution(template: string, input: Input, valid: string -> bool): Result<Target> {
    var names := FindAll(template);
    if FirstProblem(names, input).Some? then Err(FirstProblem(names, input).value)
    else
      var url := ReplaceEach(template, names, ValuesOf(names, input));
      if names != [] && FindAll(url) != [] then Err(Unresolved)
      else if !valid(url) then Err(UrlRejected(url))
      else Ok(Target(url, set n | n in names))
  }

  /** The loop of `_resolve_url_template`: one `str.replace` per placeholder found, in order. */
  method ReplaceInTurn(template: string, names: seq<string>, input: Input) returns (r: Result<Target>)
    ensures r == if FirstProblem(names, input).Some? then Err(FirstProblem(names, input).value)
                 else Ok(Target(ReplaceEach(template, names, ValuesOf(names, input)), set n | n in names))
  {
    hide Problem, Value, Replace, Encoded, Trim, Unquote, Quote, Strip;
    var fields, url := {}, template;
    ghost var values := ValuesSoFar(names, input);
    for i := 0 to |names|
      invariant fields == set n | n in names[..i]
      invariant FirstProblem(names, input) == FirstProblem(names[i..], input)
      invariant FirstProblem(names, input).None? ==>
        ReplaceEach(template, names, values) == ReplaceEach(url, names[i..], values)
    {
      var name := names[i];
      assert names[i..][0] == name && names[i..][1..] == names[i + 1..];
      var encoded := EncodeTemplateValue(name, input);
      if encoded.Err? { return Err(encoded.error); }
      url := Replace(url, Placeholder(name), encoded.value);
      fields := fields + {name};
      assert names[..i + 1] == names[..i] + [name];
    }
    assert names[..|names|] == names;
    return Ok(Target(url, fields));
  }

  /** `_resolve_url_template`. */
  method ResolveUrlTemplate(template: string, input: Input, valid: string -> bool) returns (r: Result<Target>)
    ensures r == Resolution(template, input, valid)
  {
    var names := FindAll(template);
    if names == [] {
      assert (set n | n in names) == {};
      return if valid(template) then Ok(Target(template, {})) else Err(UrlRejected(template));
    }
    r := ReplaceInTurn(template, names, input);
    if r.Err? { return; }
    if FindAll(r.value.url) != [] { return Err(Unresolved); }
    if !valid(r.value.url) { return Err(UrlRejected(r.value.url)); }
  }

  ghost function ValuesSoFar(names: seq<string>, input: Input): (r: map<string, string>)
    ensures FirstProblem(names, input).None? ==> r == ValuesOf(names, input)
  {
    if FirstProblem(names, input).None? then ValuesOf(names, input) else map[]
  }

  datatype Request = Request(url: string, fields: set<string>, forwarded: map<string, Json>)

  /**
   * The first half of `_execute_integration`. `template` and `plain` are the stripped `urlTemplate` and the
   * `url` of the integration. Every accepted field goes to exactly one of URL and forwarded input.
   */
  method SplitInput(
      payload: map<string, Json>, allowed: seq<string>, template: string, plain: string,
      text: Json -> string, limit: nat, valid: string -> bool)
      returns (r: Result<Request>)
    ensures r.Ok? ==>
      payload.Keys == r.value.fields + r.value.forwarded.Keys && r.value.fields !! r.value.forwarded.Keys
    ensures r.Ok? ==> forall f | f in r.value.forwarded :: r.value.forwarded[f] == payload[f]
    ensures r.Ok? ==> r.value.fields == (if template == "" then {} else set n | n in FindAll(template))
    ensures r.Ok? ==> forall f | f in payload :: f in allowed
    ensures (exists f | f in payload :: f !in allowed) ==>
      r.Err? && r.error.InputNotAllowed? && Least(r.error.name, set f | f in payload && f !in allowed)
    ensures (forall f | f in payload :: f in allowed) && template == "" ==>
      r == if valid(plain) then Ok(Request(plain, {}, payload)) else Err(UrlRejected(plain))
    ensures (forall f | f in payload :: f in allowed) && template != "" ==>
      match Resolution(template, Input(payload, allowed, text, limit), valid)
      case Err(e) => r == Err(e)
      case Ok(target) => r.Ok? && r.value.url == target.url
  {
    hide Strip, Quote, FindAll, ReplaceEach;
    var unknown := set f | f in payload && f !in allowed;
    if unknown != {} {
      LeastExists(unknown);
      var name :| name in unknown && Least(name, unknown);
      return Err(InputNotAllowed(name));
    }
    var safe := map f | f in allowed && f in payload :: payload[f];
    assert safe == payload by {
      forall f | f in payload ensures f in safe { assert f !in unknown; }
    }
    var resolved: Result<Target>;
    if template != "" {
      resolved := ResolveUrlTemplate(template, Input(safe, allowed, text, limit), valid);
      if resolved.Ok? { FieldsAreInput(template, Input(safe, allowed, text, limit), valid); }
    } else {
      resolved := if valid(plain) then Ok(Target(plain, {})) else Err(UrlRejected(plain));
    }
    if resolved.Err? { return Err(resolved.error); }
    var target := resolved.value;
    var forwarded := map f | f in safe && f !in target.fields :: safe[f];
    assert target.fields == {} ==> forwarded == payload;
    return Ok(Request(target.url, target.fields, forwarded));
  }

  lemma FieldsAreInput(template: string, input: Input, valid: string -> bool)
    requires Resolution(template, input, valid).Ok?
    ensures Resolution(template, input, valid).value.fields <= input.safe.Keys
    ensures Resolution(template, input, valid).value.fields == set n | n in FindAll(template)
  {
    forall n | n in FindAll(template) ensures n in input.safe { assert Problem(n, input).None?; }
  }
}
