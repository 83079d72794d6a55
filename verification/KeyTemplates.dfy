/** Etcd key templates: formatting, matching and prefixes, and why a prefix scan finds the right objects. */
module KeyTemplates {
  import opened Wrappers

  /** A template, cut at its parameters. */
  datatype Piece = Lit(text: string) | Param(name: string)

  type Template = seq<Piece>

  type Arguments = map<string, string>

  predicate Allowed(c: char) {
    'a' <= c <= 'z' || 'A' <= c <= 'Z' || '0' <= c <= '9' || c in "._:-"
  }

  predicate AllAllowed(s: string) {
    forall i :: 0 <= i < |s| ==> Allowed(s[i])
  }

  predicate ValidArgument(s: string) {
    s != "" && AllAllowed(s)
  }

  function Params(t: Template): seq<string> {
    if t == [] then [] else (if t[0].Param? then [t[0].name] else []) + Params(t[1..])
  }

  /** The rest of the template starts with a separator, or there is none. */
  predicate StartsFresh(t: Template) {
    t == [] || (t[0].Lit? && t[0].text != "" && !Allowed(t[0].text[0]))
  }

  /** Each parameter is named once, and ends at a character that no argument contains. */
  predicate Separated(t: Template) {
    t == [] ||
    (Separated(t[1..]) && (t[0].Param? ==> StartsFresh(t[1..]) && t[0].name !in Params(t[1..])))
  }

  predicate Covers(args: Arguments, t: Template) {
    forall p :: p in Params(t) ==> p in args && ValidArgument(args[p])
  }

  function Format(t: Template, args: Arguments): string
    requires forall p :: p in Params(t) ==> p in args
  {
    if t == [] then ""
    else (if t[0].Lit? then t[0].text else args[t[0].name]) + Format(t[1..], args)
  }

  /**
   * The regular expression built from the template: each parameter takes one or more allowed characters, fewest
   * first, and the final `$` also accepts a line break at the end.
   */
  predicate Matches(t: Template, key: string)
    decreases |t|, 1
  {
    if t == [] then key == "" || key == "\n"
    else if t[0].Lit? then t[0].text <= key && Matches(t[1..], key[|t[0].text|..])
    else exists n :: 1 <= n <= |key| && MatchesArgument(t, key, n)
  }

  predicate MatchesArgument(t: Template, key: string, n: nat)
    requires t != [] && n <= |key|
    decreases |t|, 0
  {
    AllAllowed(key[..n]) && Matches(t[1..], key[n..])
  }

  // ---------------------------------------------------------------------------------------------
  // Names the API accepts
  // ---------------------------------------------------------------------------------------------

  /** `\w` in ASCII. */
  predicate WordCharacter(c: char) {
    'a' <= c <= 'z' || 'A' <= c <= 'Z' || '0' <= c <= '9' || c == '_'
  }

  /** The validation of names and namespaces: word characters at both ends, hyphens, dots and colons between them. */
  predicate ResourceName(s: string) {
    || (|s| == 1 && WordCharacter(s[0]))
    || (2 <= |s| <= 255 && WordCharacter(s[0]) && WordCharacter(s[|s| - 1])
        && forall i :: 0 < i < |s| - 1 ==> WordCharacter(s[i]) || s[i] == '-' || s[i] == '.' || s[i] == ':')
  }

  /** Keys allow exactly the characters that names can have. */
  lemma AllowedInNames(c: char)
    ensures Allowed(c) <==> exists s :: ResourceName(s) && c in s
  {
    if Allowed(c) {
      var s := ['a', c, 'a'];
      assert ResourceName(s) && s[1] in s;
    }
  }

  /** So the template matches every key made of accepted names, and of these each key belongs to one choice of names. */
  lemma AcceptedNamesMatch(t: Template, names: Arguments, others: Arguments)
    requires Separated(t)
    requires forall p :: p in Params(t) ==> p in names && ResourceName(names[p])
    requires forall p :: p in Params(t) ==> p in others && ResourceName(others[p])
    ensures Matches(t, Format(t, names))
    ensures Format(t, names) == Format(t, others) <==> forall p :: p in Params(t) ==> names[p] == others[p]
  {
    assert Covers(names, t) && Covers(others, t);
    FormattedMatches(t, Format(t, names), names);
    if Format(t, names) == Format(t, others) {
      FormatIsInjective(t, names, others);
    }
    if forall p :: p in Params(t) ==> names[p] == others[p] {
      FormatOnly(t, names, others);
    }
  }

  // ---------------------------------------------------------------------------------------------
  // Formatting can be undone
  // ---------------------------------------------------------------------------------------------

  lemma FormatStartsFresh(t: Template, args: Arguments)
    requires StartsFresh(t) && forall p :: p in Params(t) ==> p in args
    ensures var s := Format(t, args); s == "" || !Allowed(s[0])
  {
  }

  /** How many allowed characters a string starts with. */
  function Span(s: string): nat {
    if s == "" || !Allowed(s[0]) then 0 else 1 + Span(s[1..])
  }

  lemma {:induction false} SpanEndsArgument(v: string, rest: string)
    requires AllAllowed(v) && (rest == "" || !Allowed(rest[0]))
    ensures Span(v + rest) == |v|
  {
    if v == "" {
      assert v + rest == rest;
    } else {
      SpanEndsArgument(v[1..], rest);
      assert (v + rest)[1..] == v[1..] + rest;
    }
  }

  /** Two ways to cut a string after its allowed characters are the same. */
  lemma SameCut(v: string, x: string, w: string, y: string)
    requires v + x == w + y && AllAllowed(v) && AllAllowed(w)
    requires (x == "" || !Allowed(x[0])) && (y == "" || !Allowed(y[0]))
    ensures v == w && x == y
  {
    SpanEndsArgument(v, x);
    SpanEndsArgument(w, y);
    assert v == (v + x)[..|v|] && w == (w + y)[..|w|];
    assert x == (v + x)[|v|..] && y == (w + y)[|w|..];
  }

  /** Different arguments make different keys. */
  lemma {:induction false} FormatIsInjective(t: Template, a: Arguments, b: Arguments)
    requires Separated(t) && Covers(a, t) && Covers(b, t) && Format(t, a) == Format(t, b)
    ensures forall p :: p in Params(t) ==> a[p] == b[p]
  {
    if t != [] {
      var x, y := Format(t[1..], a), Format(t[1..], b);
      if t[0].Param? {
        FormatStartsFresh(t[1..], a);
        FormatStartsFresh(t[1..], b);
        SameCut(a[t[0].name], x, b[t[0].name], y);
      } else {
        assert x == (t[0].text + x)[|t[0].text|..] && y == (t[0].text + y)[|t[0].text|..];
      }
      FormatIsInjective(t[1..], a, b);
    }
  }

  // ---------------------------------------------------------------------------------------------
  // Matching accepts exactly the formatted keys
  // ---------------------------------------------------------------------------------------------

  /** A formatted key, with or without a line break at its end. */
  ghost predicate Formatted(t: Template, key: string, args: Arguments) {
    Covers(args, t) && (key == Format(t, args) || key == Format(t, args) + "\n")
  }

  lemma {:induction false} FormattedMatches(t: Template, key: string, args: Arguments)
    requires Formatted(t, key, args)
    ensures Matches(t, key)
    decreases |t|
  {
    if t != [] {
      var head := if t[0].Lit? then t[0].text else args[t[0].name];
      var rest := Format(t[1..], args);
      assert Params(t) == (if t[0].Param? then [t[0].name] else []) + Params(t[1..]);
      assert forall p :: p in Params(t[1..]) ==> p in Params(t);
      assert t[0].Param? ==> t[0].name == Params(t)[0];
      assert key == head + rest || key == head + (rest + "\n");
      assert key[|head|..] == rest || key[|head|..] == rest + "\n";
      assert key[..|head|] == head;
      FormattedMatches(t[1..], key[|head|..], args);
      assert t[0].Param? ==> MatchesArgument(t, key, |head|);
    }
  }

  /** Formatting looks at the template's parameters only. */
  lemma {:induction false} FormatOnly(t: Template, a: Arguments, b: Arguments)
    requires forall p :: p in Params(t) ==> p in a && p in b && a[p] == b[p]
    ensures Format(t, a) == Format(t, b)
  {
    if t != [] {
      assert Params(t) == (if t[0].Param? then [t[0].name] else []) + Params(t[1..]);
      assert t[0].Param? ==> t[0].name == Params(t)[0];
      FormatOnly(t[1..], a, b);
    }
  }

  lemma FormattedByParam(t: Template, v: string, tail: string, rest: Arguments)
    requires t != [] && t[0].Param? && t[0].name !in Params(t[1..])
    requires ValidArgument(v) && Formatted(t[1..], tail, rest)
    ensures Formatted(t, v + tail, rest[t[0].name := v])
  {
    var args := rest[t[0].name := v];
    FormatOnly(t[1..], rest, args);
    var formatted := Format(t[1..], rest);
    assert Params(t) == [t[0].name] + Params(t[1..]);
    assert v + (formatted + "\n") == (v + formatted) + "\n";
  }

  lemma FormattedByLit(t: Template, tail: string, args: Arguments)
    requires t != [] && t[0].Lit? && Formatted(t[1..], tail, args)
    ensures Formatted(t, t[0].text + tail, args)
  {
    var formatted := Format(t[1..], args);
    assert Params(t) == Params(t[1..]);
    assert t[0].text + (formatted + "\n") == (t[0].text + formatted) + "\n";
  }

  /** Whatever matches was formatted from the arguments it can be cut into. */
  lemma {:induction false} MatchesFormatted(t: Template, key: string) returns (args: Arguments)
    requires Separated(t) && Matches(t, key)
    ensures Formatted(t, key, args)
    decreases |t|
  {
    if t == [] {
      args := map[];
    } else if t[0].Lit? {
      var text, tail := t[0].text, key[|t[0].text|..];
      args := MatchesFormatted(t[1..], tail);
      FormattedByLit(t, tail, args);
      assert key == text + tail;
    } else {
      var n: nat := ArgumentEnd(t, key);
      var v, tail := key[..n], key[n..];
      args := MatchesFormatted(t[1..], tail);
      FormattedByParam(t, v, tail, args);
      args := args[t[0].name := v];
      assert key == v + tail;
    }
  }

  lemma ArgumentEnd(t: Template, key: string) returns (n: nat)
    requires t != [] && t[0].Param? && Matches(t, key)
    ensures n <= |key| && ValidArgument(key[..n]) && Matches(t[1..], key[n..])
  {
    n :| 1 <= n <= |key| && MatchesArgument(t, key, n);
  }

  /** The matcher accepts exactly what formatting can produce, with or without a line break. */
  lemma MatchesExactlyFormatted(t: Template, key: string)
    requires Separated(t)
    ensures Matches(t, key) <==> exists args :: Formatted(t, key, args)
  {
    if Matches(t, key) {
      var args := MatchesFormatted(t, key);
    }
    forall args | Formatted(t, key, args) ensures Matches(t, key) {
      FormattedMatches(t, key, args);
    }
  }

  /** Among keys that do not end in a line break, it accepts exactly the image of formatting. */
  lemma MatchesExactlyTheImage(t: Template, key: string)
    requires Separated(t) && (key == "" || key[|key| - 1] != '\n')
    ensures Matches(t, key) <==> exists args :: Covers(args, t) && key == Format(t, args)
  {
    if Matches(t, key) {
      var args := MatchesFormatted(t, key);
      EndsAsFormatted(t, key, args);
    }
    forall args | Covers(args, t) && key == Format(t, args) ensures Matches(t, key) {
      FormattedMatches(t, key, args);
    }
  }

  lemma EndsAsFormatted(t: Template, key: string, args: Arguments)
    requires Formatted(t, key, args) && (key == "" || key[|key| - 1] != '\n')
    ensures key == Format(t, args)
  {
    var formatted := Format(t, args);
    assert (formatted + "\n")[|formatted|] == '\n';
  }

  // ---------------------------------------------------------------------------------------------
  // Prefixes
  // ---------------------------------------------------------------------------------------------

  /** The template up to its parameter `m`, or all of it. */
  function Cut(t: Template, m: nat): (cut: Template)
    ensures forall p :: p in Params(cut) ==> p in Params(t)
  {
    if t == [] || (t[0].Param? && m == 0) then []
    else
      var cut := Cut(t[1..], if t[0].Param? then m - 1 else m);
      assert ([t[0]] + cut)[1..] == cut;
      [t[0]] + cut
  }

  lemma CutStep(t: Template, m: nat)
    requires t != [] && (t[0].Param? ==> m > 0)
    ensures var rest := Cut(t[1..], if t[0].Param? then m - 1 else m);
      && Cut(t, m) == [t[0]] + rest && Cut(t, m)[1..] == rest
      && Params(Cut(t, m)) == (if t[0].Param? then [t[0].name] else []) + Params(rest)
  {
    var rest := Cut(t[1..], if t[0].Param? then m - 1 else m);
    assert ([t[0]] + rest)[1..] == rest;
  }

  lemma {:induction false} CutParams(t: Template, m: nat)
    requires m <= |Params(t)|
    ensures Params(Cut(t, m)) == Params(t)[..m]
  {
    if t != [] && (t[0].Lit? || m > 0) {
      CutStep(t, m);
      CutParams(t[1..], if t[0].Param? then m - 1 else m);
    }
  }

  /** The arguments agree on the first `m` parameters. */
  ghost predicate Agree(t: Template, m: nat, a: Arguments, b: Arguments)
    requires m <= |Params(t)|
  {
    forall p :: p in Params(t)[..m] ==> p in a && p in b && a[p] == b[p]
  }

  /** With a parameter left out, a key starts with the prefix exactly if its arguments agree with those given. */
  lemma {:induction false} PrefixDecides(t: Template, m: nat, given: Arguments, args: Arguments)
    requires Separated(t) && Covers(args, t) && m < |Params(t)|
    requires Covers(given, Cut(t, m))
    ensures Format(Cut(t, m), given) <= Format(t, args) <==> Agree(t, m, given, args)
  {
    CutParams(t, m);
    if t[0].Param? && m == 0 {
    } else {
      CutStep(t, m);
      var n := if t[0].Param? then m - 1 else m;
      var x, y := Format(Cut(t[1..], n), given), Format(t[1..], args);
      PrefixDecides(t[1..], n, given, args);
      CutParams(t[1..], n);
      if t[0].Lit? {
        assert Params(t)[..m] == Params(t[1..])[..n];
        SamePrefix(t[0].text, x, y);
      } else {
        var name := t[0].name;
        assert Params(t) == [name] + Params(t[1..]);
        assert Params(t)[..m] == [name] + Params(t[1..])[..n];
        assert given[name] != "" && AllAllowed(given[name]) by { assert name in Params(Cut(t, m)); }
        assert x != "" && !Allowed(x[0]) by { CutStep(t[1..], n); }
        FormatStartsFresh(t[1..], args);
        ArgumentPrefix(given[name], x, args[name], y);
      }
    }
  }

  lemma SamePrefix(v: string, x: string, y: string)
    ensures v + x <= v + y <==> x <= y
  {
    if v + x <= v + y {
      assert x == (v + x)[|v|..] && y == (v + y)[|v|..];
      assert forall i :: 0 <= i < |x| ==> x[i] == (v + x)[|v| + i] == (v + y)[|v| + i] == y[i];
    }
  }

  lemma ArgumentPrefix(v: string, x: string, w: string, y: string)
    requires AllAllowed(v) && AllAllowed(w)
    requires x != "" && !Allowed(x[0]) && (y == "" || !Allowed(y[0]))
    ensures v + x <= w + y <==> v == w && x <= y
  {
    if v + x <= w + y {
      var z := (w + y)[|v + x|..];
      assert w + y == (v + x) + z == v + (x + z);
      assert (x + z)[0] == x[0];
      SameCut(v, x + z, w, y);
    } else if v == w && x <= y {
      SamePrefix(v, x, y);
    }
  }

  /** What a scan of the stored keys keeps. */
  function Scanned(t: Template, prefix: string, keys: set<string>): set<string> {
    set k | k in keys && prefix <= k && Matches(t, k)
  }

  /**
   * With a proper leading subset of the parameters given, the scan returns exactly the stored keys whose arguments
   * agree with it.
   */
  lemma ScanIsExact(t: Template, m: nat, given: Arguments, keys: set<string>, key: string)
    requires Separated(t) && m < |Params(t)| && Covers(given, Cut(t, m))
    requires key == "" || key[|key| - 1] != '\n'
    ensures key in Scanned(t, Format(Cut(t, m), given), keys) <==>
      key in keys && exists args :: Covers(args, t) && key == Format(t, args) && Agree(t, m, given, args)
  {
    MatchesExactlyTheImage(t, key);
    forall args | Covers(args, t) && key == Format(t, args)
      ensures Format(Cut(t, m), given) <= key <==> Agree(t, m, given, args)
    {
      PrefixDecides(t, m, given, args);
    }
  }

  /** The arguments agree on all parameters but the last, and there one is a prefix of the other. */
  ghost predicate AgreeUpToLast(t: Template, a: Arguments, b: Arguments)
    requires Params(t) != [] && Covers(a, t) && Covers(b, t)
  {
    && Agree(t, |Params(t)| - 1, a, b)
    && a[Params(t)[|Params(t)| - 1]] <= b[Params(t)[|Params(t)| - 1]]
  }

  lemma UpToLastStep(t: Template, a: Arguments, b: Arguments)
    requires t != [] && Params(t[1..]) != [] && Covers(a, t) && Covers(b, t)
    ensures Covers(a, t[1..]) && Covers(b, t[1..]) && (t[0].Param? ==> t[0].name in a && t[0].name in b)
    ensures AgreeUpToLast(t, a, b) <==>
      AgreeUpToLast(t[1..], a, b) && (t[0].Param? ==> a[t[0].name] == b[t[0].name])
  {
    if t[0].Param? {
      var name, params := t[0].name, Params(t[1..]);
      assert Params(t) == [name] + params;
      UpToLastBehind(name, params, a, b);
      assert Agree(t, |params|, a, b) <==> a[name] == b[name] && Agree(t[1..], |params| - 1, a, b);
    } else {
      assert Params(t) == Params(t[1..]);
    }
  }

  lemma UpToLastBehind(name: string, params: seq<string>, a: Arguments, b: Arguments)
    requires params != [] && forall p :: p in [name] + params ==> p in a && p in b
    ensures forall p :: p in params ==> p in [name] + params
    ensures ([name] + params)[|params|] == params[|params| - 1] && name in [name] + params
    ensures (forall p :: p in ([name] + params)[..|params|] ==> a[p] == b[p])
      <==> a[name] == b[name] && forall p :: p in params[..|params| - 1] ==> a[p] == b[p]
  {
    assert ([name] + params)[..|params|] == [name] + params[..|params| - 1];
    assert ([name] + params)[0] == name;
    assert forall i :: 0 <= i < |params| ==> ([name] + params)[i + 1] == params[i];
  }

  /** With every parameter given, a template that ends in one: the last argument is only matched as a prefix. */
  lemma {:induction false} FullPrefixDecides(t: Template, given: Arguments, args: Arguments)
    requires Separated(t) && Covers(given, t) && Covers(args, t) && t != [] && t[|t| - 1].Param?
    ensures Params(t) != []
    ensures Format(t, given) <= Format(t, args) <==> AgreeUpToLast(t, given, args)
  {
    if |t| == 1 {
      assert t[1..] == [];
      assert Params(t) == [t[0].name] && Format(t, given) == given[t[0].name] && Format(t, args) == args[t[0].name];
    } else {
      var x, y := Format(t[1..], given), Format(t[1..], args);
      FullPrefixDecides(t[1..], given, args);
      UpToLastStep(t, given, args);
      if t[0].Lit? {
        SamePrefix(t[0].text, x, y);
      } else {
        assert t[0].name == Params(t)[0];
        FormatStartsFresh(t[1..], args);
        ArgumentPrefix(given[t[0].name], x, args[t[0].name], y);
      }
    }
  }

  /** So a scan with every parameter given also returns longer names. */
  lemma FullScan(t: Template, given: Arguments, keys: set<string>, key: string)
    requires Separated(t) && Covers(given, t) && t != [] && t[|t| - 1].Param?
    requires key == "" || key[|key| - 1] != '\n'
    ensures Params(t) != []
    ensures key in Scanned(t, Format(t, given), keys) <==>
      key in keys && exists args :: Covers(args, t) && key == Format(t, args) && AgreeUpToLast(t, given, args)
  {
    MatchesExactlyTheImage(t, key);
    FullPrefixDecides(t, given, given);
    forall args | Covers(args, t) && key == Format(t, args)
      ensures Format(t, given) <= key <==> AgreeUpToLast(t, given, args)
    {
      FullPrefixDecides(t, given, args);
    }
  }

  // ---------------------------------------------------------------------------------------------
  // The methods of a key, filling in parameters one by one
  // ---------------------------------------------------------------------------------------------

  function Names(t: Template, m: nat): set<string>
    requires m <= |Params(t)|
  {
    set p | p in Params(t)[..m]
  }

  lemma NamesGrow(t: Template, m: nat)
    requires m < |Params(t)|
    ensures Names(t, m + 1) == Names(t, m) + {Params(t)[m]}
    ensures NoDuplicates(Params(t)) ==> Params(t)[m] !in Names(t, m)
  {
  }

  lemma {:induction false} NamesOf(t: Template, m: nat, i: nat)
    requires i < m <= |Params(t)|
    ensures Params(t)[i] in Names(t, m)
  {
    assert Params(t)[..m][i] == Params(t)[i];
  }

  lemma AllFilled(t: Template, params: Arguments, kwargs: Arguments)
    requires params.Keys == Names(t, |Params(t)|) && forall p :: p in params ==> p in kwargs && params[p] == kwargs[p]
    ensures forall p :: p in Params(t) ==> p in params && p in kwargs
    ensures Format(t, params) == Format(t, kwargs)
  {
    assert Params(t)[..|Params(t)|] == Params(t);
    forall p | p in Params(t) ensures p in Names(t, |Params(t)|) {}
    FormatOnly(t, params, kwargs);
  }

  /** At most one leading set of names can be the one given. */
  lemma LeadingNames(t: Template, given: set<string>, m: nat)
    requires m <= |Params(t)| && NoDuplicates(Params(t)) && Names(t, m) <= given
    requires m < |Params(t)| ==> Params(t)[m] !in given
    ensures (exists n :: 0 <= n <= |Params(t)| && given == Names(t, n)) <==> given == Names(t, m)
  {
    forall n | 0 <= n <= |Params(t)| && given == Names(t, n) ensures n == m {
      if m < n {
        NamesOf(t, n, m);
      } else if n < m {
        NamesOf(t, m, n);
        NamesGrow(t, n);
      }
    }
  }

  class Key {
    const template: Template
    const parameters: seq<string>

    constructor (template: Template)
      ensures this.template == template && parameters == Params(template)
    {
      this.template, parameters := template, Params(template);
    }

    /** The loop both methods start with: takes arguments until one is missing. */
    method Take(kwargs: Arguments) returns (params: Arguments, rest: Arguments, i: nat)
      requires parameters == Params(template) && NoDuplicates(parameters)
      ensures i <= |parameters| && (i < |parameters| ==> parameters[i] !in kwargs)
      ensures rest.Keys == kwargs.Keys - Names(template, i)
      ensures params.Keys == Names(template, i) <= kwargs.Keys && forall p :: p in params ==> params[p] == kwargs[p]
    {
      params, rest, i := map[], kwargs, 0;
      while i < |parameters| && parameters[i] in rest
        invariant i <= |parameters|
        invariant rest.Keys == kwargs.Keys - Names(template, i) && Names(template, i) <= kwargs.Keys
        invariant params.Keys == Names(template, i) && forall p :: p in params ==> params[p] == kwargs[p]
      {
        NamesGrow(template, i);
        params := params[parameters[i] := kwargs[parameters[i]]];
        rest := rest - {parameters[i]};
        i := i + 1;
      }
      if i < |parameters| {
        NamesGrow(template, i);
      }
    }

    /** None stands for a `TypeError`: an argument is missing, or one is not a parameter. */
    method FormatKwargs(kwargs: Arguments) returns (key: Option<string>)
      requires parameters == Params(template) && NoDuplicates(parameters)
      ensures key.Some? <==> kwargs.Keys == Names(template, |parameters|)
      ensures key.Some? ==> forall p :: p in Params(template) ==> p in kwargs
      ensures key.Some? ==> key.value == Format(template, kwargs)
    {
      var params, rest, i := Take(kwargs);
      if i < |parameters| {
        NamesOf(template, |parameters|, i);
        key := None;
      } else if rest.Keys != {} {
        key := None;
      } else {
        AllFilled(template, params, kwargs);
        key := Some(Format(template, params));
      }
    }

    /** The parameters given must be the leading ones; the key is cut before the first one left out. */
    method Prefix(kwargs: Arguments) returns (prefix: Option<string>, ghost m: nat)
      requires parameters == Params(template) && NoDuplicates(parameters)
      ensures m <= |Params(template)|
      ensures prefix.Some? <==> exists n :: 0 <= n <= |Params(template)| && kwargs.Keys == Names(template, n)
      ensures prefix.Some? ==>
        kwargs.Keys == Names(template, m) && (forall p :: p in Params(Cut(template, m)) ==> p in kwargs)
      ensures prefix.Some? ==> prefix.value == Format(Cut(template, m), kwargs)
    {
      var params, rest, i := Take(kwargs);
      m := i;
      LeadingNames(template, kwargs.Keys, i);
      if rest.Keys != {} {
        return None, m;
      }
      var left := kwargs.Keys - Names(template, i);
      assert forall p :: p in kwargs.Keys ==> p in left || p in Names(template, i);
      CutParams(template, i);
      FormatOnly(Cut(template, i), params, kwargs);
      prefix := Some(Format(Cut(template, i), params));
    }
  }
}
