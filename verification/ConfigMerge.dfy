/** Command line options for a tree of configuration values, and the merge of both. */
module ConfigMerge {
  import opened Wrappers

  type Leaf = string

  /** A configuration file: nested dictionaries; every other value is a leaf here. */
  datatype Config = Value(leaf: Leaf) | Dict(entries: map<string, Config>)

  /** A field of a configuration class, as recorded for an option. */
  datatype Field = Field(name: string, default: Option<Leaf>)

  /** A configuration class. */
  datatype Schema = Schema(fields: seq<SchemaField>)

  datatype SchemaField =
    | Plain(name: string, default: Option<Leaf>)
    | ListOf(name: string)
    | Section(name: string, schema: Schema)

  type Path = seq<string>

  function Names(fields: seq<Field>): (path: Path)
    ensures |path| == |fields|
  {
    seq(|fields|, i requires 0 <= i < |fields| => fields[i].name)
  }

  function Replace(s: string, c: char, d: char): (t: string)
    ensures |t| == |s| && forall i :: 0 <= i < |s| ==> t[i] == if s[i] == c then d else s[i]
  {
    seq(|s|, i requires 0 <= i < |s| => if s[i] == c then d else s[i])
  }

  // ---------------------------------------------------------------------------------------------
  // Paths into a configuration
  // ---------------------------------------------------------------------------------------------

  function At(c: Config, path: Path): Option<Config> {
    if path == [] then Some(c)
    else if c.Dict? && path[0] in c.entries then At(c.entries[path[0]], path[1..])
    else None
  }

  predicate IsDictAt(c: Config, path: Path) {
    At(c, path).Some? && At(c, path).value.Dict?
  }

  /** The assignment at the end of a path; None when a dictionary on the way is missing. */
  function Assign(c: Config, path: Path, v: Leaf): Option<Config>
    requires path != []
  {
    if c.Value? then None
    else if |path| == 1 then Some(Dict(c.entries[path[0] := Value(v)]))
    else if path[0] !in c.entries then None
    else
      var sub := Assign(c.entries[path[0]], path[1..], v);
      if sub.None? then None else Some(Dict(c.entries[path[0] := sub.value]))
  }

  predicate Apart(p: Path, q: Path) {
    !(p <= q) && !(q <= p)
  }

  lemma ApartTail(p: Path, q: Path)
    requires p != [] && q != [] && p[0] == q[0]
    ensures Apart(p, q) <==> Apart(p[1..], q[1..])
    ensures p <= q <==> p[1..] <= q[1..]
  {
    assert p == [p[0]] + p[1..] && q == [q[0]] + q[1..];
  }

  lemma {:induction false} AssignWorksIff(c: Config, path: Path, v: Leaf)
    requires path != []
    ensures Assign(c, path, v).Some? <==> IsDictAt(c, path[..|path| - 1])
  {
    if |path| > 1 && c.Dict? && path[0] in c.entries {
      AssignWorksIff(c.entries[path[0]], path[1..], v);
      assert path[..|path| - 1][1..] == path[1..][..|path[1..]| - 1];
    }
  }

  /** An assignment shows at its path, and nowhere apart from it. */
  lemma {:induction false} AssignShows(c: Config, path: Path, v: Leaf, q: Path)
    requires path != [] && Assign(c, path, v).Some?
    ensures var d := Assign(c, path, v).value;
      && (q == path ==> At(d, q) == Some(Value(v)))
      && (Apart(path, q) ==> At(d, q) == At(c, q))
      && (q < path ==> IsDictAt(d, q) && IsDictAt(c, q))
  {
    if q != [] && q[0] == path[0] && |path| > 1 {
      ApartTail(path, q);
      ApartTail(q, path);
      AssignShows(c.entries[path[0]], path[1..], v, q[1..]);
    }
  }

  /** Assignments apart from each other may be made in either order. */
  lemma {:induction false} AssignsCommute(c: Config, p: Path, v: Leaf, q: Path, w: Leaf)
    requires p != [] && q != [] && Apart(p, q)
    requires Assign(c, p, v).Some? && Assign(c, q, w).Some?
    ensures Assign(Assign(c, p, v).value, q, w) == Assign(Assign(c, q, w).value, p, v)
    ensures Assign(Assign(c, p, v).value, q, w).Some?
  {
    var x, y := Assign(c, p, v).value, Assign(c, q, w).value;
    if p[0] == q[0] {
      ApartTail(p, q);
      AssignsCommute(c.entries[p[0]], p[1..], v, q[1..], w);
      var sub := Assign(Assign(c.entries[p[0]], p[1..], v).value, q[1..], w).value;
      assert x.entries[q[0] := sub] == c.entries[p[0] := sub] == y.entries[p[0] := sub];
    } else {
      assert Assign(x, q, w).value.entries == Assign(y, p, v).value.entries;
    }
  }

  // ---------------------------------------------------------------------------------------------
  // Options
  // ---------------------------------------------------------------------------------------------

  /** Names of the fields joined by dashes, underscores turned into dashes. */
  function OptionName(fields: seq<Field>): string {
    if fields == [] then ""
    else if |fields| == 1 then Replace(fields[0].name, '_', '-')
    else Replace(fields[0].name, '_', '-') + "-" + OptionName(fields[1..])
  }

  /** The name of an option is the dashed names along its hierarchy, however it is taken apart, joined by dashes. */
  lemma {:induction false} OptionNameJoins(p: seq<Field>, q: seq<Field>)
    requires p != [] && q != []
    ensures OptionName(p + q) == OptionName(p) + "-" + OptionName(q)
    ensures |p| == 1 ==> OptionName(p) == Replace(p[0].name, '_', '-')
  {
    assert p == [p[0]] + p[1..];
    assert (p + q)[1..] == p[1..] + q;
    if |p| == 1 {
      assert p[1..] + q == q;
    } else {
      OptionNameJoins(p[1..], q);
      var head, rest := Replace(p[0].name, '_', '-'), OptionName(p[1..]);
      assert head + "-" + (rest + "-" + OptionName(q)) == (head + "-" + rest) + "-" + OptionName(q);
    }
  }

  lemma {:induction false} NoUnderscore(fields: seq<Field>)
    ensures '_' !in OptionName(fields)
  {
    if fields != [] {
      assert '_' !in Replace(fields[0].name, '_', '-');
      NoUnderscore(fields[1..]);
    }
  }

  ghost predicate DistinctNames(schema: Schema) {
    && (forall i, j :: 0 <= i < j < |schema.fields| ==> schema.fields[i].name != schema.fields[j].name)
    && (forall i :: 0 <= i < |schema.fields| && schema.fields[i].Section? ==> DistinctNames(schema.fields[i].schema))
  }

  /** The hierarchies of fields down to a value that is no list, from one field of the class. */
  ghost predicate LeafVia(f: SchemaField, fields: seq<Field>)
    decreases f, 0
  {
    match f
    case Plain(name, default) => fields == [Field(name, default)]
    case ListOf(_) => false
    case Section(name, schema) => fields != [] && fields[0] == Field(name, None) && LeafOf(schema, fields[1..])
  }

  ghost predicate LeafOf(schema: Schema, fields: seq<Field>)
    decreases schema, 1
  {
    exists i :: 0 <= i < |schema.fields| && LeafVia(schema.fields[i], fields)
  }

  /** No recorded hierarchy is the beginning of another one. */
  lemma {:induction false} LeavesApart(schema: Schema, p: seq<Field>, q: seq<Field>)
    requires DistinctNames(schema) && LeafOf(schema, p) && LeafOf(schema, q)
    ensures p != q ==> Apart(Names(p), Names(q))
    decreases schema
  {
    var i :| 0 <= i < |schema.fields| && LeafVia(schema.fields[i], p);
    var j :| 0 <= j < |schema.fields| && LeafVia(schema.fields[j], q);
    assert Names(p)[0] == schema.fields[i].name && Names(q)[0] == schema.fields[j].name;
    if i == j && schema.fields[i].Section? {
      LeavesApart(schema.fields[i].schema, p[1..], q[1..]);
      assert p == [p[0]] + p[1..] && q == [q[0]] + q[1..];
      assert Names(p)[1..] == Names(p[1..]) && Names(q)[1..] == Names(q[1..]);
      ApartTail(Names(p), Names(q));
    } else if i != j {
      assert Names(p)[0] != Names(q)[0];
    }
  }

  /** An option parser refuses an option it already has. */
  class ArgumentParser {
    var options: set<string>

    constructor ()
      ensures options == {}
    {
      options := {};
    }

    method AddArgument(name: string) returns (ok: bool)
      modifies this
      ensures ok <==> name !in old(options)
      ensures options == old(options) + {name}
    {
      ok := name !in options;
      options := options + {name};
    }
  }

  type Mapping = map<string, seq<Field>>

  ghost predicate LeafOfFirst(fs: seq<SchemaField>, n: nat, fields: seq<Field>)
    requires n <= |fs|
  {
    exists i :: 0 <= i < n && LeafVia(fs[i], fields)
  }

  /** The recorded options are the leaves below the first `n` fields, each under its name. */
  ghost predicate Records(mapping: Mapping, parents: seq<Field>, fs: seq<SchemaField>, n: nat)
    requires n <= |fs|
  {
    && (forall fields :: LeafOfFirst(fs, n, fields) ==> IsRecorded(mapping, parents + fields))
    && (forall name :: name in mapping ==>
      exists fields ::
        LeafOfFirst(fs, n, fields) && mapping[name] == parents + fields && name == OptionName(parents + fields))
  }

  predicate IsRecorded(mapping: Mapping, fields: seq<Field>) {
    OptionName(fields) in mapping && mapping[OptionName(fields)] == fields
  }

  lemma LeavesGrow(fs: seq<SchemaField>, n: nat, fields: seq<Field>)
    requires n < |fs|
    ensures LeafOfFirst(fs, n + 1, fields) <==> LeafOfFirst(fs, n, fields) || LeafVia(fs[n], fields)
  {
  }

  lemma RecordsList(mapping: Mapping, parents: seq<Field>, fs: seq<SchemaField>, n: nat)
    requires n < |fs| && fs[n].ListOf? && Records(mapping, parents, fs, n)
    ensures Records(mapping, parents, fs, n + 1)
  {
    forall fields ensures LeafOfFirst(fs, n + 1, fields) <==> LeafOfFirst(fs, n, fields) {
      LeavesGrow(fs, n, fields);
    }
  }

  lemma RecordsPlain(mapping: Mapping, parents: seq<Field>, fs: seq<SchemaField>, n: nat, leaf: Field)
    requires n < |fs| && fs[n] == Plain(leaf.name, leaf.default) && Records(mapping, parents, fs, n)
    requires OptionName(parents + [leaf]) !in mapping
    ensures Records(mapping[OptionName(parents + [leaf]) := parents + [leaf]], parents, fs, n + 1)
  {
    forall fields ensures LeafOfFirst(fs, n + 1, fields) <==> LeafOfFirst(fs, n, fields) || fields == [leaf] {
      LeavesGrow(fs, n, fields);
    }
  }

  lemma RecordsSection(mapping: Mapping, sub: Mapping, parents: seq<Field>, fs: seq<SchemaField>, n: nat)
    requires n < |fs| && fs[n].Section? && Records(mapping, parents, fs, n) && mapping.Keys !! sub.Keys
    requires Records(sub, parents + [Field(fs[n].name, None)], fs[n].schema.fields, |fs[n].schema.fields|)
    ensures Records(sub + mapping, parents, fs, n + 1)
  {
    var head, schema := Field(fs[n].name, None), fs[n].schema;
    var both := sub + mapping;
    forall fields | LeafOfFirst(fs, n + 1, fields) ensures IsRecorded(both, parents + fields) {
      LeavesGrow(fs, n, fields);
      if !LeafOfFirst(fs, n, fields) {
        assert LeafOfFirst(schema.fields, |schema.fields|, fields[1..]);
        assert parents + fields == (parents + [head]) + fields[1..];
      }
    }
    forall name | name in both
      ensures exists fields ::
        LeafOfFirst(fs, n + 1, fields) && both[name] == parents + fields && name == OptionName(parents + fields)
    {
      if name in mapping {
        var fields :|
          LeafOfFirst(fs, n, fields) && mapping[name] == parents + fields && name == OptionName(parents + fields);
        LeavesGrow(fs, n, fields);
      } else {
        var fields := LeafOfSection(sub, parents, fs, n, name);
      }
    }
  }

  lemma LeafOfSection(sub: Mapping, parents: seq<Field>, fs: seq<SchemaField>, n: nat, name: string)
    returns (fields: seq<Field>)
    requires n < |fs| && fs[n].Section? && name in sub
    requires Records(sub, parents + [Field(fs[n].name, None)], fs[n].schema.fields, |fs[n].schema.fields|)
    ensures LeafOfFirst(fs, n + 1, fields) && sub[name] == parents + fields && name == OptionName(parents + fields)
  {
    var head, schema := Field(fs[n].name, None), fs[n].schema;
    var rest :| LeafOfFirst(schema.fields, |schema.fields|, rest) && sub[name] == (parents + [head]) + rest
      && name == OptionName((parents + [head]) + rest);
    fields := [head] + rest;
    assert fields[1..] == rest && parents + fields == (parents + [head]) + rest;
    assert LeafVia(fs[n], fields);
    LeavesGrow(fs, n, fields);
  }

  /** Adds an option for every leaf; None if the parser refuses one. */
  method AddOptArgs(parser: ArgumentParser, schema: Schema, parents: seq<Field>) returns (mapping: Option<Mapping>)
    modifies parser
    ensures mapping.Some? ==> Records(mapping.value, parents, schema.fields, |schema.fields|)
    ensures mapping.Some? ==>
      mapping.value.Keys !! old(parser.options) && parser.options == old(parser.options) + mapping.value.Keys
    decreases schema
  {
    var options: Mapping := map[];
    for i := 0 to |schema.fields|
      invariant Records(options, parents, schema.fields, i)
      invariant options.Keys !! old(parser.options) && parser.options == old(parser.options) + options.Keys
    {
      match schema.fields[i] {
        case ListOf(_) => RecordsList(options, parents, schema.fields, i);
        case Section(name, sub) =>
          var subOptions := AddOptArgs(parser, sub, parents + [Field(name, None)]);
          if subOptions.None? {
            return None;
          }
          RecordsSection(options, subOptions.value, parents, schema.fields, i);
          options := subOptions.value + options;
        case Plain(name, default) =>
          var newParents := parents + [Field(name, default)];
          var option := OptionName(newParents);
          var ok := parser.AddArgument(option);
          if !ok {
            return None;
          }
          RecordsPlain(options, parents, schema.fields, i, Field(name, default));
          options := options[option := newParents];
      }
    }
    mapping := Some(options);
  }

  // ---------------------------------------------------------------------------------------------
  // The command line wins
  // ---------------------------------------------------------------------------------------------

  /** Recorded hierarchies are not empty, and none is the beginning of another. */
  ghost predicate PathsApart(mapping: Mapping) {
    && (forall o :: o in mapping ==> mapping[o] != [])
    && (forall o, o' {:trigger Apart(Names(mapping[o]), Names(mapping[o']))} ::
      o in mapping && o' in mapping && o != o' ==> Apart(Names(mapping[o]), Names(mapping[o'])))
  }

  /** What `AddOptArgs` records for a whole configuration class has that property. */
  lemma RecordedPathsApart(mapping: Mapping, schema: Schema)
    requires DistinctNames(schema) && Records(mapping, [], schema.fields, |schema.fields|)
    ensures PathsApart(mapping)
  {
    forall o | o in mapping ensures LeafOf(schema, mapping[o]) && o == OptionName(mapping[o]) && mapping[o] != [] {
      var fields :|
        && LeafOfFirst(schema.fields, |schema.fields|, fields)
        && mapping[o] == [] + fields && o == OptionName([] + fields);
      assert [] + fields == fields;
    }
    forall o, o' | o in mapping && o' in mapping && o != o' ensures Apart(Names(mapping[o]), Names(mapping[o'])) {
      LeavesApart(schema, mapping[o], mapping[o']);
    }
  }

  type Args = map<string, Option<Leaf>>

  /** The parser names options with underscores. */
  function OptionOf(arg: string): string {
    Replace(arg, '_', '-')
  }

  /** The argument was set, belongs to the mapper, and differs from the default. */
  predicate Chosen(mapping: Mapping, args: Args, arg: string) {
    && arg in args && args[arg].Some? && OptionOf(arg) in mapping && mapping[OptionOf(arg)] != []
    && mapping[OptionOf(arg)][|mapping[OptionOf(arg)]| - 1].default != args[arg]
  }

  function PathOf(mapping: Mapping, arg: string): Path {
    if OptionOf(arg) in mapping then Names(mapping[OptionOf(arg)]) else []
  }

  /** `argparse` leaves no dash in the names of its results, so different arguments are different options. */
  lemma OptionIdentifies(a: string, b: string)
    requires '-' !in a && '-' !in b
    ensures OptionOf(a) == OptionOf(b) ==> a == b
  {
    BackAgain(a);
    BackAgain(b);
  }

  lemma BackAgain(a: string)
    requires '-' !in a
    ensures Replace(OptionOf(a), '-', '_') == a
  {
    assert forall i :: 0 <= i < |a| ==> a[i] in a;
  }

  /** The parser calls the result of an option by its name with underscores, and by that the option is found again. */
  lemma ResultFindsOption(fields: seq<Field>)
    ensures '-' !in Replace(OptionName(fields), '-', '_')
    ensures OptionOf(Replace(OptionName(fields), '-', '_')) == OptionName(fields)
  {
    var name := OptionName(fields);
    NoUnderscore(fields);
    assert forall i :: 0 <= i < |name| ==> name[i] in name;
  }

  method LoadCommandLine(mapping: Mapping, args: Args) returns (modified: map<string, Leaf>)
    ensures forall arg :: arg in modified <==> Chosen(mapping, args, arg)
    ensures forall arg :: arg in modified ==> arg in args && args[arg] == Some(modified[arg])
  {
    modified := map[];
    var todo := args.Keys;
    while todo != {}
      invariant todo <= args.Keys
      invariant forall arg :: arg in modified <==> arg !in todo && Chosen(mapping, args, arg)
      invariant forall arg :: arg in modified ==> args[arg] == Some(modified[arg])
      decreases todo
    {
      var arg :| arg in todo;
      todo := todo - {arg};
      if args[arg].Some? && OptionOf(arg) in mapping && mapping[OptionOf(arg)] != [] {
        var field := mapping[OptionOf(arg)];
        if field[|field| - 1].default != args[arg] {
          modified := modified[arg := args[arg].value];
        }
      }
    }
  }

  /** The configuration shows the given values, is otherwise as it was loaded, and has the same dictionaries. */
  ghost predicate Merged(mapping: Mapping, values: map<string, Leaf>, loaded: Config, c: Config) {
    && (forall arg :: arg in values ==> At(c, PathOf(mapping, arg)) == Some(Value(values[arg])))
    && (forall q {:trigger ApartFromAll(mapping, values, q)} :: ApartFromAll(mapping, values, q) ==>
      At(c, q) == At(loaded, q))
    && (forall q {:trigger NotInside(mapping, values, q)} :: NotInside(mapping, values, q) ==>
      (IsDictAt(c, q) <==> IsDictAt(loaded, q)))
  }

  /**
   * What the configuration shows for each option on the command line: the argument if it is set and not the default,
   * and otherwise what was loaded.
   */
  ghost predicate ArgumentsWin(mapping: Mapping, args: Args, loaded: Config, c: Config) {
    forall arg {:trigger OptionOf(arg)} ::
      arg in args && OptionOf(arg) in mapping && mapping[OptionOf(arg)] != [] ==>
        var fields := mapping[OptionOf(arg)];
        At(c, Names(fields)) ==
          if args[arg].None? || args[arg] == fields[|fields| - 1].default then At(loaded, Names(fields))
          else Some(Value(args[arg].value))
  }

  lemma ChosenWin(mapping: Mapping, args: Args, modified: map<string, Leaf>, loaded: Config, c: Config)
    requires PathsApart(mapping) && forall arg :: arg in args ==> '-' !in arg
    requires forall arg :: arg in modified <==> Chosen(mapping, args, arg)
    requires forall arg :: arg in modified ==> arg in args && args[arg] == Some(modified[arg])
    requires Merged(mapping, modified, loaded, c)
    ensures ArgumentsWin(mapping, args, loaded, c)
  {
    forall arg | arg in args && OptionOf(arg) in mapping && arg !in modified
      ensures At(c, PathOf(mapping, arg)) == At(loaded, PathOf(mapping, arg))
    {
      KnownApart(mapping, modified, arg);
    }
  }

  ghost predicate ApartFromAll(mapping: Mapping, values: map<string, Leaf>, q: Path) {
    forall arg :: arg in values ==> Apart(PathOf(mapping, arg), q)
  }

  ghost predicate NotInside(mapping: Mapping, values: map<string, Leaf>, q: Path) {
    forall arg :: arg in values ==> Apart(PathOf(mapping, arg), q) || q < PathOf(mapping, arg)
  }

  ghost predicate Known(mapping: Mapping, values: map<string, Leaf>) {
    forall arg :: arg in values ==> '-' !in arg && OptionOf(arg) in mapping
  }

  lemma KnownApart(mapping: Mapping, values: map<string, Leaf>, arg: string)
    requires PathsApart(mapping) && Known(mapping, values) && arg !in values && '-' !in arg && OptionOf(arg) in mapping
    ensures PathOf(mapping, arg) != [] && ApartFromAll(mapping, values, PathOf(mapping, arg))
    ensures NotInside(mapping, values, PathOf(mapping, arg)[..|PathOf(mapping, arg)| - 1])
  {
    var path := PathOf(mapping, arg);
    forall other | other in values
      ensures Apart(PathOf(mapping, other), path)
      ensures Apart(PathOf(mapping, other), path[..|path| - 1]) || path[..|path| - 1] < PathOf(mapping, other)
    {
      OptionIdentifies(arg, other);
    }
  }

  lemma MergeOne(mapping: Mapping, values: map<string, Leaf>, loaded: Config, c: Config, arg: string, v: Leaf)
    requires PathsApart(mapping) && Known(mapping, values) && arg !in values && '-' !in arg && OptionOf(arg) in mapping
    requires Merged(mapping, values, loaded, c) && PathOf(mapping, arg) != []
    requires Assign(c, PathOf(mapping, arg), v).Some?
    ensures Merged(mapping, values[arg := v], loaded, Assign(c, PathOf(mapping, arg), v).value)
  {
    var path, after := PathOf(mapping, arg), values[arg := v];
    var d := Assign(c, path, v).value;
    KnownApart(mapping, values, arg);
    AssignShows(c, path, v, path);
    forall other | other in values ensures At(d, PathOf(mapping, other)) == Some(Value(values[other])) {
      AssignShows(c, path, v, PathOf(mapping, other));
    }
    forall q | ApartFromAll(mapping, after, q) ensures At(d, q) == At(loaded, q) {
      assert arg in after;
      assert ApartFromAll(mapping, values, q) by { assert forall a :: a in values ==> a in after; }
      AssignShows(c, path, v, q);
    }
    forall q | NotInside(mapping, after, q) ensures IsDictAt(d, q) <==> IsDictAt(loaded, q) {
      assert arg in after;
      assert NotInside(mapping, values, q) by { assert forall a :: a in values ==> a in after; }
      AssignShows(c, path, v, q);
    }
  }

  /** The section that an argument belongs to is there. */
  ghost predicate HasSection(mapping: Mapping, loaded: Config, arg: string) {
    PathOf(mapping, arg) != [] && IsDictAt(loaded, PathOf(mapping, arg)[..|PathOf(mapping, arg)| - 1])
  }

  ghost predicate AllSections(mapping: Mapping, loaded: Config, args: set<string>) {
    forall arg :: arg in args ==> HasSection(mapping, loaded, arg)
  }

  /**
   * One option: down the hierarchy to its section, and the assignment there. Before and after the other arguments
   * are taken, that works exactly if the section was loaded.
   */
  method MergeArgument(
      mapping: Mapping, ghost done: map<string, Leaf>, ghost loaded: Config, c: Config, arg: string, v: Leaf)
    returns (updated: Option<Config>)
    requires PathsApart(mapping) && Known(mapping, done) && arg !in done && '-' !in arg && OptionOf(arg) in mapping
    requires Merged(mapping, done, loaded, c)
    ensures updated.Some? <==> HasSection(mapping, loaded, arg)
    ensures updated.Some? ==> Merged(mapping, done[arg := v], loaded, updated.value)
  {
    KnownApart(mapping, done, arg);
    AssignWorksIff(c, PathOf(mapping, arg), v);
    updated := Assign(c, PathOf(mapping, arg), v);
    if updated.Some? {
      MergeOne(mapping, done, loaded, c, arg, v);
    }
  }

  /**
   * The merge fails exactly if a section that a chosen argument belongs to is missing. Otherwise every chosen
   * argument shows at its place and nothing apart from these places changes, in whatever order they are taken.
   */
  method ReplaceFromCli(mapping: Mapping, loaded: Config, args: Args)
    returns (config: Option<Config>, modified: map<string, Leaf>)
    requires PathsApart(mapping) && forall arg :: arg in args ==> '-' !in arg
    ensures forall arg :: arg in modified <==> Chosen(mapping, args, arg)
    ensures forall arg :: arg in modified ==> arg in args && args[arg] == Some(modified[arg])
    ensures config.Some? <==> AllSections(mapping, loaded, modified.Keys)
    ensures config.Some? ==> Merged(mapping, modified, loaded, config.value)
    ensures config.Some? ==> ArgumentsWin(mapping, args, loaded, config.value)
  {
    modified := LoadCommandLine(mapping, args);
    assert Known(mapping, modified);
    config := MergeAll(mapping, loaded, modified);
    if config.Some? {
      ChosenWin(mapping, args, modified, loaded, config.value);
    }
  }

  /** The loop over the options set, in any order. */
  method MergeAll(mapping: Mapping, loaded: Config, modified: map<string, Leaf>) returns (config: Option<Config>)
    requires PathsApart(mapping) && Known(mapping, modified)
    ensures config.Some? <==> AllSections(mapping, loaded, modified.Keys)
    ensures config.Some? ==> Merged(mapping, modified, loaded, config.value)
  {
    var c, todo := loaded, modified.Keys;
    ghost var done: map<string, Leaf> := map[];
    while todo != {}
      invariant todo !! done.Keys && modified.Keys == todo + done.Keys
      invariant AllSections(mapping, loaded, done.Keys) && forall arg :: arg in done ==> done[arg] == modified[arg]
      invariant Merged(mapping, done, loaded, c)
      decreases todo
    {
      var arg :| arg in todo;
      var updated := MergeArgument(mapping, done, loaded, c, arg, modified[arg]);
      if updated.None? {
        return None;
      }
      c, todo, done := updated.value, todo - {arg}, done[arg := modified[arg]];
    }
    assert done == modified;
    config := Some(c);
  }

  // ---------------------------------------------------------------------------------------------
  // Hyphens in keys
  // ---------------------------------------------------------------------------------------------

  function Underscored(key: string): (k: string)
    ensures '-' !in k && ('-' !in key ==> k == key)
  {
    var k := Replace(key, '-', '_');
    assert '-' !in key ==> forall i :: 0 <= i < |k| ==> key[i] in key && k[i] == key[i];
    k
  }

  /** No dictionary key at any depth has a hyphen. */
  ghost predicate Clean(c: Config) {
    c.Dict? ==> forall k :: k in c.entries ==> '-' !in k && Clean(c.entries[k])
  }

  ghost predicate DeepAtMost(c: Config, n: nat) {
    c.Dict? ==> n > 0 && forall k :: k in c.entries ==> DeepAtMost(c.entries[k], n - 1)
  }

  /** The value kept under `k` comes from one of the keys, from a hyphenated one if there is any. */
  ghost predicate ComesFrom(c: Config, from: set<string>, k: string, v: Config)
    requires c.Dict?
    decreases c, 1
  {
    exists o :: o in from && IsSource(c, from, k, o, v)
  }

  ghost predicate IsSource(c: Config, from: set<string>, k: string, o: string, v: Config)
    requires c.Dict?
    decreases c, 0
  {
    && o in c.entries && Underscored(o) == k && Renamed(c.entries[o], v)
    && (o == k ==> forall p :: p in from && Underscored(p) == k ==> p == k)
  }

  /** Every key is kept without its hyphens, every value stems from a key of that name, and leaves are the same. */
  ghost predicate Renamed(c: Config, r: Config)
    decreases c, 2
  {
    match c
    case Value(_) => r == c
    case Dict(d) =>
      && r.Dict? && (forall o :: o in d ==> Underscored(o) in r.entries)
      && forall k :: k in r.entries ==> ComesFrom(c, d.Keys, k, r.entries[k])
  }

  lemma HasDepth(c: Config) returns (n: nat)
    ensures DeepAtMost(c, n)
  {
    n := 0;
    if c.Dict? {
      var todo := c.entries.Keys;
      while todo != {}
        invariant todo <= c.entries.Keys
        invariant forall k :: k in c.entries && k !in todo ==> DeepAtMost(c.entries[k], n)
        decreases todo
      {
        var k :| k in todo;
        var m := HasDepth(c.entries[k]);
        forall o | o in c.entries && o !in todo ensures DeepAtMost(c.entries[o], n + m) {
          Deeper(c.entries[o], n, n + m);
        }
        Deeper(c.entries[k], m, n + m);
        n, todo := n + m, todo - {k};
      }
      n := n + 1;
    }
  }

  lemma {:induction false} Deeper(c: Config, n: nat, m: nat)
    requires DeepAtMost(c, n) && n <= m
    ensures DeepAtMost(c, m)
    decreases c
  {
    if c.Dict? {
      forall k | k in c.entries ensures DeepAtMost(c.entries[k], m - 1) {
        Deeper(c.entries[k], n - 1, m - 1);
      }
    }
  }

  /** Every key is there, under its old name or its new one. */
  ghost predicate KeysKept(c: Config, todo: set<string>, copy: map<string, Config>)
    requires c.Dict?
  {
    forall o {:trigger o in c.entries} :: o in c.entries ==> (if o in todo then o else Underscored(o)) in copy
  }

  /**
   * While the keys are replaced: those done are cleaned, the others as they were unless a hyphenated one replaced
   * them.
   */
  ghost predicate Replacing(c: Config, todo: set<string>, copy: map<string, Config>)
    requires c.Dict?
  {
    && KeysKept(c, todo, copy)
    && (forall k {:trigger KeyState(c, todo, k, copy[k])} :: k in copy ==> KeyState(c, todo, k, copy[k]))
  }

  ghost predicate DeepValues(copy: map<string, Config>, n: nat) {
    n > 0 && forall k :: k in copy ==> DeepAtMost(copy[k], n - 1)
  }

  ghost predicate KeyState(c: Config, todo: set<string>, k: string, v: Config)
    requires c.Dict?
  {
    var done := c.entries.Keys - todo;
    if Reached(done, k) then Replaced(c, done, k, v) else Unreplaced(c, todo, k, v)
  }

  ghost predicate Reached(done: set<string>, k: string) {
    exists o :: o in done && Underscored(o) == k
  }

  ghost predicate Unreplaced(c: Config, todo: set<string>, k: string, v: Config)
    requires c.Dict?
  {
    k in todo && k in c.entries && v == c.entries[k]
  }

  ghost predicate Replaced(c: Config, done: set<string>, k: string, v: Config)
    requires c.Dict?
  {
    '-' !in k && Clean(v) && ComesFrom(c, done, k, v)
  }

  /** One more key done leaves values alone that were made under another name. */
  lemma StillReplaced(c: Config, done: set<string>, key: string, k: string, v: Config)
    requires c.Dict? && Replaced(c, done, k, v) && Underscored(key) != k
    ensures Replaced(c, done + {key}, k, v)
  {
    var o :| o in done && IsSource(c, done, k, o, v);
    assert IsSource(c, done + {key}, k, o, v);
  }

  lemma NowReplaced(c: Config, todo: set<string>, key: string, v: Config, value: Config)
    requires c.Dict? && todo <= c.entries.Keys && key in todo
    requires Clean(value) && Renamed(v, value) && (Clean(v) ==> value == v)
    requires KeyState(c, todo, key, v)
    ensures Replaced(c, c.entries.Keys - todo + {key}, Underscored(key), value)
  {
    var done := c.entries.Keys - todo;
    if Reached(done, key) {
      var o :| o in done && IsSource(c, done, key, o, v);
      assert IsSource(c, done + {key}, key, o, value);
    } else {
      assert forall p :: p in done ==> Underscored(p) != key;
      assert IsSource(c, done + {key}, Underscored(key), key, value);
    }
  }

  lemma OtherKeyState(c: Config, todo: set<string>, key: string, k: string, v: Config)
    requires c.Dict? && todo <= c.entries.Keys && key in todo && KeyState(c, todo, k, v)
    requires k != Underscored(key) && k != key
    ensures KeyState(c, todo - {key}, k, v)
  {
    var done := c.entries.Keys - todo;
    assert c.entries.Keys - (todo - {key}) == done + {key};
    assert Reached(done + {key}, k) <==> Reached(done, k);
    if Reached(done, k) {
      StillReplaced(c, done, key, k, v);
    }
  }

  lemma NowKeyState(c: Config, todo: set<string>, key: string, v: Config, value: Config)
    requires c.Dict? && todo <= c.entries.Keys && key in todo && KeyState(c, todo, key, v)
    requires Clean(value) && Renamed(v, value) && (Clean(v) ==> value == v)
    ensures KeyState(c, todo - {key}, Underscored(key), value)
  {
    var done := c.entries.Keys - todo;
    assert c.entries.Keys - (todo - {key}) == done + {key};
    assert key in done + {key};
    NowReplaced(c, todo, key, v, value);
  }

  lemma ReplaceStep(c: Config, todo: set<string>, copy: map<string, Config>, key: string, value: Config)
    requires c.Dict? && todo <= c.entries.Keys && Replacing(c, todo, copy) && key in todo && key in copy
    requires Clean(value) && Renamed(copy[key], value) && (Clean(copy[key]) ==> value == copy[key])
    ensures Replacing(c, todo - {key}, Stored(copy, key, value))
  {
    var next := Stored(copy, key, value);
    assert KeyState(c, todo, key, copy[key]);
    NowKeyState(c, todo, key, copy[key], value);
    forall k | k in next ensures KeyState(c, todo - {key}, k, next[k]) {
      if k != Underscored(key) {
        assert KeyState(c, todo, k, copy[k]);
        OtherKeyState(c, todo, key, k, next[k]);
      }
    }
    KeysStayKept(c, todo, copy, key, value);
  }

  lemma KeysStayKept(c: Config, todo: set<string>, copy: map<string, Config>, key: string, value: Config)
    requires c.Dict? && key in todo && KeysKept(c, todo, copy)
    ensures KeysKept(c, todo - {key}, Stored(copy, key, value))
  {
    var next := Stored(copy, key, value);
    forall o | o in c.entries ensures (if o in todo - {key} then o else Underscored(o)) in next {
      assert (if o in todo then o else Underscored(o)) in copy;
    }
  }

  lemma AllReplaced(c: Config, copy: map<string, Config>)
    requires c.Dict? && Replacing(c, {}, copy)
    ensures Clean(Dict(copy)) && Renamed(c, Dict(copy))
  {
    assert c.entries.Keys - {} == c.entries.Keys;
    forall k | k in copy ensures Replaced(c, c.entries.Keys, k, copy[k]) {
      assert KeyState(c, {}, k, copy[k]);
    }
    forall o | o in c.entries ensures Underscored(o) in copy {}
  }

  lemma DeepStep(copy: map<string, Config>, n: nat, key: string, value: Config)
    requires DeepValues(copy, n) && DeepAtMost(value, n - 1)
    ensures DeepValues(Stored(copy, key, value), n)
  {
  }

  lemma DeepDict(c: Config, copy: map<string, Config>, n: nat)
    ensures c.Dict? && DeepAtMost(c, n) ==> DeepValues(c.entries, n)
    ensures DeepValues(copy, n) ==> DeepAtMost(Dict(copy), n)
  {
  }

  /** A clean dictionary keeps every key. */
  lemma CleanStep(c: Config, key: string)
    requires c.Dict? && Clean(c) && key in c.entries
    ensures Clean(c.entries[key]) && Stored(c.entries, key, c.entries[key]) == c.entries
  {
  }

  lemma NothingReplaced(c: Config)
    requires c.Dict?
    ensures Replacing(c, c.entries.Keys, c.entries)
  {
    assert c.entries.Keys - c.entries.Keys == {};
    forall k | k in c.entries ensures KeyState(c, c.entries.Keys, k, c.entries[k]) {}
  }

  /** The value under its new key, and the old one gone if it was another. */
  function Stored(copy: map<string, Config>, key: string, value: Config): map<string, Config> {
    var after := copy[Underscored(key) := value];
    if Underscored(key) != key then after - {key} else after
  }

  method ReplaceHyphen(dictionary: Config, ghost n: nat) returns (copy: Config)
    requires DeepAtMost(dictionary, n)
    ensures Clean(copy) && DeepAtMost(copy, n) && Renamed(dictionary, copy)
    ensures Clean(dictionary) ==> copy == dictionary
    decreases n, 1
  {
    if dictionary.Value? {
      return dictionary;
    }
    var entries := dictionary.entries;
    var todo := entries.Keys;
    NothingReplaced(dictionary);
    DeepDict(dictionary, entries, n);
    while todo != {}
      invariant todo <= dictionary.entries.Keys && Replacing(dictionary, todo, entries) && DeepValues(entries, n)
      invariant Clean(dictionary) ==> entries == dictionary.entries
      decreases todo
    {
      var oldKey :| oldKey in todo;
      assert oldKey in dictionary.entries && oldKey in entries;
      entries := ReplaceKey(dictionary, entries, todo, oldKey, n);
      todo := todo - {oldKey};
    }
    AllReplaced(dictionary, entries);
    DeepDict(dictionary, entries, n);
    copy := Dict(entries);
  }

  /** One round of the loop. */
  method ReplaceKey(
      ghost dictionary: Config, copy: map<string, Config>, ghost todo: set<string>, oldKey: string, ghost n: nat)
    returns (entries: map<string, Config>)
    requires dictionary.Dict? && todo <= dictionary.entries.Keys && oldKey in todo && oldKey in copy
    requires Replacing(dictionary, todo, copy) && DeepValues(copy, n)
    ensures Replacing(dictionary, todo - {oldKey}, entries) && DeepValues(entries, n)
    ensures Clean(dictionary) && copy == dictionary.entries ==> entries == copy
    decreases n, 0
  {
    var newKey := Underscored(oldKey);
    var value := ReplaceHyphen(copy[oldKey], n - 1);
    ReplaceStep(dictionary, todo, copy, oldKey, value);
    DeepStep(copy, n, oldKey, value);
    if Clean(dictionary) && copy == dictionary.entries {
      CleanStep(dictionary, oldKey);
    }
    entries := copy[newKey := value];
    if newKey != oldKey {
      entries := entries - {oldKey};
    }
  }

  /** Hyphens first, then the command line. */
  method Merge(mapping: Mapping, config: Config, args: Args)
    returns (merged: Option<Config>, ghost processed: Config, modified: map<string, Leaf>)
    requires PathsApart(mapping) && forall arg :: arg in args ==> '-' !in arg
    ensures Clean(processed) && Renamed(config, processed) && (Clean(config) ==> processed == config)
    ensures forall arg :: arg in modified <==> Chosen(mapping, args, arg)
    ensures merged.Some? <==> AllSections(mapping, processed, modified.Keys)
    ensures merged.Some? ==> Merged(mapping, modified, processed, merged.value)
    ensures merged.Some? ==> ArgumentsWin(mapping, args, processed, merged.value)
  {
    ghost var n := HasDepth(config);
    var loaded := ReplaceHyphen(config, n);
    processed := loaded;
    merged, modified := ReplaceFromCli(mapping, loaded, args);
  }
}
