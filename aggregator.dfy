/**
 * The composite query node of lib/aggregator/index.js: an ordered list of
 * child queries merged by a named combination strategy, with a lazily
 * filled result table, optional post-processing steps and a default print
 * style.
 *
 * The child queries, tables, printers and strategy bodies belong to other
 * modules of the program. They appear here as abstract types and as the
 * functions of an `Env` value, so the model fixes only what this file does
 * with them.
 */
module Aggregator {
  import opened Wrappers
  import Strings

  type Descriptor  // a parsed sub-expression, as handed to the builder
  type Query       // a child query node, leaf or composite
  type Table       // a materialized result table
  type Dimension   // the shape descriptor of a table or a query
  type Param       // an argument of a table operation or a transformation
  type Rendered    // whatever a printer or a child's `print` produces
  type Url

  /** The entries of the combination-strategy registry: the four built-in ones and any registered later. */
  datatype Strategy = Concat | Ratio | Pct | Sum | Plugin(id: nat)

  /** The transformation methods defined on the prototype at the end of the file. */
  datatype Transformation = Raw | Interval | AbsTime | RelTime | Group | Filter | Tidy

  /** A post-processing step: the name of a table method and its arguments. */
  datatype PostOp = PostOp(func: string, params: seq<Param>)

  /** What a strategy writes on the node it runs on: the table, and possibly `_dimension`. */
  datatype Merged = Merged(table: Table, dimension: Option<Dimension>)

  /** The constructor's argument. */
  datatype Conf = Conf(
    body: seq<Descriptor>,
    aggregator: string,
    printStyle: Option<string>,
    postProcessing: Option<seq<PostOp>>)

  datatype Error = InvalidAggregatorName(name: string)

  /** The output of `print`: one entry per child for a pass-through style, else the printer's output. */
  datatype Printed = PerChild(outputs: seq<Rendered>) | Whole(output: Rendered)

  /** The collaborators this file calls but does not define. */
  datatype Env = Env(
    build: Descriptor -> Query,                              // `base.build`
    printQuery: (Query, string) -> Rendered,                 // `q.print(style)` for a pass-through style
    materialize: Query -> Query,                             // `q.print('json')`: the child executes and keeps its table
    queryString: Query -> string,                            // `q.toString()`
    cloneQuery: (Query, bool) -> Query,                      // `q.clone(withData)`
    queryDimension: Query -> Dimension,                      // `q.dimension`
    queryUrl: (Query, string, string) -> Url,                // `q.generateKeenUrl(base, format)`
    transformQuery: (Query, Transformation, seq<Param>) -> Query,
    runStrategy: (Strategy, seq<Query>) -> Merged,           // the strategy body, given the children
    tableOp: (Table, string, seq<Param>) -> Table,           // `table[func].apply(table, params)`
    cloneTable: Table -> Table,                              // `table.clone()`
    tableDimension: Table -> Dimension,                      // `table.dimension`
    render: (Option<string>, Table) -> Rendered)             // `printers.call(this, style)`

  const Builtins: map<string, Strategy> :=
    map["concat" := Concat, "ratio" := Ratio, "pct" := Pct, "sum" := Sum]

  /** `s.substr(1)`: the name without its leading sigil. */
  function StripSigil(s: string): (name: string)
    ensures |s| > 0 ==> [s[0]] + name == s
    ensures |s| == 0 ==> name == ""
  {
    if |s| == 0 then "" else s[1..]
  }

  function Message(e: Error): string
  {
    match e
    case InvalidAggregatorName(name) => "Invalid aggregator name " + name
  }

  /** The registry lookup the constructor performs; a miss is the constructor's error. */
  function Resolve(aggregator: string, registry: map<string, Strategy>): (r: Result<Strategy, Error>)
    ensures r.Success? <==> StripSigil(aggregator) in registry
    ensures r.Success? ==> r.value == registry[StripSigil(aggregator)]
    ensures r.Failure? ==> r.error == InvalidAggregatorName(StripSigil(aggregator))
  {
    var name := StripSigil(aggregator);
    if name in registry then Success(registry[name]) else Failure(InvalidAggregatorName(name))
  }

  /** `style || this._printer`: an absent or empty style falls back to the stored one. */
  function EffectiveStyle(style: Option<string>, printer: Option<string>): (r: Option<string>)
    ensures style.Some? && style.value != "" ==> r == style
    ensures style.None? || style == Some("") ==> r == printer
  {
    if style.Some? && style.value != "" then style else printer
  }

  /** The styles that are produced from the query's shape alone. */
  predicate IsPassThrough(style: Option<string>)
    ensures IsPassThrough(style) <==> style.Some? && style.value in {"qs", "qo", "url"}
    ensures IsPassThrough(style) ==> forall printer :: EffectiveStyle(style, printer) == style
  {
    style == Some("qs") || style == Some("qo") || style == Some("url")
  }

  /** `queries.map(q => q.print(style))`. */
  function PrintEach(env: Env, queries: seq<Query>, style: string): (r: seq<Rendered>)
    ensures |r| == |queries| && forall i :: 0 <= i < |queries| ==> r[i] == env.printQuery(queries[i], style)
  {
    seq(|queries|, i requires 0 <= i < |queries| => env.printQuery(queries[i], style))
  }

  /** `queries.map(kq => kq.clone(withData))`. */
  function CloneEach(env: Env, queries: seq<Query>, withData: bool): (r: seq<Query>)
    ensures |r| == |queries| && forall i :: 0 <= i < |queries| ==> r[i] == env.cloneQuery(queries[i], withData)
  {
    seq(|queries|, i requires 0 <= i < |queries| => env.cloneQuery(queries[i], withData))
  }

  /** `queries.map(q => q[method](...args))`. */
  function TransformEach(env: Env, queries: seq<Query>, t: Transformation, args: seq<Param>): (r: seq<Query>)
    ensures |r| == |queries| && forall i :: 0 <= i < |queries| ==> r[i] == env.transformQuery(queries[i], t, args)
  {
    seq(|queries|, i requires 0 <= i < |queries| => env.transformQuery(queries[i], t, args))
  }

  /** `queries.map(q => q.toString())`. */
  function NameEach(env: Env, queries: seq<Query>): (r: seq<string>)
    ensures |r| == |queries| && forall i :: 0 <= i < |queries| ==> r[i] == env.queryString(queries[i])
  {
    seq(|queries|, i requires 0 <= i < |queries| => env.queryString(queries[i]))
  }

  /** `queries.map(q => q.generateKeenUrl(base, format))`. */
  function UrlEach(env: Env, queries: seq<Query>, base: string, format: string): (r: seq<Url>)
    ensures |r| == |queries| && forall i :: 0 <= i < |queries| ==> r[i] == env.queryUrl(queries[i], base, format)
  {
    seq(|queries|, i requires 0 <= i < |queries| => env.queryUrl(queries[i], base, format))
  }

  /** Every child after `q.print('json')` has run on it, in child order. */
  function MaterializeAll(env: Env, queries: seq<Query>): (r: seq<Query>)
  {
    seq(|queries|, i requires 0 <= i < |queries| => env.materialize(queries[i]))
  }

  /** The post-processing loop: each step replaces the table with the step applied to it. */
  function ApplyPostOps(env: Env, t: Table, ops: seq<PostOp>): (r: Table)
    ensures ops == [] ==> r == t
    ensures ops != [] ==> r == ApplyPostOps(env, env.tableOp(t, ops[0].func, ops[0].params), ops[1..])
  {
    if ops == [] then t
    else
      var n := |ops| - 1;
      var last := ops[n];
      assert n > 0 ==> ops[..n][0] == ops[0] && ops[..n][1..] == ops[1..][..n - 1] && ops[1..][n - 1] == last;
      env.tableOp(ApplyPostOps(env, t, ops[..n]), last.func, last.params)
  }

  /** Running a list of steps is running its first part, then its second part on that result. */
  lemma {:induction false} ApplyPostOpsAppend(env: Env, t: Table, first: seq<PostOp>, second: seq<PostOp>)
    ensures ApplyPostOps(env, t, first + second) == ApplyPostOps(env, ApplyPostOps(env, t, first), second)
  {
    if second != [] {
      var n := |second| - 1;
      assert (first + second)[..|first + second| - 1] == first + second[..n];
      assert (first + second)[|first + second| - 1] == second[n];
      ApplyPostOpsAppend(env, t, first, second[..n]);
    } else {
      assert first + second == first;
    }
  }

  /** `if (this._postProcessing) ...`: an absent list leaves the table as the strategy wrote it. */
  function PostProcess(env: Env, t: Table, postProcessing: Option<seq<PostOp>>): Table
  {
    match postProcessing
    case None => t
    case Some(ops) => ApplyPostOps(env, t, ops)
  }

  /** `@name(child,child,...)`, the composite form of the expression language. */
  function Signature(name: string, children: seq<string>): string
  {
    "@" + name + "(" + Strings.Join(children, ',') + ")"
  }

  datatype Parsed = Parsed(name: string, children: seq<string>)

  /** Index of the first occurrence of `c` in `s`. */
  function IndexOf(s: string, c: char): (r: Option<nat>)
    ensures r.Some? ==> r.value < |s| && s[r.value] == c && c !in s[..r.value]
    ensures r.None? ==> c !in s
  {
    if s == [] then None
    else if s[0] == c then Some(0)
    else match IndexOf(s[1..], c)
      case None => None
      case Some(k) => assert s[..k + 1] == [s[0]] + s[1..][..k]; Some(k + 1)
  }

  /**
   * Reads a composite form back: the name up to the first '(' and the
   * comma-separated children up to the closing ')'.
   */
  function ParseSignature(s: string): Option<Parsed>
  {
    if |s| < 2 || s[0] != '@' || s[|s| - 1] != ')' then None
    else
      match IndexOf(s[1..|s| - 1], '(')
      case None => None
      case Some(k) => Some(Parsed(s[1..k + 1], Strings.Split(s[k + 2..|s| - 1], ',')))
  }

  /** A name without '(' and children without ',' are read back exactly from their composite form. */
  lemma SignatureRoundTrip(name: string, children: seq<string>)
    requires '(' !in name
    requires |children| >= 1 && forall k :: 0 <= k < |children| ==> ',' !in children[k]
    ensures ParseSignature(Signature(name, children)) == Some(Parsed(name, children))
  {
    var s := Signature(name, children);
    var inner := Strings.Join(children, ',');
    assert s[1..|s| - 1] == name + "(" + inner;
    assert IndexOf(name + "(" + inner, '(') == Some(|name|) by {
      assert (name + "(" + inner)[|name|] == '(';
    }
    assert s[1..|name| + 1] == name;
    assert s[|name| + 2..|s| - 1] == inner;
    Strings.SplitJoin(children, ',');
  }

  /** The shared, mutable registry of combination strategies (the module-level `aggregators`). */
  class Registry {
    var entries: map<string, Strategy>

    constructor ()
      ensures entries == Builtins
    {
      entries := Builtins;
    }

    /** `Aggregator.define(name, func)`: adds the entry, replacing any earlier one of that name. */
    method Define(name: string, f: Strategy)
      modifies this
      ensures entries == old(entries)[name := f]
      ensures name in entries && entries[name] == f
      ensures forall other :: other != name ==> (other in entries <==> other in old(entries))
      ensures forall other :: other != name && other in entries ==> entries[other] == old(entries)[other]
    {
      entries := entries[name := f];
    }
  }

  class Aggregator {
    const env: Env
    var queries: seq<Query>
    var aggregatorName: string
    var strategy: Strategy
    var printer: Option<string>                    // `_printer`
    var postProcessing: Option<seq<PostOp>>        // `_postProcessing`
    var table: Option<Table>                       // `_table`, the cached result
    var explicitDimension: Option<Dimension>       // `_dimension`, only ever written by a strategy
    ghost var strategyRuns: nat                    // how many times this node has run its strategy

    /** `new Aggregator()` followed by field assignments, as `clone` and the constructor do. */
    constructor Make(env: Env, queries: seq<Query>, aggregatorName: string, strategy: Strategy,
                     printer: Option<string>, postProcessing: Option<seq<PostOp>>, table: Option<Table>)
      ensures this.env == env && this.queries == queries && this.aggregatorName == aggregatorName
      ensures this.strategy == strategy && this.printer == printer
      ensures this.postProcessing == postProcessing && this.table == table
      ensures explicitDimension == None && strategyRuns == 0
    {
      this.env := env;
      this.queries := queries;
      this.aggregatorName := aggregatorName;
      this.strategy := strategy;
      this.printer := printer;
      this.postProcessing := postProcessing;
      this.table := table;
      explicitDimension := None;
      strategyRuns := 0;
    }

    /**
     * `Aggregator.factory(conf)`: builds the children, strips the sigil from
     * the aggregator field and looks the name up; a miss throws.
     */
    static method Factory(env: Env, conf: Conf, registry: Registry) returns (r: Result<Aggregator, Error>)
      ensures r.Failure? <==> StripSigil(conf.aggregator) !in registry.entries
      ensures r.Failure? ==> r.error == InvalidAggregatorName(StripSigil(conf.aggregator))
      ensures r.Failure? ==> Message(r.error) == "Invalid aggregator name " + StripSigil(conf.aggregator)
      ensures r.Success? ==>
        && fresh(r.value)
        && r.value.env == env
        && r.value.queries == seq(|conf.body|, i requires 0 <= i < |conf.body| => env.build(conf.body[i]))
        && r.value.aggregatorName == StripSigil(conf.aggregator)
        && r.value.strategy == registry.entries[StripSigil(conf.aggregator)]
        && r.value.printer == conf.printStyle
        && r.value.postProcessing == conf.postProcessing
        && r.value.table == None && r.value.explicitDimension == None
        && r.value.strategyRuns == 0
    {
      var queries := seq(|conf.body|, i requires 0 <= i < |conf.body| => env.build(conf.body[i]));
      var name := StripSigil(conf.aggregator);
      var resolved := Resolve(conf.aggregator, registry.entries);
      if resolved.Failure? {
        r := Failure(resolved.error);
      } else {
        var a := new Aggregator.Make(env, queries, name, resolved.value, conf.printStyle, conf.postProcessing, None);
        r := Success(a);
      }
    }

    /** `getTable()`. */
    function GetTable(): (r: Option<Table>)
      reads this
      ensures r == table
    {
      table
    }

    /**
     * `print(style)`. A pass-through style asks each child for its own
     * form and changes nothing. A filled cache goes straight to the
     * printers. Otherwise every child executes, the strategy runs once, the
     * post-processing steps replace the table in order, and the result is
     * printed.
     */
    method Print(style: Option<string>) returns (out: Printed)
      modifies this
      ensures var eff := EffectiveStyle(style, old(printer));
        IsPassThrough(eff) ==>
          && unchanged(this)
          && out == PerChild(PrintEach(env, queries, eff.value))
      ensures var eff := EffectiveStyle(style, old(printer));
        !IsPassThrough(eff) && old(table).Some? ==>
          && unchanged(this)
          && out == Whole(env.render(eff, table.value))
      ensures var eff := EffectiveStyle(style, old(printer));
        !IsPassThrough(eff) && old(table).None? ==>
          var merged := env.runStrategy(strategy, MaterializeAll(env, old(queries)));
          && queries == MaterializeAll(env, old(queries))
          && strategyRuns == old(strategyRuns) + 1
          && table == Some(PostProcess(env, merged.table, postProcessing))
          && explicitDimension == (if merged.dimension.Some? then merged.dimension else old(explicitDimension))
          && out == Whole(env.render(eff, table.value))
      ensures aggregatorName == old(aggregatorName) && strategy == old(strategy)
      ensures printer == old(printer) && postProcessing == old(postProcessing)
      ensures old(table).Some? ==> table == old(table)
    {
      var eff := EffectiveStyle(style, printer);
      if IsPassThrough(eff) {
        out := PerChild(PrintEach(env, queries, eff.value));
      } else if table.Some? {
        out := Whole(env.render(eff, table.value));
      } else {
        Execute();
        out := Whole(env.render(eff, table.value));
      }
    }

    /** The executing branch of `print`: children, then the strategy, then the post-processing steps. */
    method Execute()
      requires table == None
      modifies this
      ensures queries == MaterializeAll(env, old(queries))
      ensures var merged := env.runStrategy(strategy, queries);
        && table == Some(PostProcess(env, merged.table, postProcessing))
        && explicitDimension == (if merged.dimension.Some? then merged.dimension else old(explicitDimension))
      ensures strategyRuns == old(strategyRuns) + 1
      ensures aggregatorName == old(aggregatorName) && strategy == old(strategy)
      ensures printer == old(printer) && postProcessing == old(postProcessing)
    {
      MaterializeChildren();
      // `this.aggregator()`
      var merged := env.runStrategy(strategy, queries);
      table := Some(merged.table);
      if merged.dimension.Some? {
        explicitDimension := merged.dimension;
      }
      strategyRuns := strategyRuns + 1;
      if postProcessing.Some? {
        RunPostProcessing(postProcessing.value);
      }
    }

    /** `Promise.all(this.queries.map(q => q.print('json')))`, one child after the other. */
    method MaterializeChildren()
      modifies this`queries
      ensures queries == MaterializeAll(env, old(queries))
    {
      ghost var before := queries;
      var i := 0;
      while i < |queries|
        invariant 0 <= i <= |queries| == |before|
        invariant forall k :: 0 <= k < i ==> queries[k] == env.materialize(before[k])
        invariant forall k :: i <= k < |queries| ==> queries[k] == before[k]
      {
        queries := queries[i := env.materialize(queries[i])];
        i := i + 1;
      }
    }

    /** `this._postProcessing.forEach(...)`: each step replaces `_table` with the step applied to it. */
    method RunPostProcessing(ops: seq<PostOp>)
      requires table.Some?
      modifies this`table
      ensures table == Some(ApplyPostOps(env, old(table).value, ops))
    {
      ghost var start := table.value;
      var j := 0;
      while j < |ops|
        invariant 0 <= j <= |ops|
        invariant table == Some(ApplyPostOps(env, start, ops[..j]))
      {
        assert ops[..j + 1][..j] == ops[..j];
        table := Some(env.tableOp(table.value, ops[j].func, ops[j].params));
        j := j + 1;
      }
      assert ops[..j] == ops;
    }

    /** `setPrinter(printer)`: a copy with its data whose default style is `p`. */
    method SetPrinter(p: Option<string>) returns (c: Aggregator)
      ensures fresh(c) && c.env == env
      ensures c.queries == CloneEach(env, queries, true)
      ensures c.aggregatorName == aggregatorName && c.strategy == strategy
      ensures c.postProcessing == postProcessing
      ensures c.table == (if table.Some? then Some(env.cloneTable(table.value)) else None)
      ensures c.printer == p
      ensures c.explicitDimension == None && c.strategyRuns == 0
    {
      c := Clone(true);
      c.printer := p;
    }

    /**
     * `toString()`: the composite form `@name(child,...)`, which reads back
     * to the name and the children's strings when the name has no '(' and
     * no child string has a ','.
     */
    function ToString(): (s: string)
      reads this
      ensures s == Signature(aggregatorName, NameEach(env, queries))
      ensures |s| >= |aggregatorName| + 3 && s[|s| - 1] == ')'
      ensures s[..|aggregatorName| + 2] == "@" + aggregatorName + "("
      ensures ('(' !in aggregatorName && |queries| >= 1
        && forall k :: 0 <= k < |queries| ==> ',' !in env.queryString(queries[k])) ==>
        ParseSignature(s) == Some(Parsed(aggregatorName, NameEach(env, queries)))
    {
      var children := NameEach(env, queries);
      if '(' !in aggregatorName && |queries| >= 1 && (forall k :: 0 <= k < |children| ==> ',' !in children[k]) then
        SignatureRoundTrip(aggregatorName, children);
        Signature(aggregatorName, children)
      else
        Signature(aggregatorName, children)
    }

    /**
     * The `dimension` getter: `_dimension` if set, else the table's
     * dimension if there is a table, else the first child's; with no table
     * and no children it throws, shown as `None`.
     */
    function Dimension(): (d: Option<Dimension>)
      reads this
      ensures explicitDimension.Some? ==> d == explicitDimension
      ensures explicitDimension.None? && table.Some? ==> d == Some(env.tableDimension(table.value))
      ensures explicitDimension.None? && table.None? && |queries| > 0 ==> d == Some(env.queryDimension(queries[0]))
      ensures d.None? <==> explicitDimension.None? && table.None? && queries == []
    {
      if explicitDimension.Some? then explicitDimension
      else if table.Some? then Some(env.tableDimension(table.value))
      else if queries != [] then Some(env.queryDimension(queries[0]))
      else None
    }

    /** `generateKeenUrl(base, format)`: the children's own URLs, one per child, in order. */
    function GenerateKeenUrl(base: string, format: string): (urls: seq<Url>)
      reads this
      ensures |urls| == |queries|
      ensures forall i :: 0 <= i < |queries| ==> urls[i] == env.queryUrl(queries[i], base, format)
    {
      UrlEach(env, queries, base, format)
    }

    /**
     * `clone(withData)`: a new node with every child cloned with the same
     * flag, the same name, strategy, style and post-processing steps, and
     * the table cloned only when `withData` holds.
     */
    method Clone(withData: bool) returns (c: Aggregator)
      ensures fresh(c) && c.env == env
      ensures c.queries == CloneEach(env, queries, withData)
      ensures c.aggregatorName == aggregatorName && c.strategy == strategy
      ensures c.printer == printer && c.postProcessing == postProcessing
      ensures c.table == (if withData && table.Some? then Some(env.cloneTable(table.value)) else None)
      ensures c.explicitDimension == None && c.strategyRuns == 0
    {
      var children := CloneEach(env, queries, withData);
      var copied := if withData && table.Some? then Some(env.cloneTable(table.value)) else None;
      c := new Aggregator.Make(env, children, aggregatorName, strategy, printer, postProcessing, copied);
    }

    /**
     * The transformation methods (`raw`, `interval`, ...): a clone without
     * data whose children are the transformed clones of this node's children.
     */
    method Transform(t: Transformation, args: seq<Param>) returns (c: Aggregator)
      ensures fresh(c) && c.env == env
      ensures |c.queries| == |queries|
      ensures forall i :: 0 <= i < |queries| ==>
        c.queries[i] == env.transformQuery(env.cloneQuery(queries[i], false), t, args)
      ensures c.aggregatorName == aggregatorName && c.strategy == strategy
      ensures c.printer == printer && c.postProcessing == postProcessing
      ensures c.table == None && c.explicitDimension == None && c.strategyRuns == 0
    {
      c := Clone(false);
      c.queries := TransformEach(env, c.queries, t, args);
    }
  }

  /**
   * Two prints of a fresh node with styles that are not pass-through run
   * its strategy once: the second is served from the cache.
   */
  method PrintTwice(a: Aggregator, first: Option<string>, second: Option<string>) returns (x: Printed, y: Printed)
    requires a.table == None
    requires !IsPassThrough(EffectiveStyle(first, a.printer))
    requires !IsPassThrough(EffectiveStyle(second, a.printer))
    modifies a
    ensures a.strategyRuns == old(a.strategyRuns) + 1 && a.table.Some?
    ensures x == Whole(a.env.render(EffectiveStyle(first, a.printer), a.table.value))
    ensures y == Whole(a.env.render(EffectiveStyle(second, a.printer), a.table.value))
  {
    x := a.Print(first);
    y := a.Print(second);
  }
}
