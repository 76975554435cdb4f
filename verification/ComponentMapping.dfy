/**
Conversion between Waldur's components and the backend's
(waldur_site_agent/common/component_mapping.py). Components are numbers; dictionaries are
visited in any order.
 */
module ComponentMapping {
  import opened Wrappers
  import opened Sums

  type Comp = nat

  datatype Mapping = Mapping(component: Comp, factor: real)

  /** Each source component's configured targets; none means passthrough. */
  type Config = map<Comp, map<Comp, Option<real>>>

  type Lists = map<Comp, seq<Mapping>>

  function Factor(configured: Option<real>): real {
    if configured.Some? then configured.value else 1.0
  }

  function Itself(s: Comp): Row { map[s := 1.0] }

  /** The targets of a source with their factors: itself alone, where none is configured. */
  function Targets(config: Config, s: Comp): Row
    requires s in config
  {
    if config[s] == map[] then Itself(s) else map t | t in config[s] :: Factor(config[s][t])
  }

  function Graph(config: Config): Table { map s | s in config :: Targets(config, s) }

  /** The sources of a target: a column of the graph. */
  function Column(graph: Table, t: Comp): Row { map s | s in graph && t in graph[s] :: graph[s][t] }

  // ---- lists of mappings ------------------------------------------------------------

  function RowOf(ms: seq<Mapping>): Row {
    if ms == [] then map[] else RowOf(ms[..|ms| - 1])[ms[|ms| - 1].component := ms[|ms| - 1].factor]
  }

  /** No component comes twice. */
  predicate Clean(ms: seq<Mapping>) {
    ms == [] || (Clean(ms[..|ms| - 1]) && ms[|ms| - 1].component !in RowOf(ms[..|ms| - 1]))
  }

  /** A list that holds exactly a row. */
  predicate Holds(ms: seq<Mapping>, row: Row) { Clean(ms) && RowOf(ms) == row }

  lemma HoldsMore(ms: seq<Mapping>, row: Row, m: Mapping)
    requires Holds(ms, row) && m.component !in row
    ensures Holds(ms + [m], row[m.component := m.factor])
  {
    assert (ms + [m])[..|ms|] == ms;
  }

  lemma {:induction false} HoldsMembers(ms: seq<Mapping>, row: Row, m: Mapping)
    requires Holds(ms, row)
    ensures m in ms <==> m.component in row && row[m.component] == m.factor
  {
    if ms != [] {
      var n := |ms| - 1;
      HoldsMembers(ms[..n], RowOf(ms[..n]), m);
      assert ms == ms[..n] + [ms[n]];
      assert ms[n].component in row && row[ms[n].component] == ms[n].factor;
      if m in ms[..n] {
        assert m.component != ms[n].component;
      }
    }
  }

  lemma {:induction false} CleanPrefix(ms: seq<Mapping>, i: nat)
    requires Clean(ms) && i <= |ms|
    ensures Clean(ms[..i])
  {
    if i < |ms| {
      var n := |ms| - 1;
      CleanPrefix(ms[..n], i);
      assert ms[..n][..i] == ms[..i];
    } else {
      assert ms[..i] == ms;
    }
  }

  lemma PrefixStep(ms: seq<Mapping>, i: nat)
    requires Clean(ms) && i < |ms|
    ensures ms[i].component !in RowOf(ms[..i])
    ensures RowOf(ms[..i + 1]) == RowOf(ms[..i])[ms[i].component := ms[i].factor]
  {
    CleanPrefix(ms, i + 1);
    assert ms[..i + 1][..i] == ms[..i];
  }

  function ListOf(lists: Lists, c: Comp): seq<Mapping> { if c in lists then lists[c] else [] }

  /** The forward lists hold the rows of the graph. */
  ghost predicate Rows(lists: Lists, graph: Table) {
    lists.Keys == graph.Keys && forall s :: s in graph ==> Holds(lists[s], graph[s])
  }

  /** The reverse lists hold its columns, and there is a list only where there is something to hold. */
  ghost predicate Columns(lists: Lists, graph: Table) {
    && (forall t :: Holds(ListOf(lists, t), Column(graph, t)))
    && (forall t :: t in lists ==> lists[t] != [])
  }

  /** The two tables are each other's transpose, entry by entry. */
  lemma Transpose(forward: Lists, reverse: Lists, graph: Table, s: Comp, t: Comp, f: real)
    requires Rows(forward, graph) && Columns(reverse, graph)
    ensures Mapping(t, f) in ListOf(forward, s) <==> Mapping(s, f) in ListOf(reverse, t)
  {
    HoldsMembers(ListOf(reverse, t), Column(graph, t), Mapping(s, f));
    if s in graph {
      HoldsMembers(forward[s], graph[s], Mapping(t, f));
    }
  }

  lemma ColumnMore(graph: Table, s: Comp, part: Row, t: Comp, f: real, u: Comp)
    ensures Column(graph[s := part[t := f]], u) ==
      if u == t then Column(graph[s := part], t)[s := f] else Column(graph[s := part], u)
  {
  }

  /** One more target in the row of a source. */
  lemma ColumnsMore(lists: Lists, graph: Table, s: Comp, part: Row, t: Comp, f: real)
    requires Columns(lists, graph[s := part]) && t !in part
    ensures Columns(lists[t := ListOf(lists, t) + [Mapping(s, f)]], graph[s := part[t := f]])
  {
    var lists' := lists[t := ListOf(lists, t) + [Mapping(s, f)]];
    var before, after := graph[s := part], graph[s := part[t := f]];
    HoldsMore(ListOf(lists, t), Column(before, t), Mapping(s, f));
    forall u ensures Holds(ListOf(lists', u), Column(after, u)) {
      ColumnMore(graph, s, part, t, f, u);
      assert Holds(ListOf(lists, u), Column(before, u));
    }
  }

  lemma ColumnsEmptyRow(lists: Lists, graph: Table, s: Comp)
    requires Columns(lists, graph) && s !in graph
    ensures Columns(lists, graph[s := map[]])
  {
    forall u ensures Holds(ListOf(lists, u), Column(graph[s := map[]], u)) {
      assert Holds(ListOf(lists, u), Column(graph, u));
      assert Column(graph[s := map[]], u) == Column(graph, u);
    }
  }

  // ---- conversion -------------------------------------------------------------------

  datatype Direction = ToTarget | ToSource

  function Share(d: Direction, v: real, f: real): real {
    match d
    case ToTarget => v * f
    case ToSource => if f != 0.0 then v / f else 0.0
  }

  function Shares(d: Direction, row: Row, v: real): Row { map c | c in row :: Share(d, v, row[c]) }

  function ForwardRow(graph: Table, s: Comp, v: real): Row {
    if s in graph then Shares(ToTarget, graph[s], v) else map[s := v]
  }

  /** What each source adds to each target; one without a mapping passes through. */
  function Forward(graph: Table, limits: map<Comp, int>): Table {
    map s | s in limits :: ForwardRow(graph, s, limits[s] as real)
  }

  /** What each target adds to each source. */
  function Backward(graph: Table, usage: Row): Table {
    map t | t in usage :: Shares(ToSource, Column(graph, t), usage[t])
  }

  function Heads(table: Table): set<nat> { set r, c | r in table && c in table[r] :: c }

  ghost function Totals(table: Table): Row { map c | c in Heads(table) :: Sum(table, table.Keys, c) }

  /** `int()`: towards zero. */
  function Trunc(x: real): int { if x >= 0.0 then x.Floor else -((-x).Floor) }

  function Truncated(row: Row): map<Comp, int> { map c | c in row :: Trunc(row[c]) }

  function Reals(m: map<Comp, int>): Row { map c | c in m :: m[c] as real }

  ghost function Limits(graph: Table, limits: map<Comp, int>): map<Comp, int> {
    Truncated(Totals(Forward(graph, limits)))
  }

  ghost function Usage(graph: Table, usage: Row): Row { Totals(Backward(graph, usage)) }

  /** The sums of the rows visited. */
  ghost predicate SumsTo(acc: Row, table: Table, rows: set<nat>) {
    && rows <= table.Keys
    && (forall c :: c in acc <==> exists r :: r in rows && c in table[r])
    && (forall c :: At(acc, c) == Sum(table, rows, c))
  }

  /** A row added to the totals. */
  ghost predicate Added(acc: Row, row: Row, more: Row) {
    more.Keys == acc.Keys + row.Keys && forall c :: At(more, c) == At(acc, c) + At(row, c)
  }

  lemma SumsToMore(acc: Row, table: Table, rows: set<nat>, r: nat, acc': Row)
    requires SumsTo(acc, table, rows) && r in table && r !in rows
    requires Added(acc, table[r], acc')
    ensures SumsTo(acc', table, rows + {r})
  {
    forall c ensures At(acc', c) == Sum(table, rows + {r}, c) {
      SumAdd(table, rows, c, r);
    }
    forall c ensures c in acc' <==> exists q :: q in rows + {r} && c in table[q] {
      if c in acc {
        var q :| q in rows && c in table[q];
        assert q in rows + {r};
      }
    }
  }

  lemma SumsToTotals(acc: Row, table: Table)
    requires SumsTo(acc, table, table.Keys)
    ensures acc == Totals(table)
  {
    assert acc.Keys == Heads(table);
    forall c | c in acc ensures acc[c] == Totals(table)[c] {
      assert At(acc, c) == Sum(table, table.Keys, c);
    }
  }

  class ComponentMapper {
    ghost const config: Config
    const forward: Lists
    const reverse: Lists
    const passthrough: set<Comp>

    ghost predicate Valid() {
      && Rows(forward, Graph(config)) && Columns(reverse, Graph(config))
      && (forall s :: s in passthrough <==> SelfMapped(config, s))
    }

    constructor (config: Config)
      ensures Valid() && this.config == config
    {
      var rows, columns, selfMapped := BuildMaps(config);
      this.config := config;
      forward, reverse, passthrough := rows, columns, selfMapped;
    }

    /** True exactly when every component is its own only target. */
    method IsPassthrough() returns (all: bool)
      requires Valid()
      ensures all <==> forall s :: s in config ==> SelfMapped(config, s)
    {
      all := |passthrough| == |forward|;
      assert |forward| == |forward.Keys| && forward.Keys == config.Keys;
      SubsetFull(passthrough, config.Keys);
    }

    /** One round of the loop of `ConvertLimitsToTarget`. */
    method AddLimit(acc: Row, s: Comp, v: real) returns (more: Row)
      requires Valid()
      ensures Added(acc, ForwardRow(Graph(config), s, v), more)
    {
      if s !in forward {
        more := acc[s := At(acc, s) + v];
      } else {
        more := AddShares(acc, forward[s], ToTarget, v);
      }
    }

    method ConvertLimitsToTarget(limits: map<Comp, int>) returns (target: map<Comp, int>)
      requires Valid()
      ensures target == Limits(Graph(config), limits)
    {
      ghost var table := Forward(Graph(config), limits);
      var acc: Row := map[];
      var left := limits.Keys;
      ghost var done: set<Comp> := {};
      while left != {}
        invariant left <= limits.Keys && done == limits.Keys - left
        invariant SumsTo(acc, table, done)
        decreases left
      {
        var s :| s in left;
        var more := AddLimit(acc, s, limits[s] as real);
        SumsToMore(acc, table, done, s, more);
        acc, left, done := more, left - {s}, done + {s};
      }
      assert done == table.Keys;
      SumsToTotals(acc, table);
      return Truncated(acc);
    }

    method ConvertUsageFromTarget(usage: Row) returns (source: Row)
      requires Valid()
      ensures source == Usage(Graph(config), usage)
    {
      ghost var table := Backward(Graph(config), usage);
      source := map[];
      var left := usage.Keys;
      while left != {}
        invariant left <= usage.Keys
        invariant SumsTo(source, table, usage.Keys - left)
        decreases left
      {
        var t :| t in left;
        assert Holds(ListOf(reverse, t), Column(Graph(config), t));
        var more := source;
        if t in reverse {
          more := AddShares(source, reverse[t], ToSource, usage[t]);
        }
        SumsToMore(source, table, usage.Keys - left, t, more);
        assert usage.Keys - left + {t} == usage.Keys - (left - {t});
        source, left := more, left - {t};
      }
      assert usage.Keys - left == table.Keys;
      SumsToTotals(source, table);
    }
  }

  lemma RowsMore(lists: Lists, graph: Table, s: Comp, ms: seq<Mapping>, row: Row)
    requires Rows(lists, graph) && Holds(ms, row)
    ensures Rows(lists[s := ms], graph[s := row])
  {
  }

  predicate SelfMapped(config: Config, s: Comp) { s in config && config[s] == map[] }

  /** The graph as far as some of the sources. */
  function Part(config: Config, done: set<Comp>): Table { map s | s in done && s in config :: Targets(config, s) }

  lemma PartMore(config: Config, done: set<Comp>, s: Comp)
    requires s in config
    ensures Part(config, done + {s}) == Part(config, done)[s := Targets(config, s)]
  {
  }

  ghost predicate Built(config: Config, done: set<Comp>, forward: Lists, reverse: Lists, passthrough: set<Comp>) {
    && Rows(forward, Part(config, done)) && Columns(reverse, Part(config, done))
    && (forall s :: s in passthrough <==> s in done && SelfMapped(config, s))
  }

  lemma BuiltMore(config: Config, done: set<Comp>, forward: Lists, reverse: Lists, passthrough: set<Comp>,
                  s: Comp, ms: seq<Mapping>, reverse': Lists)
    requires Built(config, done, forward, reverse, passthrough) && s in config && s !in done
    requires Holds(ms, Targets(config, s)) && Columns(reverse', Part(config, done)[s := Targets(config, s)])
    ensures Built(config, done + {s}, forward[s := ms], reverse',
                  if SelfMapped(config, s) then passthrough + {s} else passthrough)
  {
    RowsMore(forward, Part(config, done), s, ms, Targets(config, s));
    PartMore(config, done, s);
  }

  lemma BuiltAll(config: Config, forward: Lists, reverse: Lists, passthrough: set<Comp>)
    requires Built(config, config.Keys, forward, reverse, passthrough)
    ensures Rows(forward, Graph(config)) && Columns(reverse, Graph(config))
    ensures forall s :: s in passthrough <==> SelfMapped(config, s)
  {
    assert Part(config, config.Keys) == Graph(config);
  }

  lemma BuiltNone(config: Config)
    ensures Built(config, {}, map[], map[], {})
  {
    var none: Table := map[];
    assert Part(config, {}) == none;
    forall t ensures Column(none, t) == map[] {
    }
  }

  /** The loop of the constructor. */
  method BuildMaps(config: Config) returns (forward: Lists, reverse: Lists, passthrough: set<Comp>)
    ensures Rows(forward, Graph(config)) && Columns(reverse, Graph(config))
    ensures forall s :: s in passthrough <==> SelfMapped(config, s)
  {
    forward, reverse, passthrough := map[], map[], {};
    BuiltNone(config);
    ghost var done: set<Comp> := {};
    var left := config.Keys;
    while left != {}
      invariant left <= config.Keys && done == config.Keys - left
      invariant Built(config, done, forward, reverse, passthrough)
      decreases left
    {
      var s :| s in left;
      var mappings, reverse' := MapSource(config, s, reverse, Part(config, done));
      BuiltMore(config, done, forward, reverse, passthrough, s, mappings, reverse');
      if SelfMapped(config, s) {
        passthrough := passthrough + {s};
      }
      forward, reverse := forward[s := mappings], reverse';
      left, done := left - {s}, done + {s};
    }
    assert done == config.Keys;
    BuiltAll(config, forward, reverse, passthrough);
  }

  /** One round of the loop. */
  method MapSource(config: Config, s: Comp, reverse: Lists, ghost done: Table)
    returns (mappings: seq<Mapping>, reverse': Lists)
    requires s in config && s !in done && Columns(reverse, done)
    ensures Holds(mappings, Targets(config, s)) && Columns(reverse', done[s := Targets(config, s)])
  {
    ColumnsEmptyRow(reverse, done, s);
    if config[s] == map[] {
      mappings, reverse' := MapToItself(s, reverse, done);
    } else {
      mappings, reverse' := MapToTargets(s, config[s], reverse, done);
    }
  }

  /** Passthrough: the same component with factor one. */
  method MapToItself(s: Comp, reverse: Lists, ghost done: Table) returns (mappings: seq<Mapping>, reverse': Lists)
    requires Columns(reverse, done[s := map[]])
    ensures Holds(mappings, Itself(s)) && Columns(reverse', done[s := Itself(s)])
  {
    HoldsMore([], map[], Mapping(s, 1.0));
    ColumnsMore(reverse, done, s, map[], s, 1.0);
    mappings := [] + [Mapping(s, 1.0)];
    reverse' := reverse[s := ListOf(reverse, s) + [Mapping(s, 1.0)]];
  }

  /** The inner loop of the constructor. */
  method MapToTargets(s: Comp, targets: map<Comp, Option<real>>, reverse: Lists, ghost done: Table)
    returns (mappings: seq<Mapping>, reverse': Lists)
    requires Columns(reverse, done[s := map[]])
    ensures var row := map t | t in targets :: Factor(targets[t]);
      Holds(mappings, row) && Columns(reverse', done[s := row])
  {
    mappings, reverse' := [], reverse;
    ghost var part: Row := map[];
    var rest := targets.Keys;
    while rest != {}
      invariant rest <= targets.Keys && part.Keys == targets.Keys - rest
      invariant forall t :: t in part ==> part[t] == Factor(targets[t])
      invariant Holds(mappings, part) && Columns(reverse', done[s := part])
      decreases rest
    {
      var t :| t in rest;
      var factor := Factor(targets[t]);
      HoldsMore(mappings, part, Mapping(t, factor));
      ColumnsMore(reverse', done, s, part, t, factor);
      mappings := mappings + [Mapping(t, factor)];
      reverse' := reverse'[t := ListOf(reverse', t) + [Mapping(s, factor)]];
      rest, part := rest - {t}, part[t := factor];
    }
    assert part == map t | t in targets :: Factor(targets[t]);
  }

  lemma AddedMore(d: Direction, acc: Row, row: Row, v: real, more: Row, m: Mapping)
    requires Added(acc, Shares(d, row, v), more) && m.component !in row
    ensures Added(acc, Shares(d, row[m.component := m.factor], v),
                  more[m.component := At(more, m.component) + Share(d, v, m.factor)])
  {
    var c := m.component;
    assert Shares(d, row[c := m.factor], v) == Shares(d, row, v)[c := Share(d, v, m.factor)];
  }

  /** The inner loop of both conversions. */
  method AddShares(acc: Row, ms: seq<Mapping>, d: Direction, v: real) returns (more: Row)
    requires Clean(ms)
    ensures Added(acc, Shares(d, RowOf(ms), v), more)
  {
    more := acc;
    ghost var part: Row := map[];
    for i := 0 to |ms|
      invariant part == RowOf(ms[..i]) && Added(acc, Shares(d, part, v), more)
    {
      PrefixStep(ms, i);
      AddedMore(d, acc, part, v, more, ms[i]);
      more := more[ms[i].component := At(more, ms[i].component) + Share(d, v, ms[i].factor)];
      part := part[ms[i].component := ms[i].factor];
    }
    assert ms[..|ms|] == ms;
  }

  lemma {:induction false} SubsetFull<T>(a: set<T>, b: set<T>)
    requires a <= b
    ensures |a| <= |b| && (|a| == |b| <==> a == b)
  {
    if x :| x in a {
      SubsetFull(a - {x}, b - {x});
    } else if y :| y in b {
      assert |b| == |b - {y}| + 1;
    }
  }

  // ---- there and back ---------------------------------------------------------------

  /** No other source that is converted reaches a target of this one. */
  predicate Unshared(graph: Table, limits: map<Comp, int>, s: Comp)
    requires s in graph
  {
    forall r, t :: r in limits && r != s && t in graph[s] ==> t !in Forward(graph, limits)[r]
  }

  predicate Whole(x: real) { x == x.Floor as real }

  /** The limit of a target that only one source reaches. */
  lemma OwnTarget(graph: Table, limits: map<Comp, int>, s: Comp, t: Comp)
    requires s in graph && s in limits && t in graph[s] && Unshared(graph, limits, s)
    ensures t in Limits(graph, limits)
    ensures Limits(graph, limits)[t] == Trunc(Share(ToTarget, limits[s] as real, graph[s][t]))
  {
    var table := Forward(graph, limits);
    assert t in table[s];
    assert t in Heads(table);
    forall r | r in table.Keys ensures Amount(table, r, t) == if r in {s} then Amount(table, r, t) else 0.0 {
      assert r != s ==> t !in table[r];
    }
    SumSame(table, {s}, table, table.Keys, t);
    SumAdd(table, {}, t, s);
    assert {} + {s} == {s};
  }

  /** What comes back from one target. */
  lemma ShareBack(v: int, f: real)
    requires v >= 0 && f > 0.0
    ensures v as real - 1.0 / f < Returned(v, f) <= v as real
    ensures Returned(v, f) == v as real <==> Whole(Share(ToTarget, v as real, f))
  {
    var x := v as real * f;
    assert x >= 0.0;
    var k := Trunc(x) as real;
    assert x - 1.0 < k <= x && (k == x <==> Whole(x));
    assert x / f == v as real;
    DivideAll(x, k, f);
  }

  lemma DivideAll(x: real, k: real, f: real)
    requires f > 0.0 && x - 1.0 < k <= x
    ensures x / f - 1.0 / f < k / f <= x / f && (k / f == x / f <==> k == x)
  {
    assert x / f - k / f == (x - k) / f;
    assert x / f - 1.0 / f == (x - 1.0) / f;
    assert k / f - (x - 1.0) / f == (k - (x - 1.0)) / f;
  }

  /** The reciprocals of a source's factors, as a column. */
  function Reciprocals(graph: Table, s: Comp): Table
    requires s in graph
  {
    map t | t in graph[s] :: map[s := if graph[s][t] != 0.0 then 1.0 / graph[s][t] else 0.0]
  }

  function Times(n: nat, v: real): real { if n == 0 then 0.0 else Times(n - 1, v) + v }

  lemma {:induction false} TimesIs(n: nat, v: real)
    ensures Times(n, v) == n as real * v
  {
    if n > 0 {
      TimesIs(n - 1, v);
      assert n as real * v == ((n - 1) as real + 1.0) * v == (n - 1) as real * v + v;
    }
  }

  lemma {:induction false} SumBounds(table: Table, recips: Table, rows: set<nat>, s: Comp, v: real)
    requires forall t :: t in rows ==> v - Amount(recips, t, s) < Amount(table, t, s) <= v
    ensures Sum(table, rows, s) <= Times(|rows|, v)
    ensures rows == {} || Times(|rows|, v) - Sum(recips, rows, s) < Sum(table, rows, s)
    decreases |rows|
  {
    if rows != {} {
      var m := Last(rows);
      var rest := rows - {m};
      SumBounds(table, recips, rest, s, v);
      assert |rows| == |rest| + 1;
    }
  }

  lemma {:induction false} SumReaches(table: Table, rows: set<nat>, s: Comp, v: real)
    requires forall t :: t in rows ==> Amount(table, t, s) <= v
    ensures Sum(table, rows, s) <= Times(|rows|, v)
    ensures Sum(table, rows, s) == Times(|rows|, v) <==> forall t :: t in rows ==> Amount(table, t, s) == v
    decreases |rows|
  {
    if rows != {} {
      var m := Last(rows);
      var rest := rows - {m};
      SumReaches(table, rest, s, v);
      assert |rows| == |rest| + 1;
      assert forall t :: t in rows <==> t == m || t in rest;
    }
  }

  ghost function Back(graph: Table, limits: map<Comp, int>): Table { Backward(graph, Reals(Limits(graph, limits))) }

  /** What a source gets back from one of its own targets. */
  function Returned(v: int, f: real): real { Share(ToSource, Trunc(Share(ToTarget, v as real, f)) as real, f) }

  lemma BackTerm(graph: Table, limits: map<Comp, int>, s: Comp, t: Comp)
    requires s in graph && s in limits && t in graph[s] && Unshared(graph, limits, s)
    ensures t in Back(graph, limits) && s in Back(graph, limits)[t]
    ensures Amount(Back(graph, limits), t, s) == Returned(limits[s], graph[s][t])
  {
    OwnTarget(graph, limits, s, t);
    assert s in Column(graph, t);
  }

  /** A source gets nothing back from what is not a target of its. */
  lemma BackElsewhere(graph: Table, usage: Row, s: Comp, r: Comp)
    requires s in graph && r !in graph[s]
    ensures Amount(Backward(graph, usage), r, s) == 0.0
  {
    assert s !in Column(graph, r);
  }

  /** What comes back to a source is what comes back from its own targets. */
  lemma BackFromTargets(graph: Table, limits: map<Comp, int>, s: Comp)
    requires s in graph && s in limits && graph[s] != map[] && Unshared(graph, limits, s)
    ensures s in Usage(graph, Reals(Limits(graph, limits)))
    ensures Usage(graph, Reals(Limits(graph, limits)))[s] == Sum(Back(graph, limits), graph[s].Keys, s)
  {
    var back, own := Back(graph, limits), graph[s].Keys;
    forall t | t in own ensures t in back && s in back[t] {
      BackTerm(graph, limits, s, t);
    }
    var t :| t in own;
    assert s in back[t] && s in Heads(back);
    forall r | r in back.Keys ensures r !in own ==> Amount(back, r, s) == 0.0 {
      if r !in own {
        BackElsewhere(graph, Reals(Limits(graph, limits)), s, r);
      }
    }
    SumSame(back, own, back, back.Keys, s);
  }

  lemma TermBounds(graph: Table, limits: map<Comp, int>, s: Comp, t: Comp)
    requires s in graph && s in limits && t in graph[s] && Unshared(graph, limits, s)
    requires limits[s] >= 0 && graph[s][t] > 0.0
    ensures var v, back := limits[s] as real, Amount(Back(graph, limits), t, s);
      && v - Amount(Reciprocals(graph, s), t, s) < back <= v
      && (back == v <==> Whole(Share(ToTarget, v, graph[s][t])))
  {
    BackTerm(graph, limits, s, t);
    ShareBack(limits[s], graph[s][t]);
    assert Amount(Reciprocals(graph, s), t, s) == 1.0 / graph[s][t];
  }

  /** The targets of a source from which everything comes back. */
  ghost function Uncut(graph: Table, limits: map<Comp, int>, s: Comp): set<Comp>
    requires s in graph && s in limits
  {
    set t | t in graph[s] && Whole(Share(ToTarget, limits[s] as real, graph[s][t]))
  }

  lemma AllTerms(graph: Table, limits: map<Comp, int>, s: Comp)
    requires s in graph && s in limits && Unshared(graph, limits, s)
    requires limits[s] >= 0 && forall t :: t in graph[s] ==> graph[s][t] > 0.0
    ensures forall t :: t in graph[s] ==>
      limits[s] as real - Amount(Reciprocals(graph, s), t, s) < Amount(Back(graph, limits), t, s) <= limits[s] as real
    ensures forall t :: t in graph[s] ==>
      (Amount(Back(graph, limits), t, s) == limits[s] as real <==> t in Uncut(graph, limits, s))
  {
    forall t | t in graph[s]
      ensures var v, back := limits[s] as real, Amount(Back(graph, limits), t, s);
        && v - Amount(Reciprocals(graph, s), t, s) < back <= v
        && (back == v <==> t in Uncut(graph, limits, s))
    {
      TermBounds(graph, limits, s, t);
    }
  }

  lemma SumLaw(table: Table, recips: Table, rows: set<nat>, s: Comp, v: real, exact: set<nat>)
    requires rows != {} && exact <= rows
    requires forall t :: t in rows ==> v - Amount(recips, t, s) < Amount(table, t, s) <= v
    requires forall t :: t in rows ==> (Amount(table, t, s) == v <==> t in exact)
    ensures Times(|rows|, v) - Sum(recips, rows, s) < Sum(table, rows, s) <= Times(|rows|, v)
    ensures Sum(table, rows, s) == Times(|rows|, v) <==> exact == rows
  {
    SumBounds(table, recips, rows, s, v);
    SumReaches(table, rows, s, v);
  }

  /** A value within `cut` below a bound, and equal to it in the given case alone. */
  predicate Near(r: real, bound: real, cut: real, exact: bool) {
    bound - cut < r <= bound && (r == bound <==> exact)
  }

  lemma RoundTripSums(graph: Table, limits: map<Comp, int>, s: Comp)
    requires s in graph && s in limits && graph[s] != map[] && Unshared(graph, limits, s)
    requires limits[s] >= 0 && forall t :: t in graph[s] ==> graph[s][t] > 0.0
    ensures s in Usage(graph, Reals(Limits(graph, limits)))
    ensures var targets := graph[s].Keys;
      Near(Usage(graph, Reals(Limits(graph, limits)))[s], Times(|targets|, limits[s] as real),
           Sum(Reciprocals(graph, s), targets, s), Uncut(graph, limits, s) == targets)
  {
    BackFromTargets(graph, limits, s);
    AllTerms(graph, limits, s);
    SumLaw(Back(graph, limits), Reciprocals(graph, s), graph[s].Keys, s, limits[s] as real, Uncut(graph, limits, s));
  }

  lemma TimesWhole(n: nat, v: int)
    ensures Times(n, v as real) == (n * v) as real
  {
    TimesIs(n, v as real);
  }

  /**
  Limits converted to the backend's components and back: with n targets, n times the value
  less the parts cut off, and exactly that when nothing was cut off.
   */
  lemma RoundTrip(graph: Table, limits: map<Comp, int>, s: Comp)
    requires s in graph && s in limits && graph[s] != map[] && Unshared(graph, limits, s)
    requires limits[s] >= 0 && forall t :: t in graph[s] ==> graph[s][t] > 0.0
    ensures s in Usage(graph, Reals(Limits(graph, limits)))
    ensures var targets := graph[s].Keys;
      Near(Usage(graph, Reals(Limits(graph, limits)))[s], (|targets| * limits[s]) as real,
           Sum(Reciprocals(graph, s), targets, s), Uncut(graph, limits, s) == targets)
  {
    RoundTripSums(graph, limits, s);
    TimesWhole(|graph[s].Keys|, limits[s]);
  }

  /** Each component adds to itself alone. */
  function Diagonal(row: Row): Table { map c | c in row :: map[c := row[c]] }

  lemma SharesItself(d: Direction, c: Comp, v: real)
    ensures Shares(d, Itself(c), v) == map[c := v]
  {
  }

  lemma PassthroughGraph(config: Config, c: Comp)
    requires c in config && forall s :: s in config ==> SelfMapped(config, s)
    ensures Graph(config)[c] == Itself(c) && Column(Graph(config), c) == Itself(c)
  {
    forall s | s in config ensures Graph(config)[s] == Itself(s) {
      assert SelfMapped(config, s);
    }
  }

  lemma PassthroughForward(config: Config, limits: map<Comp, int>)
    requires limits.Keys <= config.Keys && forall s :: s in config ==> SelfMapped(config, s)
    ensures Forward(Graph(config), limits) == Diagonal(Reals(limits))
  {
    forall s | s in limits ensures Forward(Graph(config), limits)[s] == Diagonal(Reals(limits))[s] {
      PassthroughGraph(config, s);
      SharesItself(ToTarget, s, limits[s] as real);
    }
  }

  lemma PassthroughBackRow(config: Config, usage: Row, t: Comp)
    requires usage.Keys <= config.Keys && t in usage && forall s :: s in config ==> SelfMapped(config, s)
    ensures Backward(Graph(config), usage)[t] == Diagonal(usage)[t]
  {
    PassthroughGraph(config, t);
    SharesItself(ToSource, t, usage[t]);
  }

  lemma PassthroughBackward(config: Config, usage: Row)
    requires usage.Keys <= config.Keys && forall s :: s in config ==> SelfMapped(config, s)
    ensures Backward(Graph(config), usage) == Diagonal(usage)
  {
    var back, diagonal := Backward(Graph(config), usage), Diagonal(usage);
    assert back.Keys == diagonal.Keys;
    forall t | t in back ensures back[t] == diagonal[t] {
      PassthroughBackRow(config, usage, t);
    }
  }

  lemma DiagonalSum(row: Row, c: Comp)
    requires c in row
    ensures c in Heads(Diagonal(row)) && Sum(Diagonal(row), row.Keys, c) == row[c]
  {
    var table := Diagonal(row);
    assert c in table[c];
    SumSame(table, {c}, table, row.Keys, c);
    SumAdd(table, {}, c, c);
    assert {} + {c} == {c};
  }

  lemma TotalsDiagonal(row: Row)
    ensures Totals(Diagonal(row)) == row
  {
    assert Diagonal(row).Keys == row.Keys;
    forall c | c in row ensures c in Heads(Diagonal(row)) && Sum(Diagonal(row), row.Keys, c) == row[c] {
      DiagonalSum(row, c);
    }
    forall c | c in Heads(Diagonal(row)) ensures c in row {
    }
  }

  /** With passthrough components only, converting there and back changes nothing. */
  lemma PassthroughIdentity(config: Config, limits: map<Comp, int>)
    requires limits.Keys <= config.Keys && forall s :: s in config ==> SelfMapped(config, s)
    ensures Limits(Graph(config), limits) == limits
    ensures Usage(Graph(config), Reals(Limits(Graph(config), limits))) == Reals(limits)
  {
    PassthroughForward(config, limits);
    PassthroughBackward(config, Reals(limits));
    TotalsDiagonal(Reals(limits));
    TruncatedReals(limits);
  }

  lemma TruncatedReals(m: map<Comp, int>)
    ensures Truncated(Reals(m)) == m
  {
  }
}
