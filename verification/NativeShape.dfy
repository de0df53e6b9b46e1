/** The bounded explicit-stack walk over a native job dictionary, and the validator of its report. */
module NativeShape {
  import opened Wrappers

  const MAX_NODES: nat := 4096
  const MAX_DEPTH: nat := 16
  const SCOPE := "synthetic-job-response-shape-only"
  const NAMES := ["Program", "ProgramArguments", "WorkingDirectory", "EnvironmentVariables"]
  const TAGS := {"absent", "dictionary", "array", "string", "boolean", "integer", "real", "data", "other"}

  datatype Value =
    | Dict(entries: seq<(string, Value)>)
    | List(items: seq<Value>)
    | Str(text: string)
    | Bool | Int | Real | Data | Other

  function Tag(v: Value): (t: string)
    ensures (t == "dictionary" <==> v.Dict?) && (t == "array" <==> v.List?) && (t == "string" <==> v.Str?)
    ensures (t == "boolean" <==> v.Bool?) && (t == "integer" <==> v.Int?) && (t == "real" <==> v.Real?)
    ensures (t == "data" <==> v.Data?) && (t == "other" <==> v.Other?)
  {
    match v
    case Dict(_) => "dictionary"
    case List(_) => "array"
    case Str(_) => "string"
    case Bool => "boolean"
    case Int => "integer"
    case Real => "real"
    case Data => "data"
    case Other => "other"
  }

  // The two fixture values that are counted.
  datatype Sought = Sought(cwd: string, env: string)

  datatype Counts = Counts(workingDirectoryKey: nat, environmentVariablesKey: nat, cwdValue: nat, envValue: nat)

  const NOTHING := Counts(0, 0, 0, 0)

  function Plus(a: Counts, b: Counts): Counts {
    Counts(a.workingDirectoryKey + b.workingDirectoryKey, a.environmentVariablesKey + b.environmentVariablesKey,
           a.cwdValue + b.cwdValue, a.envValue + b.envValue)
  }

  function One(b: bool): nat { if b then 1 else 0 }

  function KeyCounts(key: string): Counts {
    Counts(One(key == "WorkingDirectory"), One(key == "EnvironmentVariables"), 0, 0)
  }

  function TextCounts(s: Sought, text: string): Counts {
    Counts(0, 0, One(text == s.cwd), One(text == s.env))
  }

  // ---------- The recursive definition ----------

  /** Number of nodes, height, and occurrences of a tree or a collection of trees. */
  datatype Totals = Totals(nodes: nat, height: nat, counts: Counts)

  const EMPTY := Totals(0, 0, NOTHING)
  const NODE := Totals(1, 0, NOTHING)

  function Max(a: nat, b: nat): nat { if a < b then b else a }

  function Join(a: Totals, b: Totals): Totals {
    Totals(a.nodes + b.nodes, Max(a.height, b.height), Plus(a.counts, b.counts))
  }

  // The same trees `depth` levels further down; without nodes there is no height to raise.
  function At(t: Totals, depth: nat): Totals {
    if t.nodes == 0 then t else t.(height := t.height + depth)
  }

  // A tree: its own node above what is below it.
  function Measure(s: Sought, v: Value): (t: Totals)
    ensures t.nodes >= 1
    decreases v, 1, 0
  {
    Join(NODE, Below(s, v))
  }

  function Below(s: Sought, v: Value): Totals
    decreases v, 0, 1
  {
    match v
    case Dict(entries) => Entries(s, v, |entries|)
    case List(items) => Items(s, v, |items|)
    case Str(text) => Totals(0, 0, TextCounts(s, text))
    case _ => EMPTY
  }

  // The first `n` entries of a dictionary, one level down; keys are nodes too.
  function Entries(s: Sought, v: Value, n: nat): (t: Totals)
    requires v.Dict? && n <= |v.entries|
    decreases v, 0, 0, n
  {
    if n == 0 then EMPTY else Join(Entries(s, v, n - 1), Entry(s, v.entries[n - 1].0, v.entries[n - 1].1))
  }

  function Entry(s: Sought, key: string, item: Value): Totals
    decreases item, 2
  {
    Join(KeyNode(s, key), At(Measure(s, item), 1))
  }

  function KeyNode(s: Sought, key: string): Totals {
    Totals(1, 1, Plus(KeyCounts(key), TextCounts(s, key)))
  }

  function Items(s: Sought, v: Value, n: nat): (t: Totals)
    requires v.List? && n <= |v.items|
    decreases v, 0, 0, n
  {
    if n == 0 then EMPTY else Join(Items(s, v, n - 1), At(Measure(s, v.items[n - 1]), 1))
  }

  lemma {:induction false} EntryNodes(s: Sought, key: string, item: Value)
    ensures Entry(s, key, item).nodes >= 2
  {
    hide Measure;
  }

  lemma {:induction false} EntriesNodes(s: Sought, v: Value, n: nat)
    requires v.Dict? && n <= |v.entries|
    ensures Entries(s, v, n).nodes >= 2 * n && (n == 0 ==> Entries(s, v, n) == EMPTY)
  {
    hide Entry;
    if n > 0 {
      EntriesNodes(s, v, n - 1);
      EntryNodes(s, v.entries[n - 1].0, v.entries[n - 1].1);
    }
  }

  lemma {:induction false} ItemsNodes(s: Sought, v: Value, n: nat)
    requires v.List? && n <= |v.items|
    ensures Items(s, v, n).nodes >= n && (n == 0 ==> Items(s, v, n) == EMPTY)
  {
    hide Measure;
    if n > 0 { ItemsNodes(s, v, n - 1); }
  }

  lemma {:induction false} JoinLaws(a: Totals, b: Totals, c: Totals)
    ensures Join(a, b) == Join(b, a) && Join(Join(a, b), c) == Join(a, Join(b, c)) && Join(a, EMPTY) == a
  {
  }

  lemma {:induction false} AtJoin(a: Totals, b: Totals, depth: nat)
    requires (a.nodes == 0 ==> a.height == 0) && (b.nodes == 0 ==> b.height == 0)
    ensures At(Join(a, b), depth) == Join(At(a, depth), At(b, depth))
    ensures b.nodes > 0 ==> At(At(b, 1), depth) == At(b, depth + 1)
  {
  }

  // ---------- The same figures, from a list of all nodes ----------

  // Every node with its depth: a key is a text, one level below its dictionary.
  function Nodes(v: Value, depth: nat): seq<(Value, nat)>
    decreases v, 1, 0
  {
    [(v, depth)] + match v
      case Dict(entries) => EntryNodesOf(v, |entries|, depth + 1)
      case List(items) => ItemNodesOf(v, |items|, depth + 1)
      case _ => []
  }

  function EntryNodesOf(v: Value, n: nat, depth: nat): seq<(Value, nat)>
    requires v.Dict? && n <= |v.entries|
    decreases v, 0, n
  {
    if n == 0 then [] else
      EntryNodesOf(v, n - 1, depth) + ([(Str(v.entries[n - 1].0), depth)] + Nodes(v.entries[n - 1].1, depth))
  }

  function ItemNodesOf(v: Value, n: nat, depth: nat): seq<(Value, nat)>
    requires v.List? && n <= |v.items|
    decreases v, 0, n
  {
    if n == 0 then [] else ItemNodesOf(v, n - 1, depth) + Nodes(v.items[n - 1], depth)
  }

  // Every key of every dictionary in the tree.
  function Keys(v: Value): seq<string>
    decreases v, 1, 0
  {
    match v
    case Dict(entries) => EntryKeys(v, |entries|)
    case List(items) => ItemKeys(v, |items|)
    case _ => []
  }

  function EntryKeys(v: Value, n: nat): seq<string>
    requires v.Dict? && n <= |v.entries|
    decreases v, 0, n
  {
    if n == 0 then [] else EntryKeys(v, n - 1) + ([v.entries[n - 1].0] + Keys(v.entries[n - 1].1))
  }

  function ItemKeys(v: Value, n: nat): seq<string>
    requires v.List? && n <= |v.items|
    decreases v, 0, n
  {
    if n == 0 then [] else ItemKeys(v, n - 1) + Keys(v.items[n - 1])
  }

  function HowMany<T(==)>(xs: seq<T>, x: T): nat { multiset(xs)[x] }

  function Values(nodes: seq<(Value, nat)>): seq<Value> { seq(|nodes|, i requires 0 <= i < |nodes| => nodes[i].0) }

  // All of these nodes are this deep at most, and one of them is.
  ghost predicate Reaches(nodes: seq<(Value, nat)>, depth: nat) {
    (forall x :: x in nodes ==> x.1 <= depth) && exists x :: x in nodes && x.1 == depth
  }

  // The totals are those of the nodes, which start at the depth, and of the keys.
  ghost predicate TotalsOf(s: Sought, t: Totals, nodes: seq<(Value, nat)>, keys: seq<string>, depth: nat) {
    && |nodes| == t.nodes && (nodes != [] ==> Reaches(nodes, depth + t.height)) && (nodes == [] ==> t.height == 0)
    && t.counts == NodeCounts(s, Values(nodes), keys)
  }

  function NodeCounts(s: Sought, nodes: seq<Value>, keys: seq<string>): Counts {
    Counts(HowMany(keys, NAMES[2]), HowMany(keys, NAMES[3]), HowMany(nodes, Str(s.cwd)), HowMany(nodes, Str(s.env)))
  }

  lemma {:induction false} JoinCounts(s: Sought, m: seq<Value>, n: seq<Value>, j: seq<string>, k: seq<string>)
    ensures NodeCounts(s, m + n, j + k) == Plus(NodeCounts(s, m, j), NodeCounts(s, n, k))
  {
  }

  lemma HowManyOne<T>(x: T, y: T)
    ensures HowMany([x], y) == One(x == y) && HowMany([], y) == 0
  {
  }

  lemma {:induction false} JoinTotals(s: Sought, a: Totals, b: Totals, m: seq<(Value, nat)>, n: seq<(Value, nat)>,
                                      j: seq<string>, k: seq<string>, depth: nat)
    requires TotalsOf(s, a, m, j, depth) && TotalsOf(s, b, n, k, depth)
    ensures TotalsOf(s, Join(a, b), m + n, j + k, depth)
  {
    assert Values(m + n) == Values(m) + Values(n);
    JoinCounts(s, Values(m), Values(n), j, k);
    hide NodeCounts;
    if m == [] {
      assert m + n == n;
    } else if n == [] {
      assert m + n == m;
    } else {
      JoinReaches(m, n, depth + a.height, depth + b.height);
    }
  }

  lemma {:induction false} JoinReaches(m: seq<(Value, nat)>, n: seq<(Value, nat)>, d: nat, e: nat)
    requires Reaches(m, d) && Reaches(n, e)
    ensures Reaches(m + n, Max(d, e))
  {
    var x :| x in m && x.1 == d;
    var y :| y in n && y.1 == e;
    assert x in m + n && y in m + n;
  }

  lemma {:induction false} DeeperTotals(s: Sought, t: Totals, nodes: seq<(Value, nat)>, keys: seq<string>, depth: nat)
    requires TotalsOf(s, t, nodes, keys, depth + 1)
    ensures TotalsOf(s, At(t, 1), nodes, keys, depth)
  {
  }

  lemma {:induction false} OneNode(s: Sought, v: Value, depth: nat)
    ensures TotalsOf(s, Totals(1, 0, if v.Str? then TextCounts(s, v.text) else NOTHING), [(v, depth)], [], depth)
  {
    var nodes := [(v, depth)];
    assert nodes[0] in nodes && Values(nodes) == [v];
    HowManyOne(v, Str(s.cwd));
    HowManyOne(v, Str(s.env));
    HowManyOne("", NAMES[2]);
    HowManyOne("", NAMES[3]);
    hide HowMany;
  }

  lemma {:induction false} NoNodes(s: Sought, depth: nat)
    ensures TotalsOf(s, EMPTY, [], [], depth)
  {
  }

  // A key is a node one level down, counted as a text and as a key.
  lemma {:induction false} OneKey(s: Sought, v: Value, key: string, depth: nat, below: nat)
    requires v == Str(key) && below == depth + 1
    ensures TotalsOf(s, KeyNode(s, key), [(v, below)], [key], depth)
  {
    hide KeyCounts, NodeCounts;
    OneNode(s, v, below);
    KeyCountsAre(s, v, key);
    assert Values([(v, below)]) == [v];
  }

  // A key that is counted as such makes one more occurrence.
  lemma {:induction false} KeyCountsAre(s: Sought, v: Value, key: string)
    ensures NodeCounts(s, [v], [key]) == Plus(KeyCounts(key), NodeCounts(s, [v], []))
  {
    HowManyOne(key, NAMES[2]);
    HowManyOne(key, NAMES[3]);
    hide HowMany;
  }

  /** The recursive figures are those of the list of nodes: their number, the greatest depth, how many of
      them are each sought text, and how often each sought name is a key. */
  lemma {:induction false} MeasureIs(s: Sought, v: Value, depth: nat)
    ensures TotalsOf(s, Measure(s, v), Nodes(v, depth), Keys(v), depth)
    decreases v, 1, 0
  {
    hide TotalsOf, Join, At, Entry, Entries, Items, EntryNodesOf, ItemNodesOf, EntryKeys, ItemKeys;
    OneNode(s, v, depth);
    match v
    case Dict(entries) =>
      EntriesAre(s, v, |entries|, depth);
      JoinTotals(s, NODE, Entries(s, v, |entries|), [(v, depth)], EntryNodesOf(v, |entries|, depth + 1), [], Keys(v),
                 depth);
      assert [] + Keys(v) == Keys(v);
    case List(items) =>
      ItemsAre(s, v, |items|, depth);
      JoinTotals(s, NODE, Items(s, v, |items|), [(v, depth)], ItemNodesOf(v, |items|, depth + 1), [], Keys(v), depth);
      assert [] + Keys(v) == Keys(v);
    case Str(text) =>
      TextMeasure(s, v);
      JoinNode(TextCounts(s, text));
      assert [(v, depth)] + [] == [(v, depth)];
    case _ =>
      JoinNode(NOTHING);
      assert [(v, depth)] + [] == [(v, depth)];
  }

  lemma JoinNode(c: Counts)
    ensures Join(NODE, Totals(0, 0, c)) == Totals(1, 0, c)
  {
  }

  lemma {:induction false} EntriesAre(s: Sought, v: Value, n: nat, depth: nat)
    requires v.Dict? && n <= |v.entries|
    ensures TotalsOf(s, Entries(s, v, n), EntryNodesOf(v, n, depth + 1), EntryKeys(v, n), depth)
    decreases v, 0, n
  {
    hide TotalsOf, Join, At, Measure, Nodes, Keys, KeyNode;
    if n == 0 {
      NoNodes(s, depth);
    } else {
      var (key, item) := v.entries[n - 1];
      EntriesAre(s, v, n - 1, depth);
      MeasureIs(s, item, depth + 1);
      DeeperTotals(s, Measure(s, item), Nodes(item, depth + 1), Keys(item), depth);
      OneKey(s, Str(key), key, depth, depth + 1);
      JoinTotals(s, KeyNode(s, key), At(Measure(s, item), 1), [(Str(key), depth + 1)], Nodes(item, depth + 1), [key],
                 Keys(item), depth);
      JoinTotals(s, Entries(s, v, n - 1), Entry(s, key, item), EntryNodesOf(v, n - 1, depth + 1),
                 [(Str(key), depth + 1)] + Nodes(item, depth + 1), EntryKeys(v, n - 1), [key] + Keys(item), depth);
    }
  }

  lemma {:induction false} ItemsAre(s: Sought, v: Value, n: nat, depth: nat)
    requires v.List? && n <= |v.items|
    ensures TotalsOf(s, Items(s, v, n), ItemNodesOf(v, n, depth + 1), ItemKeys(v, n), depth)
    decreases v, 0, n
  {
    hide TotalsOf, Join, At, Measure, Nodes, Keys;
    if n == 0 {
      NoNodes(s, depth);
    } else {
      var item := v.items[n - 1];
      ItemsAre(s, v, n - 1, depth);
      MeasureIs(s, item, depth + 1);
      DeeperTotals(s, Measure(s, item), Nodes(item, depth + 1), Keys(item), depth);
      JoinTotals(s, Items(s, v, n - 1), At(Measure(s, item), 1), ItemNodesOf(v, n - 1, depth + 1),
                 Nodes(item, depth + 1), ItemKeys(v, n - 1), Keys(item), depth);
    }
  }

  // ---------- The walk ----------

  type Stack = seq<(Value, nat)>

  // What the first `n` stacked trees still hold, at the depths they were pushed with.
  ghost function Stacked(s: Sought, stack: Stack, n: nat): (t: Totals)
    requires n <= |stack|
    ensures t.nodes >= n
  {
    if n == 0 then EMPTY else
      Join(Stacked(s, stack, n - 1), At(Measure(s, stack[n - 1].0), stack[n - 1].1))
  }

  lemma {:induction false} StackedPrefix(s: Sought, a: Stack, b: Stack, n: nat)
    requires n <= |a| && n <= |b| && a[..n] == b[..n]
    ensures Stacked(s, a, n) == Stacked(s, b, n)
  {
    if n > 0 {
      assert a[n - 1] == a[..n][n - 1] == b[..n][n - 1] == b[n - 1];
      assert a[..n - 1] == a[..n][..n - 1] == b[..n][..n - 1] == b[..n - 1];
      StackedPrefix(s, a, b, n - 1);
    }
  }

  lemma {:induction false} Push(s: Sought, stack: Stack, v: Value, depth: nat)
    ensures Stacked(s, stack + [(v, depth)], |stack| + 1) ==
      Join(Stacked(s, stack, |stack|), At(Measure(s, v), depth))
  {
    StackedPrefix(s, stack + [(v, depth)], stack, |stack|);
  }

  lemma {:induction false} Pop(s: Sought, stack: Stack)
    requires stack != []
    ensures var n := |stack| - 1;
      Stacked(s, stack, |stack|) == Join(Stacked(s, stack[..n], n), At(Measure(s, stack[n].0), stack[n].1))
  {
    StackedPrefix(s, stack, stack[..|stack| - 1], |stack| - 1);
  }

  datatype Shape = Shape(scope: string, types: map<string, string>, topLevelEntries: int, visitedNodes: int,
                         maxDepthSeen: int, occurrences: map<string, int>, traversalComplete: bool)

  function Lookup(entries: seq<(string, Value)>, name: string): string {
    if entries == [] then "absent"
    else if entries[0].0 == name then Tag(entries[0].1)
    else Lookup(entries[1..], name)
  }

  function Types(entries: seq<(string, Value)>): map<string, string> {
    map name | name in NAMES :: Lookup(entries, name)
  }

  function Occurrences(c: Counts): map<string, int> {
    map["working_directory_key" := c.workingDirectoryKey, "environment_variables_key" := c.environmentVariablesKey,
        "fixture_cwd_value" := c.cwdValue, "fixture_environment_value" := c.envValue]
  }

  // `validate_native_shape`, true when it raises nothing.
  predicate Validates(shape: Shape) {
    && shape.scope == SCOPE
    && shape.types.Keys == {"Program", "ProgramArguments", "WorkingDirectory", "EnvironmentVariables"}
    && shape.types.Values <= TAGS
    && shape.occurrences.Keys == {"working_directory_key", "environment_variables_key",
                                  "fixture_cwd_value", "fixture_environment_value"}
    && 0 <= shape.topLevelEntries <= 262144
    && 1 <= shape.visitedNodes <= MAX_NODES
    && 0 <= shape.maxDepthSeen <= MAX_DEPTH
    && forall k :: k in shape.occurrences ==> 0 <= shape.occurrences[k] <= MAX_NODES
  }

  // Every counter is bounded by the nodes visited or queued.
  predicate Bounded(c: Counts, visited: nat, queued: nat) {
    && c.workingDirectoryKey <= visited + queued && c.environmentVariablesKey <= visited + queued
    && c.cwdValue <= visited && c.envValue <= visited
  }

  // What is still to be counted: some occurrences already, and the stacked trees.
  ghost function Held(s: Sought, counts: Counts, stack: Stack): Totals {
    Join(Totals(0, 0, counts), Stacked(s, stack, |stack|))
  }

  lemma {:induction false} HoldEntry(s: Sought, counts: Counts, stack: Stack, key: string, item: Value, depth: nat)
    ensures Held(s, Plus(counts, KeyCounts(key)), stack + [(Str(key), depth + 1)] + [(item, depth + 1)])
      == Join(Held(s, counts, stack), At(Entry(s, key, item), depth))
  {
    hide Measure, Stacked, Join, At, Plus, KeyCounts, TextCounts;
    var one := stack + [(Str(key), depth + 1)];
    TextMeasure(s, Str(key));
    Push(s, stack, Str(key), depth + 1);
    Push(s, one, item, depth + 1);
    assert |one| == |stack| + 1;
    HoldAlgebra(counts, Stacked(s, stack, |stack|), KeyCounts(key), TextCounts(s, key), Measure(s, item), depth);
  }

  lemma {:induction false} TextMeasure(s: Sought, v: Value)
    requires v.Str?
    ensures Measure(s, v) == Join(NODE, Totals(0, 0, TextCounts(s, v.text)))
  {
    hide Join, TextCounts;
    BelowFlat(s, v);
    BelowCases(s, v);
    assert Below(s, v) == Totals(0, 0, TextCounts(s, v.text));
  }

  lemma {:induction false} HoldAlgebra(counts: Counts, held: Totals, keys: Counts, texts: Counts, item: Totals,
                                       depth: nat)
    requires item.nodes > 0
    ensures Join(Totals(0, 0, Plus(counts, keys)),
                 Join(Join(held, At(Join(NODE, Totals(0, 0, texts)), depth + 1)), At(item, depth + 1)))
      == Join(Join(Totals(0, 0, counts), held), At(Join(Totals(1, 1, Plus(keys, texts)), At(item, 1)), depth))
  {
  }

  lemma {:induction false} HoldItem(s: Sought, counts: Counts, stack: Stack, item: Value, depth: nat)
    ensures Held(s, counts, stack + [(item, depth + 1)]) ==
      Join(Held(s, counts, stack), At(At(Measure(s, item), 1), depth))
  {
    hide Measure, Stacked;
    Push(s, stack, item, depth + 1);
    AtJoin(EMPTY, Measure(s, item), depth);
  }

  /** The expansion of one dictionary: its keys are counted, keys and items are stacked. */
  method PushEntries(ghost s: Sought, v: Value, depth: nat, stack: Stack, counts: Counts)
    returns (stack': Stack, counts': Counts)
    requires v.Dict?
    ensures |stack'| == |stack| + 2 * |v.entries|
    ensures Held(s, counts', stack') == Join(Held(s, counts, stack), At(Below(s, v), depth))
    ensures forall visited :: Bounded(counts, visited, |stack|) ==> Bounded(counts', visited, |stack'|)
  {
    hide Join, At, Entry, Measure, Held;
    stack', counts' := stack, counts;
    var i := 0;
    StartHeld(s, counts, stack, depth);
    while i < |v.entries|
      invariant i <= |v.entries| && |stack'| == |stack| + 2 * i
      invariant Held(s, counts', stack') == Join(Held(s, counts, stack), At(Entries(s, v, i), depth))
      invariant forall visited :: Bounded(counts, visited, |stack|) ==> Bounded(counts', visited, |stack'|)
    {
      var (key, item) := v.entries[i];
      HoldEntry(s, counts', stack', key, item, depth);
      EntriesNodes(s, v, i);
      EntryNodes(s, key, item);
      AddHeld(Held(s, counts, stack), Entries(s, v, i), Entry(s, key, item), depth);
      counts' := Plus(counts', KeyCounts(key));
      stack' := stack' + [(Str(key), depth + 1)] + [(item, depth + 1)];
      i := i + 1;
    }
  }

  lemma {:induction false} StartHeld(s: Sought, counts: Counts, stack: Stack, depth: nat)
    ensures Held(s, counts, stack) == Join(Held(s, counts, stack), At(EMPTY, depth))
  {
  }

  lemma {:induction false} AddHeld(held: Totals, below: Totals, one: Totals, depth: nat)
    requires one.nodes > 0 && (below.nodes == 0 ==> below == EMPTY)
    ensures Join(Join(held, At(below, depth)), At(one, depth)) == Join(held, At(Join(below, one), depth))
  {
  }

  method PushItems(ghost s: Sought, v: Value, depth: nat, stack: Stack, ghost counts: Counts) returns (stack': Stack)
    requires v.List?
    ensures |stack'| == |stack| + |v.items|
    ensures Held(s, counts, stack') == Join(Held(s, counts, stack), At(Below(s, v), depth))
  {
    hide Join, At, Measure, Held;
    stack' := stack;
    var i := 0;
    StartHeld(s, counts, stack, depth);
    while i < |v.items|
      invariant i <= |v.items| && |stack'| == |stack| + i
      invariant Held(s, counts, stack') == Join(Held(s, counts, stack), At(Items(s, v, i), depth))
    {
      HoldItem(s, counts, stack', v.items[i], depth);
      ItemsNodes(s, v, i);
      MeasureAt(s, v.items[i]);
      AddHeld(Held(s, counts, stack), Items(s, v, i), At(Measure(s, v.items[i]), 1), depth);
      stack' := stack' + [(v.items[i], depth + 1)];
      i := i + 1;
    }
  }

  lemma {:induction false} MeasureAt(s: Sought, v: Value)
    ensures At(Measure(s, v), 1).nodes > 0
  {
  }

  /** The part of the loop body that opens a visited node: keys, items and texts. */
  method Open(s: Sought, v: Value, depth: nat, visited: nat, stack: Stack, counts: Counts)
    returns (fits: bool, stack': Stack, counts': Counts)
    requires 1 <= visited && Bounded(counts, visited - 1, |stack| + 1) && visited + |stack| <= MAX_NODES
    ensures fits ==> Held(s, counts', stack') == Join(Held(s, counts, stack), At(Below(s, v), depth))
    ensures fits ==> visited + |stack'| <= MAX_NODES && Bounded(counts', visited, |stack'|)
    ensures !fits ==> Below(s, v).nodes + |stack| + visited > MAX_NODES && counts' == counts
  {
    fits, stack', counts' := true, stack, counts;
    BelowCases(s, v);
    hide Below, Join, At, Held;
    StartHeld(s, counts, stack, depth);
    if v.Dict? {
      if |v.entries| * 2 + |stack| + visited > MAX_NODES { return false, stack, counts; }
      stack', counts' := PushEntries(s, v, depth, stack, counts);
    } else if v.List? {
      if |v.items| + |stack| + visited > MAX_NODES { return false, stack, counts; }
      stack' := PushItems(s, v, depth, stack, counts);
    } else if v.Str? {
      counts' := Plus(counts, TextCounts(s, v.text));
      HoldText(s, counts, stack, v.text, depth);
    }
  }

  lemma {:induction false} BelowCases(s: Sought, v: Value)
    ensures match v
      case Dict(entries) => Below(s, v).nodes >= 2 * |entries|
      case List(items) => Below(s, v).nodes >= |items|
      case Str(text) => Below(s, v) == Totals(0, 0, TextCounts(s, text))
      case _ => Below(s, v) == EMPTY
  {
    hide Entries, Items;
    match v
    case Dict(entries) => EntriesNodes(s, v, |entries|);
    case List(items) => ItemsNodes(s, v, |items|);
    case _ =>
  }

  lemma {:induction false} HoldText(s: Sought, counts: Counts, stack: Stack, text: string, depth: nat)
    ensures Held(s, Plus(counts, TextCounts(s, text)), stack)
      == Join(Held(s, counts, stack), At(Totals(0, 0, TextCounts(s, text)), depth))
  {
    hide Stacked;
  }

  /** `native_shape`: the walk completes exactly when the tree has at most 4096 nodes and height
      at most 16; its figures are then those of the recursive definition. Its report is always
      accepted by the validator when the top-level entry count is. */
  method Walk(job: Value, s: Sought) returns (shape: Shape)
    requires job.Dict?
    ensures shape.traversalComplete <==> Measure(s, job).nodes <= MAX_NODES && Measure(s, job).height <= MAX_DEPTH
    ensures shape.traversalComplete ==>
      && shape.visitedNodes == Measure(s, job).nodes && shape.maxDepthSeen == Measure(s, job).height
      && shape.occurrences == Occurrences(Measure(s, job).counts)
    ensures shape.scope == SCOPE && shape.topLevelEntries == |job.entries| && shape.types == Types(job.entries)
    ensures Validates(shape) <==> |job.entries| <= 262144
  {
    hide Measure, Below, Join, Held, Stacked, Types, Occurrences, Validates;
    var visited: nat, maxDepth: nat, counts: Counts, complete := 0, 0, NOTHING, true;
    var stack: Stack := [(job, 0)];
    ghost var all := Measure(s, job);
    StartWalk(s, job);
    while stack != []
      invariant Join(Totals(visited, maxDepth, NOTHING), Held(s, counts, stack)) == all
      invariant visited + |stack| <= MAX_NODES && maxDepth <= MAX_DEPTH && Bounded(counts, visited, |stack|)
      invariant complete && (visited == 0 ==> stack == [(job, 0)])
      decreases all.nodes - visited
    {
      var (value, depth) := stack[|stack| - 1];
      Visit(s, stack, counts, visited, maxDepth, all);
      stack := stack[..|stack| - 1];
      if depth > MAX_DEPTH || visited >= MAX_NODES {
        complete := false;
        break;
      }
      visited := visited + 1;
      maxDepth := Max(maxDepth, depth);
      ghost var rest, was := stack, counts;
      complete, stack, counts := Open(s, value, depth, visited, stack, counts);
      if !complete { break; }
      JoinLaws(Totals(visited, maxDepth, NOTHING), Held(s, was, rest), At(Below(s, value), depth));
    }
    if complete { EndWalk(s, visited, maxDepth, counts); }
    shape := Shape(SCOPE, Types(job.entries), |job.entries|, visited, maxDepth, Occurrences(counts), complete);
    Accepted(shape, job.entries, counts);
  }

  lemma {:induction false} StartWalk(s: Sought, job: Value)
    ensures Join(Totals(0, 0, NOTHING), Held(s, NOTHING, [(job, 0)])) == Measure(s, job)
  {
    hide Measure;
    Push(s, [], job, 0);
    assert [] + [(job, 0)] == [(job, 0)];
  }

  lemma {:induction false} EndWalk(s: Sought, visited: nat, maxDepth: nat, counts: Counts)
    ensures Join(Totals(visited, maxDepth, NOTHING), Held(s, counts, [])) == Totals(visited, maxDepth, counts)
  {
  }

  // The node on top of the stack, split into itself and what is below it.
  lemma {:induction false} Visit(s: Sought, stack: Stack, counts: Counts, visited: nat, maxDepth: nat, all: Totals)
    requires stack != [] && Join(Totals(visited, maxDepth, NOTHING), Held(s, counts, stack)) == all
    ensures var n := |stack| - 1;
      var (v, depth) := stack[n];
      && Join(Join(Totals(visited + 1, Max(maxDepth, depth), NOTHING), Held(s, counts, stack[..n])),
           At(Below(s, v), depth)) == all
      && all.nodes >= visited + 1 + n + Below(s, v).nodes && all.height >= depth
      && Stacked(s, stack, |stack|).nodes == Stacked(s, stack[..n], n).nodes + 1 + Below(s, v).nodes
  {
    hide Measure, Below, Stacked, Join, At;
    var n := |stack| - 1;
    var (v, depth) := stack[n];
    Pop(s, stack);
    BelowFlat(s, v);
    StackedNodes(s, stack[..n], n);
    VisitAlgebra(visited, maxDepth, counts, Stacked(s, stack[..n], n), Below(s, v), depth);
  }

  lemma {:induction false} BelowFlat(s: Sought, v: Value)
    ensures Measure(s, v) == Join(NODE, Below(s, v))
    ensures Below(s, v).nodes == 0 ==> Below(s, v).height == 0
  {
    hide Entries, Items;
    match v
    case Dict(entries) => EntriesNodes(s, v, |entries|);
    case List(items) => ItemsNodes(s, v, |items|);
    case _ =>
  }

  lemma {:induction false} StackedNodes(s: Sought, stack: Stack, n: nat)
    requires n <= |stack|
    ensures Stacked(s, stack, n).nodes >= n
  {
  }

  lemma {:induction false} VisitAlgebra(visited: nat, maxDepth: nat, counts: Counts, rest: Totals, below: Totals,
                                        depth: nat)
    requires below.nodes == 0 ==> below.height == 0
    ensures var all := Join(Totals(visited, maxDepth, NOTHING),
                            Join(Totals(0, 0, counts), Join(rest, At(Join(NODE, below), depth))));
      && Join(Join(Totals(visited + 1, Max(maxDepth, depth), NOTHING), Join(Totals(0, 0, counts), rest)),
           At(below, depth)) == all
      && all.nodes == visited + 1 + rest.nodes + below.nodes && all.height >= depth
    ensures Join(rest, At(Join(NODE, below), depth)).nodes == rest.nodes + 1 + below.nodes
  {
  }

  lemma {:induction false} Accepted(shape: Shape, entries: seq<(string, Value)>, c: Counts)
    requires shape.scope == SCOPE && shape.types == Types(entries) && shape.topLevelEntries == |entries|
    requires 1 <= shape.visitedNodes <= MAX_NODES && 0 <= shape.maxDepthSeen <= MAX_DEPTH
    requires shape.occurrences == Occurrences(c)
    requires c.workingDirectoryKey <= MAX_NODES && c.environmentVariablesKey <= MAX_NODES
    requires c.cwdValue <= MAX_NODES && c.envValue <= MAX_NODES
    ensures Validates(shape) <==> |entries| <= 262144
  {
    TypesAreTags(entries);
  }

  // The entry is the one with this key; a dictionary has no other.
  predicate IsFirst(entries: seq<(string, Value)>, name: string, i: int) {
    0 <= i < |entries| && entries[i].0 == name && forall j :: 0 <= j < i ==> entries[j].0 != name
  }

  /** What the report says of a completed walk, by name: how often each sought name is a key anywhere, and
      each sought text a node; and the type of each selected top-level entry. */
  lemma {:induction false} ReportIs(s: Sought, job: Value)
    requires job.Dict?
    ensures var o, nodes := Occurrences(Measure(s, job).counts), Nodes(job, 0);
      && o.Keys == {"working_directory_key", "environment_variables_key", "fixture_cwd_value",
                    "fixture_environment_value"}
      && o["working_directory_key"] == HowMany(Keys(job), "WorkingDirectory")
      && o["environment_variables_key"] == HowMany(Keys(job), "EnvironmentVariables")
      && o["fixture_cwd_value"] == HowMany(Values(nodes), Str(s.cwd))
      && o["fixture_environment_value"] == HowMany(Values(nodes), Str(s.env))
      && Measure(s, job).nodes == |nodes| && Reaches(nodes, Measure(s, job).height)
    ensures forall name :: name in NAMES ==> name in Types(job.entries)
    ensures forall name :: name in NAMES && (forall i :: 0 <= i < |job.entries| ==> job.entries[i].0 != name) ==>
      Types(job.entries)[name] == "absent"
    ensures forall name, i :: name in NAMES && IsFirst(job.entries, name, i) ==>
      Types(job.entries)[name] == Tag(job.entries[i].1)
  {
    MeasureIs(s, job, 0);
    hide Measure, Nodes, Keys, HowMany, Values, Reaches, Lookup, Tag;
    forall name | forall i :: 0 <= i < |job.entries| ==> job.entries[i].0 != name
      ensures Lookup(job.entries, name) == "absent"
    {
      LookupAbsent(job.entries, name);
    }
    forall name, i | IsFirst(job.entries, name, i)
      ensures Lookup(job.entries, name) == Tag(job.entries[i].1)
    {
      LookupAt(job.entries, name, i);
    }
  }

  lemma {:induction false} LookupAbsent(entries: seq<(string, Value)>, name: string)
    requires forall i :: 0 <= i < |entries| ==> entries[i].0 != name
    ensures Lookup(entries, name) == "absent"
  {
    if entries != [] { LookupAbsent(entries[1..], name); }
  }

  lemma {:induction false} LookupAt(entries: seq<(string, Value)>, name: string, i: nat)
    requires i < |entries| && entries[i].0 == name && forall j :: 0 <= j < i ==> entries[j].0 != name
    ensures Lookup(entries, name) == Tag(entries[i].1)
  {
    if i > 0 { LookupAt(entries[1..], name, i - 1); }
  }

  lemma {:induction false} LookupIsTag(entries: seq<(string, Value)>, name: string)
    ensures Lookup(entries, name) in TAGS
  {
    if entries != [] && entries[0].0 != name { LookupIsTag(entries[1..], name); }
  }

  lemma {:induction false} TypesAreTags(entries: seq<(string, Value)>)
    ensures Types(entries).Keys == {"Program", "ProgramArguments", "WorkingDirectory", "EnvironmentVariables"}
    ensures Types(entries).Values <= TAGS
  {
    forall name | name in NAMES ensures Lookup(entries, name) in TAGS { LookupIsTag(entries, name); }
  }
}
