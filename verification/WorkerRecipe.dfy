/** Handing a worker its recipes: which validation commands have an approved Python binding, and how
    the recipe text pairs that evidence with the commands again. */
module WorkerRecipe {
  import opened Wrappers

  datatype Command = Command(name: string, argv: seq<string>, timeout: Option<int>)

  datatype Runtime = Runtime(executable: string, fingerprint: int)

  datatype Binding = Binding(command: string, runtime: Runtime, platform: string, worktree: string)

  datatype Resolution = Resolution(requested: seq<string>, resolved: seq<string>, binding: Option<Binding>)

  datatype Evidence = Evidence(name: string, resolution: Resolution)

  predicate Runnable(commands: seq<Command>) { forall i :: 0 <= i < |commands| ==> commands[i].argv != [] }

  // ---------- Collecting the evidence ----------

  /** The approved binding of an executable name, read anew for the i-th command. */
  type Lookup = (nat, string) -> Option<Binding>

  predicate IsPython(name: string) { name in {"python", "python3"} }

  // `PythonBindings.resolve`
  function Resolve(argv: seq<string>, read: Option<Binding>): Resolution
    requires argv != []
  {
    if !IsPython(argv[0]) || read.None? then Resolution(argv, argv, None)
    else Resolution(argv, [read.value.runtime.executable] + argv[1..], read)
  }

  function EvidenceAt(commands: seq<Command>, lookup: Lookup, i: nat): Evidence
    requires i < |commands| && commands[i].argv != []
  {
    Evidence(commands[i].name, Resolve(commands[i].argv, lookup(i, commands[i].argv[0])))
  }

  predicate Bound(commands: seq<Command>, lookup: Lookup, i: nat)
    requires i < |commands| && commands[i].argv != []
  {
    EvidenceAt(commands, lookup, i).resolution.binding.Some?
  }

  ghost predicate Increasing(at: seq<nat>, n: nat) {
    && (forall k :: 0 <= k < |at| ==> at[k] < n)
    && (forall j, k :: 0 <= j < k < |at| ==> at[j] < at[k])
  }

  /** The evidence is that of the bound commands, in order; `origins` are their positions. */
  ghost predicate Originates(commands: seq<Command>, lookup: Lookup, evidence: seq<Evidence>, origins: seq<nat>, n: nat)
    requires Runnable(commands) && n <= |commands|
  {
    && Increasing(origins, n) && |evidence| == |origins|
    && (forall k :: 0 <= k < |origins| ==>
         Bound(commands, lookup, origins[k]) && evidence[k] == EvidenceAt(commands, lookup, origins[k]))
    && (forall i: nat :: i < n && Bound(commands, lookup, i) ==> i in origins)
  }

  // The positions of the bound ones among the first `n` commands.
  function Origins(commands: seq<Command>, lookup: Lookup, n: nat): seq<nat>
    requires Runnable(commands) && n <= |commands|
  {
    if n == 0 then [] else Origins(commands, lookup, n - 1) + if Bound(commands, lookup, n - 1) then [n - 1] else []
  }

  // The loop of `handoff_runtime_guidance`.
  method CollectEvidence(commands: seq<Command>, lookup: Lookup) returns (evidence: seq<Evidence>)
    requires Runnable(commands)
    ensures Originates(commands, lookup, evidence, Origins(commands, lookup, |commands|), |commands|)
  {
    evidence := [];
    hide Originates;
    NothingOriginates(commands, lookup);
    for i := 0 to |commands|
      invariant Originates(commands, lookup, evidence, Origins(commands, lookup, i), i)
    {
      OriginatesNext(commands, lookup, evidence, i);
      var resolution := Resolve(commands[i].argv, lookup(i, commands[i].argv[0]));
      if resolution.binding.Some? {
        evidence := evidence + [Evidence(commands[i].name, resolution)];
      }
    }
  }

  lemma NothingOriginates(commands: seq<Command>, lookup: Lookup)
    requires Runnable(commands)
    ensures Originates(commands, lookup, [], Origins(commands, lookup, 0), 0)
  {
  }

  lemma {:induction false} OriginatesNext(commands: seq<Command>, lookup: Lookup, evidence: seq<Evidence>, i: nat)
    requires Runnable(commands) && i < |commands|
    requires Originates(commands, lookup, evidence, Origins(commands, lookup, i), i)
    ensures Originates(commands, lookup,
                       if Bound(commands, lookup, i) then evidence + [EvidenceAt(commands, lookup, i)] else evidence,
                       Origins(commands, lookup, i + 1), i + 1)
  {
    hide Bound, EvidenceAt, Resolve, Increasing;
    var at := Origins(commands, lookup, i);
    assert at + [] == at;
    IncreasingPush(at, i);
    if Bound(commands, lookup, i) { assert i in at + [i]; }
    forall j: nat | j < i && Bound(commands, lookup, j) ensures j in Origins(commands, lookup, i + 1) {
      assert j in at;
    }
  }

  lemma IncreasingPush(at: seq<nat>, n: nat)
    requires Increasing(at, n)
    ensures Increasing(at, n + 1) && Increasing(at + [n], n + 1)
  {
  }

  // ---------- Pairing it with the commands ----------

  predicate Pairs(command: Command, item: Evidence) {
    command.name == item.name && command.argv == item.resolution.requested
  }

  // A matching command for each item, in order.
  ghost predicate Embeds(commands: seq<Command>, evidence: seq<Evidence>, at: seq<nat>) {
    Increasing(at, |commands|) && |at| == |evidence| &&
    forall k :: 0 <= k < |at| ==> Pairs(commands[at[k]], evidence[k])
  }

  function From(at: seq<nat>, k: nat): nat
    requires k <= |at|
  {
    if k == 0 then 0 else at[k - 1] + 1
  }

  // What the consuming iterator takes: each item the first match after the one before.
  ghost predicate Greedy(commands: seq<Command>, evidence: seq<Evidence>, at: seq<nat>) {
    |at| <= |evidence| && Increasing(at, |commands|) &&
    forall k :: 0 <= k < |at| ==>
      Pairs(commands[at[k]], evidence[k]) && FirstAt(commands, evidence[k], From(at, k), at[k])
  }

  ghost predicate FirstAt(commands: seq<Command>, item: Evidence, from: nat, to: nat)
    requires to <= |commands|
  {
    forall i :: from <= i < to ==> !Pairs(commands[i], item)
  }

  lemma GreedyAt(commands: seq<Command>, evidence: seq<Evidence>, at: seq<nat>, k: nat)
    requires Greedy(commands, evidence, at) && k < |at|
    ensures k < |evidence| && at[k] < |commands| && (k > 0 ==> at[k - 1] < at[k]) && From(at, k) <= at[k]
    ensures Pairs(commands[at[k]], evidence[k]) && FirstAt(commands, evidence[k], From(at, k), at[k])
  {
    hide Pairs, FirstAt;
  }

  lemma EmbedsAt(commands: seq<Command>, evidence: seq<Evidence>, at: seq<nat>, k: nat)
    requires Embeds(commands, evidence, at) && k < |at|
    ensures k < |evidence| == |at| && at[k] < |commands| && From(at, k) <= at[k] && Pairs(commands[at[k]], evidence[k])
  {
    hide Pairs;
  }

  lemma NotBefore(commands: seq<Command>, item: Evidence, from: nat, to: nat, i: nat)
    requires to <= |commands| && from <= i < |commands| && FirstAt(commands, item, from, to) && Pairs(commands[i], item)
    ensures i >= to
  {
    hide Pairs;
  }

  // Taking first matches is never behind any other way of pairing.
  lemma {:induction false} GreedyIsFirst(commands: seq<Command>, evidence: seq<Evidence>, at: seq<nat>,
                                         other: seq<nat>, k: nat)
    requires Greedy(commands, evidence, at) && Embeds(commands, evidence, other) && k < |at|
    ensures k < |other| && at[k] <= other[k]
  {
    hide Greedy, Embeds, Pairs, FirstAt;
    EmbedsLength(commands, evidence, other);
    GreedyAt(commands, evidence, at, k);
    EmbedsAt(commands, evidence, other, k);
    if k > 0 { GreedyIsFirst(commands, evidence, at, other, k - 1); }
    NotBefore(commands, evidence[k], From(at, k), at[k], other[k]);
  }

  /** The iterator of `recipe_guidance`: the position of the command each item is paired with, or
      nothing when it runs out, which it does only if no pairing exists. */
  method PairCommands(evidence: seq<Evidence>, commands: seq<Command>) returns (chosen: Option<seq<nat>>)
    ensures chosen.Some? ==> Greedy(commands, evidence, chosen.value) && |chosen.value| == |evidence|
    ensures chosen.None? ==> forall at :: !Embeds(commands, evidence, at)
  {
    var at: seq<nat> := [];
    var next: nat := 0;
    hide Greedy, Embeds, Pairs, FirstAt;
    GreedyNothing(commands, evidence);
    for k := 0 to |evidence|
      invariant |at| == k && Greedy(commands, evidence, at) && next == From(at, k) && next <= |commands|
    {
      FirstNothing(commands, evidence[k], next);
      while next < |commands| && !Pairs(commands[next], evidence[k])
        invariant From(at, k) <= next <= |commands| && FirstAt(commands, evidence[k], From(at, k), next)
      {
        FirstMore(commands, evidence[k], From(at, k), next);
        next := next + 1;
      }
      if next == |commands| {
        forall other ensures !Embeds(commands, evidence, other) { RunsOut(commands, evidence, at, other, k); }
        return None;
      }
      GreedyMore(commands, evidence, at, next);
      at := at + [next];
      next := next + 1;
    }
    chosen := Some(at);
  }

  lemma GreedyNothing(commands: seq<Command>, evidence: seq<Evidence>)
    ensures Greedy(commands, evidence, [])
  {
  }

  lemma FirstNothing(commands: seq<Command>, item: Evidence, from: nat)
    requires from <= |commands|
    ensures FirstAt(commands, item, from, from)
  {
  }

  lemma FirstMore(commands: seq<Command>, item: Evidence, from: nat, to: nat)
    requires to < |commands| && FirstAt(commands, item, from, to) && !Pairs(commands[to], item)
    ensures FirstAt(commands, item, from, to + 1)
  {
    hide Pairs;
  }

  lemma {:induction false} GreedyMore(commands: seq<Command>, evidence: seq<Evidence>, at: seq<nat>, next: nat)
    requires Greedy(commands, evidence, at) && |at| < |evidence| && From(at, |at|) <= next < |commands|
    requires Pairs(commands[next], evidence[|at|]) && FirstAt(commands, evidence[|at|], From(at, |at|), next)
    ensures Greedy(commands, evidence, at + [next])
  {
    hide Pairs, FirstAt, Increasing;
    var at' := at + [next];
    IncreasingMore(at, next, |commands|);
    forall k | 0 <= k < |at'|
      ensures Pairs(commands[at'[k]], evidence[k]) && FirstAt(commands, evidence[k], From(at', k), at'[k])
    {
      if k < |at| {
        GreedyAt(commands, evidence, at, k);
        assert at'[k] == at[k] && From(at', k) == From(at, k);
      } else {
        assert at'[k] == next && From(at', k) == From(at, k);
      }
    }
  }

  lemma IncreasingMore(at: seq<nat>, next: nat, n: nat)
    requires Increasing(at, n) && From(at, |at|) <= next < n
    ensures Increasing(at + [next], n)
  {
  }

  lemma {:induction false} RunsOut(commands: seq<Command>, evidence: seq<Evidence>, at: seq<nat>, other: seq<nat>,
                                   k: nat)
    requires k < |evidence| && |at| == k && Greedy(commands, evidence, at)
    requires FirstAt(commands, evidence[k], From(at, k), |commands|)
    ensures !Embeds(commands, evidence, other)
  {
    hide Greedy, Pairs, FirstAt, Increasing;
    if Embeds(commands, evidence, other) {
      hide Embeds;
      EmbedsLength(commands, evidence, other);
      EmbedsAt(commands, evidence, other, k);
      if k > 0 { GreedyIsFirst(commands, evidence, at, other, k - 1); }
      NotBefore(commands, evidence[k], From(at, k), |commands|, other[k]);
    }
  }

  lemma EmbedsLength(commands: seq<Command>, evidence: seq<Evidence>, at: seq<nat>)
    requires Embeds(commands, evidence, at)
    ensures |at| == |evidence|
  {
  }

  // No command that was left out of the evidence looks like the next one in it.
  ghost predicate Unshadowed(commands: seq<Command>, origins: seq<nat>)
    requires Increasing(origins, |commands|)
  {
    forall k, i :: 0 <= k < |origins| && From(origins, k) <= i < origins[k] ==>
      (commands[i].name, commands[i].argv) != (commands[origins[k]].name, commands[origins[k]].argv)
  }

  lemma {:induction false} OriginsEmbed(commands: seq<Command>, lookup: Lookup, evidence: seq<Evidence>,
                                        origins: seq<nat>)
    requires Runnable(commands) && Originates(commands, lookup, evidence, origins, |commands|)
    ensures Embeds(commands, evidence, origins)
  {
  }

  lemma {:induction false} SameChoice(commands: seq<Command>, evidence: seq<Evidence>, at: seq<nat>, other: seq<nat>,
                                      k: nat)
    requires Greedy(commands, evidence, at) && Greedy(commands, evidence, other) && k < |at| == |other|
    ensures at[k] == other[k]
  {
    hide Greedy, Pairs, FirstAt;
    if k > 0 { SameChoice(commands, evidence, at, other, k - 1); }
    GreedyAt(commands, evidence, at, k);
    GreedyAt(commands, evidence, other, k);
    NotBefore(commands, evidence[k], From(at, k), at[k], other[k]);
    NotBefore(commands, evidence[k], From(at, k), other[k], at[k]);
  }

  /** Pairing the collected evidence always succeeds, and it picks each item's own command exactly
      when no command left out of the evidence looks like the next one in it. */
  lemma {:induction false} PairingIsRight(commands: seq<Command>, lookup: Lookup, evidence: seq<Evidence>,
                                          origins: seq<nat>, chosen: Option<seq<nat>>)
    requires Runnable(commands) && Originates(commands, lookup, evidence, origins, |commands|)
    requires chosen.Some? ==> Greedy(commands, evidence, chosen.value) && |chosen.value| == |evidence|
    requires chosen.None? ==> forall at :: !Embeds(commands, evidence, at)
    ensures chosen.Some? && |chosen.value| == |origins|
    ensures chosen == Some(origins) <==> Unshadowed(commands, origins)
  {
    OriginsEmbed(commands, lookup, evidence, origins);
    var at := chosen.value;
    ShadowedIsGreedy(commands, lookup, evidence, origins);
    if Unshadowed(commands, origins) {
      hide Greedy, Originates;
      forall k | 0 <= k < |origins| ensures at[k] == origins[k] { SameChoice(commands, evidence, at, origins, k); }
      assert at == origins;
    }
  }

  lemma {:induction false} ShadowedIsGreedy(commands: seq<Command>, lookup: Lookup, evidence: seq<Evidence>,
                                            origins: seq<nat>)
    requires Runnable(commands) && Originates(commands, lookup, evidence, origins, |commands|)
    ensures Unshadowed(commands, origins) <==> Greedy(commands, evidence, origins)
  {
    OriginsEmbed(commands, lookup, evidence, origins);
    forall k, i: nat | 0 <= k < |origins| && From(origins, k) <= i < origins[k]
      ensures Pairs(commands[i], evidence[k]) <==>
        (commands[i].name, commands[i].argv) == (commands[origins[k]].name, commands[origins[k]].argv)
    {
      EmbedsAt(commands, evidence, origins, k);
    }
    hide Pairs;
  }

  /** The bindings do not change while the evidence is collected. */
  ghost predicate Stable(lookup: Lookup) { forall i, j, name :: lookup(i, name) == lookup(j, name) }

  /** With stable bindings the pairing is right, repeated names and arguments notwithstanding. */
  lemma {:induction false} StableIsUnshadowed(commands: seq<Command>, lookup: Lookup, evidence: seq<Evidence>,
                                              origins: seq<nat>)
    requires Runnable(commands) && Originates(commands, lookup, evidence, origins, |commands|) && Stable(lookup)
    ensures Unshadowed(commands, origins)
  {
    forall k, i: nat | 0 <= k < |origins| && From(origins, k) <= i < origins[k]
      ensures (commands[i].name, commands[i].argv) != (commands[origins[k]].name, commands[origins[k]].argv)
    {
      if commands[i].argv == commands[origins[k]].argv {
        assert lookup(i, commands[i].argv[0]) == lookup(origins[k], commands[i].argv[0]);
        assert Bound(commands, lookup, i);
        Between(origins, |commands|, k, i);
      }
    }
  }

  lemma Between(at: seq<nat>, n: nat, k: nat, i: nat)
    requires Increasing(at, n) && k < |at| && From(at, k) <= i < at[k]
    ensures i !in at
  {
  }

  /** A binding approved between two reads of a repeated command: its evidence comes from the second
      command and is paired with the first, whose timeout differs. */
  lemma {:induction false} ApprovedMidway(b: Binding) returns (commands: seq<Command>, lookup: Lookup)
    ensures |commands| == 2 && Runnable(commands) && commands[0].timeout != commands[1].timeout
    ensures Origins(commands, lookup, 2) == [1]
    ensures forall at :: |at| == 1 && Greedy(commands, [EvidenceAt(commands, lookup, 1)], at) ==> at == [0]
  {
    var argv := ["python", "-V"];
    commands := [Command("check", argv, Some(1)), Command("check", argv, Some(2))];
    lookup := (i: nat, name) => if i == 0 then None else Some(b);
    assert Bound(commands, lookup, 1) && !Bound(commands, lookup, 0);
    assert Origins(commands, lookup, 1) == Origins(commands, lookup, 0) + [] == [];
    var evidence := [EvidenceAt(commands, lookup, 1)];
    assert Pairs(commands[0], evidence[0]);
    forall at | |at| == 1 && Greedy(commands, evidence, at) ensures at == [0] {
      GreedyAt(commands, evidence, at, 0);
      NotBefore(commands, evidence[0], 0, at[0], 0);
    }
  }

  // ---------- One recipe ----------

  datatype Payload = Payload(requested: seq<string>, resolved: seq<string>, runtime: Runtime, worktree: string,
                             platform: string, timeout: int, outputLimit: int)

  datatype RecipeError = NoBinding | NotTheContract | NoShell

  function Min(a: int, b: int): int { if a < b then a else b }

  function Max(a: int, b: int): int { if a > b then a else b }

  // `build_worker_recipe`, without the rendering.
  function BuildRecipe(r: Resolution, timeout: int, outputLimit: int): Result<Payload, RecipeError> {
    if r.binding.None? then Err(NoBinding)
    else
      var b := r.binding.value;
      if !(2 <= |r.requested| <= 128) || r.requested[0] != b.command || !IsPython(r.requested[0]) ||
         r.resolved != [b.runtime.executable] + r.requested[1..]
      then Err(NotTheContract)
      else if b.platform !in {"win32", "darwin", "linux"} then Err(NoShell)
      else Ok(Payload(r.requested, r.resolved, b.runtime, b.worktree, b.platform,
                      Max(1, Min(timeout, 86400)), Max(1, Min(outputLimit, 4194304))))
  }

  /** A collected item is refused only for its length or platform: resolving keeps the contract's
      arguments. What is built keeps them too, under a binding read for its own command. */
  lemma {:induction false} CollectedRecipe(commands: seq<Command>, lookup: Lookup, i: nat, timeout: int, limit: int)
    requires i < |commands| && commands[i].argv != [] && Bound(commands, lookup, i)
    requires lookup(i, commands[i].argv[0]).value.command == commands[i].argv[0]
    ensures var argv, b := commands[i].argv, lookup(i, commands[i].argv[0]).value;
      var r := BuildRecipe(EvidenceAt(commands, lookup, i).resolution, timeout, limit);
      && (r.Ok? <==> 2 <= |argv| <= 128 && b.platform in {"win32", "darwin", "linux"})
      && (r.Ok? ==> r.value.requested == argv && r.value.resolved == [b.runtime.executable] + argv[1..])
      && (r.Ok? ==> r.value.runtime == b.runtime && r.value.worktree == b.worktree && r.value.platform == b.platform)
      && (r.Ok? ==> 1 <= r.value.timeout <= 86400 && 1 <= r.value.outputLimit <= 4194304)
  {
  }

  /** A recipe's time is the command's own if it gives one, else the settings', within both the settings'
      and a day, and at least a second. */
  lemma {:induction false} RecipeTime(r: Resolution, c: Command, limit: int, output: int)
    requires BuildRecipe(r, ChildTimeout(c, limit), output).Ok?
    ensures var time, own := BuildRecipe(r, ChildTimeout(c, limit), output).value.timeout, c.timeout;
      && 1 <= time <= 86400 && (limit >= 1 ==> time <= limit) && (own.Some? && own.value >= 1 ==> time <= own.value)
      && (time > 1 ==> time in {86400, limit} || own == Some(time))
      && (own.None? && 1 <= limit <= 86400 ==> time == limit)
  {
  }

  // ---------- From the bindings to the recipes ----------

  function ChildTimeout(c: Command, limit: int): int { Min(if c.timeout.Some? then c.timeout.value else limit, limit) }

  // Each item's recipe, under the timeout of the command it is paired with.
  ghost predicate Recipes(commands: seq<Command>, evidence: seq<Evidence>, at: seq<nat>, limit: int, output: int,
                          payloads: seq<Payload>)
  {
    |at| == |evidence| == |payloads| && Increasing(at, |commands|) &&
    forall k :: 0 <= k < |at| ==>
      BuildRecipe(evidence[k].resolution, ChildTimeout(commands[at[k]], limit), output) == Ok(payloads[k])
  }

  predicate RecipeFails(commands: seq<Command>, evidence: seq<Evidence>, at: seq<nat>, limit: int, output: int, k: int,
                        error: RecipeError)
    requires |at| == |evidence| && 0 <= k < |at|
  {
    at[k] < |commands| &&
    BuildRecipe(evidence[k].resolution, ChildTimeout(commands[at[k]], limit), output) == Err(error)
  }

  /** Collecting the evidence and making its recipes: each bound command gets one, in order, and under its
      own timeout exactly when nothing shadows it; so it is whenever bindings are stable. An error is
      that of some item, and pairing is never the reason. */
  method MakeRecipes(commands: seq<Command>, lookup: Lookup, limit: int, output: int)
    returns (evidence: seq<Evidence>, ghost at: seq<nat>, r: Result<seq<Payload>, RecipeError>)
    requires Runnable(commands)
    ensures Originates(commands, lookup, evidence, Origins(commands, lookup, |commands|), |commands|)
    ensures |at| == |evidence| && Greedy(commands, evidence, at)
    ensures at == Origins(commands, lookup, |commands|) <==> Unshadowed(commands, Origins(commands, lookup, |commands|))
    ensures Stable(lookup) ==> at == Origins(commands, lookup, |commands|)
    ensures r.Ok? ==> Recipes(commands, evidence, at, limit, output, r.value)
    ensures r.Err? ==> exists k :: 0 <= k < |evidence| && RecipeFails(commands, evidence, at, limit, output, k, r.error)
  {
    hide Greedy, Unshadowed, Stable, BuildRecipe, Originates, Increasing;
    evidence := CollectEvidence(commands, lookup);
    ghost var origins := Origins(commands, lookup, |commands|);
    OriginsIncrease(commands, lookup, evidence, origins);
    var chosen := PairCommands(evidence, commands);
    PairingIsRight(commands, lookup, evidence, origins, chosen);
    if Stable(lookup) { StableIsUnshadowed(commands, lookup, evidence, origins); }
    at := chosen.value;
    GreedyIncreases(commands, evidence, at);
    var payloads := [];
    for k := 0 to |evidence|
      invariant |payloads| == k
      invariant forall j :: 0 <= j < k ==>
        BuildRecipe(evidence[j].resolution, ChildTimeout(commands[at[j]], limit), output) == Ok(payloads[j])
    {
      var recipe := BuildRecipe(evidence[k].resolution, ChildTimeout(commands[chosen.value[k]], limit), output);
      if recipe.Err? {
        assert RecipeFails(commands, evidence, at, limit, output, k, recipe.error);
        r := Err(recipe.error);
        return;
      }
      payloads := payloads + [recipe.value];
    }
    r := Ok(payloads);
  }

  lemma OriginsIncrease(commands: seq<Command>, lookup: Lookup, evidence: seq<Evidence>, origins: seq<nat>)
    requires Runnable(commands) && Originates(commands, lookup, evidence, origins, |commands|)
    ensures Increasing(origins, |commands|) && |evidence| == |origins|
  {
  }

  lemma GreedyIncreases(commands: seq<Command>, evidence: seq<Evidence>, at: seq<nat>)
    requires Greedy(commands, evidence, at)
    ensures Increasing(at, |commands|) && forall k :: 0 <= k < |at| ==> at[k] < |commands|
  {
  }

  // ---------- Grouping by interpreter ----------

  datatype Named = Named(name: string, payload: Payload)

  function Only(items: seq<Named>, key: Runtime): seq<Named> {
    if items == [] then [] else
      Only(items[..|items| - 1], key) + (if items[|items| - 1].payload.runtime == key then [items[|items| - 1]] else [])
  }

  /** The groups are in order of first appearance, and each holds its interpreter's items in order. */
  ghost predicate Grouped(items: seq<Named>, keys: seq<Runtime>, groups: map<Runtime, seq<Named>>) {
    && (forall k :: k in keys <==> k in groups)
    && (forall i, j :: 0 <= i < j < |keys| ==> keys[i] != keys[j])
    && (forall k :: k in groups ==> groups[k] == Only(items, k) && groups[k] != [])
    && (forall i :: 0 <= i < |items| ==> items[i].payload.runtime in groups)
    && (forall i, j :: 0 <= i < j < |keys| ==> SeenBefore(items, keys[i], keys[j]))
  }

  // An item of the one interpreter comes before all of the other.
  predicate SeenBefore(items: seq<Named>, key: Runtime, other: Runtime) {
    exists a :: 0 <= a < |items| && items[a].payload.runtime == key &&
      forall b :: 0 <= b <= a ==> items[b].payload.runtime != other
  }

  lemma {:induction false} SeenStays(items: seq<Named>, item: Named, key: Runtime, other: Runtime)
    requires SeenBefore(items, key, other)
    ensures SeenBefore(items + [item], key, other)
  {
    var a :| 0 <= a < |items| && items[a].payload.runtime == key &&
      forall b :: 0 <= b <= a ==> items[b].payload.runtime != other;
    var more := items + [item];
    assert more[a] == items[a] && forall b :: 0 <= b <= a ==> more[b] == items[b];
  }

  // A new interpreter comes after those there are.
  lemma {:induction false} SeenFirst(items: seq<Named>, item: Named, key: Runtime)
    requires Only(items, key) != [] && forall i :: 0 <= i < |items| ==> items[i].payload.runtime != item.payload.runtime
    ensures SeenBefore(items + [item], key, item.payload.runtime)
  {
    OnlyHas(items, key);
    var first := Only(items, key)[0];
    var a :| 0 <= a < |items| && items[a] == first;
    var more := items + [item];
    assert more[a] == first && forall b :: 0 <= b <= a ==> more[b] == items[b];
  }

  lemma {:induction false} OnlyNext(items: seq<Named>, item: Named, key: Runtime)
    ensures Only(items + [item], key) == Only(items, key) + if item.payload.runtime == key then [item] else []
  {
    assert (items + [item])[..|items|] == items;
  }

  lemma {:induction false} OnlyNone(items: seq<Named>, key: Runtime)
    requires forall i :: 0 <= i < |items| ==> items[i].payload.runtime != key
    ensures Only(items, key) == []
  {
    if items != [] { OnlyNone(items[..|items| - 1], key); }
  }

  // The grouping of `recipe_guidance`.
  method GroupByRuntime(items: seq<Named>) returns (keys: seq<Runtime>, groups: map<Runtime, seq<Named>>)
    ensures Grouped(items, keys, groups)
  {
    keys, groups := [], map[];
    hide Only;
    for i := 0 to |items|
      invariant Grouped(items[..i], keys, groups)
    {
      var key := items[i].payload.runtime;
      hide Grouped;
      assert items[..i + 1] == items[..i] + [items[i]];
      GroupedNext(items[..i], items[i], keys, groups);
      if key !in groups {
        keys := keys + [key];
        groups := groups[key := []];
      }
      groups := groups[key := groups[key] + [items[i]]];
    }
    assert items[..|items|] == items;
  }

  lemma {:induction false} GroupedNext(items: seq<Named>, item: Named, keys: seq<Runtime>,
                                       groups: map<Runtime, seq<Named>>)
    requires Grouped(items, keys, groups)
    ensures var key := item.payload.runtime;
      if key in groups then Grouped(items + [item], keys, groups[key := groups[key] + [item]])
      else Grouped(items + [item], keys + [key], groups[key := []][key := [] + [item]])
  {
    hide Only, SeenBefore;
    var key := item.payload.runtime;
    var more := if key in groups then keys else keys + [key];
    forall i, j | 0 <= i < j < |more| ensures SeenBefore(items + [item], more[i], more[j]) {
      if j < |keys| { SeenStays(items, item, keys[i], keys[j]); } else { SeenFirst(items, item, keys[i]); }
    }
    forall k ensures Only(items + [item], k) == Only(items, k) + if key == k then [item] else [] {
      OnlyNext(items, item, k);
    }
    if key !in groups { OnlyNone(items, key); }
  }

  lemma {:induction false} OnlyHas(items: seq<Named>, key: Runtime)
    ensures forall i :: 0 <= i < |Only(items, key)| ==>
      Only(items, key)[i].payload.runtime == key && Only(items, key)[i] in items
    ensures multiset(Only(items, key)) <= multiset(items)
  {
    if items != [] {
      OnlyHas(items[..|items| - 1], key);
      assert items == items[..|items| - 1] + [items[|items| - 1]];
    }
  }

  /** A shared script is sound: every member of a group runs under the executable it is started with. */
  lemma {:induction false} GroupSharesExecutable(items: seq<Named>, keys: seq<Runtime>,
                                                 groups: map<Runtime, seq<Named>>, key: Runtime)
    requires Grouped(items, keys, groups) && key in groups
    ensures forall i :: 0 <= i < |groups[key]| ==>
      groups[key][i].payload.runtime.executable == groups[key][0].payload.runtime.executable && groups[key][i] in items
  {
    OnlyHas(items, key);
  }
}
