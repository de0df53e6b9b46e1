/** Planning and executing the reviewed finish of a workspace that anyone may change meanwhile. */
module Finish {
  import opened Wrappers
  import PyText
  import ReviewGates

  // ---------- The workspace ----------

  datatype Status = Status(head: string, dirty: bool, porcelain: string, ahead: int)

  datatype Saved = Saved(pushed: bool, mergeRequest: Option<string>, remoteBranch: Option<string>)

  /** The workspace at one moment: `diff` is its security diff, `changed` the paths that differ, and
      the bindings are the approved interpreters' records. */
  datatype World = World(status: Status, saved: Saved, changed: seq<string>, diff: string,
                         bindings: string -> Option<int>)

  datatype Write = Commit(message: string) | PushNew(target: string, title: string) | PushUpdate

  /** Reads see the workspace as it is at that moment, `seen` gives it for each; writes are logged. */
  class Manager {
    const seen: nat -> World
    var looks: nat
    var writes: seq<Write>

    constructor (seen: nat -> World)
      ensures this.seen == seen && looks == 0 && writes == []
    {
      this.seen := seen;
      looks, writes := 0, [];
    }

    method Read() returns (w: World)
      modifies this`looks
      ensures w == seen(old(looks)) && looks == old(looks) + 1
    {
      w := seen(looks);
      looks := looks + 1;
    }

    method Perform(w: Write)
      modifies this`writes
      ensures writes == old(writes) + [w]
    {
      writes := writes + [w];
    }
  }

  // ---------- Validations ----------

  // A contract's command; none for what is not a mapping, or an argument that is not a string.
  datatype Command = Command(name: string, argv: seq<Option<string>>, required: Option<bool>)

  datatype RunResult = RunResult(timedOut: bool, returncode: int, binding: Option<(string, int)>)

  datatype Validation = Validation(name: string, argv: seq<string>, required: bool, passed: bool, blocking: bool,
                                   result: RunResult)

  function Strings(argv: seq<Option<string>>): seq<string> {
    if argv == [] then [] else (if argv[0].Some? then [argv[0].value] else []) + Strings(argv[1..])
  }

  /** The arguments that are strings, in order. */
  lemma {:induction false} StringsAre(a: seq<Option<string>>, b: seq<Option<string>>, x: string)
    ensures Strings(a + b) == Strings(a) + Strings(b)
    ensures Strings([None]) == [] && Strings([Some(x)]) == [x] && Strings([]) == []
  {
    if a == [] {
      assert a + b == b;
    } else {
      StringsAre(a[1..], b, x);
      assert (a + b)[1..] == a[1..] + b;
    }
  }

  predicate Runs(c: Option<Command>) { c.Some? && Strings(c.value.argv) != [] }

  // The commands that are run, in order.
  function Runnable(commands: seq<Option<Command>>, n: nat): seq<Command>
    requires n <= |commands|
  {
    if n == 0 then [] else Runnable(commands, n - 1) + if Runs(commands[n - 1]) then [commands[n - 1].value] else []
  }

  predicate IsRequired(c: Command) { c.required.None? || c.required.value }

  // The validation of `c` with its result.
  predicate Validates(v: Validation, c: Command, r: RunResult) {
    && v.argv == Strings(c.argv) && v.argv != [] && v.required == (c.required != Some(false)) && v.result == r
    && v.name == (if c.name != "" then c.name else v.argv[0])
    && v.passed == (!r.timedOut && r.returncode == 0)
    && (v.blocking <==> v.required && !v.passed)
  }

  function Checks(vs: seq<Validation>): seq<ReviewGates.Check> {
    seq(|vs|, i requires 0 <= i < |vs| => ReviewGates.Check(vs[i].required, vs[i].passed))
  }

  /** `run_project_validations`: every runnable command once and in order; the flag is the one the
      gates compute again from the list. */
  method RunProjectValidations(commands: seq<Option<Command>>, run: nat -> RunResult)
    returns (validations: seq<Validation>, blocked: bool)
    ensures |validations| == |Runnable(commands, |commands|)|
    ensures forall i :: 0 <= i < |validations| ==> Validates(validations[i], Runnable(commands, |commands|)[i], run(i))
    ensures blocked <==> ReviewGates.RequiredFails(Checks(validations))
  {
    validations, blocked := [], false;
    for k := 0 to |commands|
      invariant |validations| == |Runnable(commands, k)|
      invariant forall i :: 0 <= i < |validations| ==> Validates(validations[i], Runnable(commands, k)[i], run(i))
      invariant blocked <==> exists i :: 0 <= i < |validations| && validations[i].blocking
    {
      if commands[k].None? { continue; }
      var c := commands[k].value;
      var argv := Strings(c.argv);
      if argv == [] { continue; }
      var required := IsRequired(c);
      var result := run(|validations|);
      var passed := !result.timedOut && result.returncode == 0;
      var blocking := required && !passed;
      ghost var before := validations;
      var name := if c.name != "" then c.name else argv[0];
      validations := validations + [Validation(name, argv, required, passed, blocking, result)];
      assert forall i :: 0 <= i < |before| ==> validations[i] == before[i];
      assert validations[|before|].blocking == blocking;
      blocked := blocked || blocking;
    }
    ghost var checks := Checks(validations);
    assert forall i :: 0 <= i < |checks| ==>
      checks[i] == ReviewGates.Check(validations[i].required, validations[i].passed);
    assert forall i :: 0 <= i < |checks| ==> (validations[i].blocking <==> checks[i].required && !checks[i].passed);
  }

  // ---------- The plan ----------

  /** The reviewed fields; their digest stands for them. `bindings` is absent when no validation ran
      under a bound interpreter. */
  datatype Snapshot = Snapshot(status: Status, saved: Saved, diff: string, bindings: Option<map<string, Option<int>>>)

  datatype PushAction = PushMr | Update

  datatype Action = Action(commitRequired: bool, message: string, push: PushAction, target: string, title: string)

  datatype FinishBlocker = Gate(b: ReviewGates.Blocker) | NoMessage | NothingToFinish | PushedWithoutRequest | NoTitle

  datatype Plan = Plan(ok: bool, snapshot: Snapshot, action: Action, blockers: seq<FinishBlocker>)

  /** The caller's texts and the project's merge request settings. */
  datatype Request = Request(message: string, title: string, targetBranch: string, titlePrefix: string,
                             latestSubject: string, allowProtected: bool, allowSecret: bool)

  // The bindings the first `n` results ran under, a later one for the same command replacing.
  function BoundRuntimes(run: nat -> RunResult, n: nat): map<string, Option<int>> {
    if n == 0 then map[] else
      var before, b := BoundRuntimes(run, n - 1), run(n - 1).binding;
      if b.Some? then before[b.value.0 := Some(b.value.1)] else before
  }

  lemma {:induction false} BoundRuntimesAre(run: nat -> RunResult, n: nat, command: string)
    ensures command in BoundRuntimes(run, n) <==> exists i: nat :: i < n && BoundTo(run(i), command)
    ensures command in BoundRuntimes(run, n) ==>
      exists i: nat :: i < n && LastBound(run, n, command, i) &&
        BoundRuntimes(run, n)[command] == Some(run(i).binding.value.1)
  {
    if n > 0 {
      BoundRuntimesAre(run, n - 1, command);
      if BoundTo(run(n - 1), command) {
        assert LastBound(run, n, command, n - 1);
      } else if command in BoundRuntimes(run, n) {
        var i: nat :| i < n - 1 && LastBound(run, n - 1, command, i) &&
          BoundRuntimes(run, n - 1)[command] == Some(run(i).binding.value.1);
        assert LastBound(run, n, command, i);
      }
    }
  }

  ghost predicate LastBound(run: nat -> RunResult, n: nat, command: string, i: nat) {
    BoundTo(run(i), command) && forall j: nat :: i < j < n ==> !BoundTo(run(j), command)
  }

  predicate BoundTo(r: RunResult, command: string) { r.binding.Some? && r.binding.value.0 == command }

  method BindingsOf(validations: seq<Validation>, ghost run: nat -> RunResult) returns (bound: map<string, Option<int>>)
    requires forall i :: 0 <= i < |validations| ==> validations[i].result == run(i)
    ensures bound == BoundRuntimes(run, |validations|)
  {
    bound := map[];
    for i := 0 to |validations|
      invariant bound == BoundRuntimes(run, i)
    {
      var b := validations[i].result.binding;
      if b.Some? { bound := bound[b.value.0 := Some(b.value.1)]; }
    }
  }

  // The merge request's title.
  function Title(r: Request, dirty: bool, ahead: int): string {
    var message, given := PyText.Strip(r.message), PyText.Strip(r.title);
    var subject := if dirty && message != "" then message else if ahead > 0 then r.latestSubject else "";
    if given == "" && subject != "" then r.titlePrefix + subject
    else if r.titlePrefix != "" && given != "" && !(r.titlePrefix <= given) then r.titlePrefix + given
    else given
  }

  /** A given title is kept, with the project's prefix put before it if it lacks that. Without one, the
      title is the prefix and the message of a commit to be made, or else the latest commit's subject. */
  lemma {:induction false} TitleIs(r: Request, dirty: bool, ahead: int)
    ensures var message, given, title := PyText.Strip(r.message), PyText.Strip(r.title), Title(r, dirty, ahead);
      && (given != "" && r.titlePrefix <= given ==> title == given)
      && (given != "" && !(r.titlePrefix <= given) ==> title == r.titlePrefix + given)
      && (given == "" && dirty && message != "" ==> title == r.titlePrefix + message)
      && (given == "" && !(dirty && message != "") && ahead > 0 && r.latestSubject != "" ==>
            title == r.titlePrefix + r.latestSubject)
      && (given == "" && !(dirty && message != "") && (ahead <= 0 || r.latestSubject == "") ==> title == "")
  {
    hide PyText.Strip;
  }

  /** What an executable plan's action must be, given what was reviewed. */
  predicate ActionFits(a: Action, s: Snapshot, prefix: string) {
    && a.commitRequired == s.status.dirty
    && (a.commitRequired ==> a.message != "" && PyText.Strip(a.message) == a.message)
    && (a.push.Update? <==> s.saved.pushed)
    && (a.push.PushMr? ==> a.title != "" && prefix <= a.title)
    && (s.saved.pushed ==> s.saved.mergeRequest.Some?)
    && (s.status.dirty || s.status.ahead > 0)
  }

  lemma {:induction false} TitleHasPrefix(r: Request, dirty: bool, ahead: int)
    ensures Title(r, dirty, ahead) != "" ==> r.titlePrefix <= Title(r, dirty, ahead)
  {
    hide PyText.Strip;
  }

  lemma StripTwice(s: string)
    ensures PyText.Strip(PyText.Strip(s)) == PyText.Strip(s)
  {
    PyText.StripEdges(s);
    PyText.StripEdges(PyText.Strip(s));
  }

  /** How the manager and the scanners look at a workspace: whether the changed paths can be reviewed,
      the diff for a person and whether it is cut, the scan of a diff, and the scan of the history
      between two commits that the status names. */
  datatype Inspector = Inspector(
    rules: seq<string>,
    reviewable: (World, seq<string>) -> bool,
    review: World -> (string, bool),
    scan: string -> seq<string>,
    history: (World, Status) -> (bool, seq<string>))

  // The diff in the snapshot: read at one moment, and only if the paths were found reviewable at another.
  function SecurityDiff(ins: Inspector, seen: nat -> World, n: nat): string {
    if ins.reviewable(seen(n + 3), seen(n + 2).changed) then seen(n + 5).diff else ""
  }

  const SKIPPED: string := "Full diff/security scan skipped"

  /** What the gates are given: each part as it was when it was read, one after the other. */
  function EvidenceAt(ins: Inspector, seen: nat -> World, n: nat, vs: seq<Validation>): ReviewGates.Evidence {
    var changed := seen(n + 2).changed;
    if ins.reviewable(seen(n + 3), changed) then
      var (diff, cut) := ins.review(seen(n + 4));
      var (complete, found) := ins.history(seen(n + 6), seen(n + 1).status);
      ReviewGates.Evidence(ins.rules, changed, Checks(vs), true, diff, cut, complete, ins.scan(seen(n + 5).diff), found)
    else ReviewGates.Evidence(ins.rules, changed, Checks(vs), false, SKIPPED, true, false, [], [])
  }

  predicate RequestMissing(s: Saved) { s.pushed && (s.mergeRequest.None? || s.mergeRequest.value == "") }

  // The blockers that come after the gates'.
  function OwnBlockers(s: Snapshot, message: string, title: string): seq<FinishBlocker> {
    (if s.status.dirty && message == "" then [NoMessage] else []) +
    (if !s.status.dirty && s.status.ahead <= 0 then [NothingToFinish] else []) +
    (if RequestMissing(s.saved) then [PushedWithoutRequest] else []) +
    (if !s.saved.pushed && title == "" then [NoTitle] else [])
  }

  /** The action has what it needs: a message for what is to be committed, something to publish, the merge
      request of a branch that was pushed, and a title for a new one. */
  predicate Suffices(s: Snapshot, message: string, title: string) {
    && (s.status.dirty ==> message != "") && (s.status.dirty || s.status.ahead > 0)
    && (s.saved.pushed ==> s.saved.mergeRequest.Some? && s.saved.mergeRequest.value != "")
    && (!s.saved.pushed ==> title != "")
  }

  lemma {:induction false} OwnBlockersAre(s: Snapshot, message: string, title: string)
    ensures OwnBlockers(s, message, title) == [] <==> Suffices(s, message, title)
    ensures var own := OwnBlockers(s, message, title);
      && (NoMessage in own <==> s.status.dirty && message == "")
      && (NothingToFinish in own <==> !s.status.dirty && s.status.ahead <= 0)
      && (PushedWithoutRequest in own <==>
            s.saved.pushed && (s.saved.mergeRequest.None? || s.saved.mergeRequest.value == ""))
      && (NoTitle in own <==> !s.saved.pushed && title == "")
  {
  }

  lemma {:induction false} NoOwnBlockers(s: Snapshot, r: Request, a: Action)
    requires a == ActionOf(r, s)
    requires OwnBlockers(s, a.message, a.title) == []
    ensures ActionFits(a, s, r.titlePrefix)
  {
    TitleHasPrefix(r, s.status.dirty, s.status.ahead);
    StripTwice(r.message);
    hide PyText.Strip, Title;
  }

  // What the request amounts to on a snapshot.
  function ActionOf(r: Request, s: Snapshot): Action {
    Action(s.status.dirty, PyText.Strip(r.message), if s.saved.pushed then Update else PushMr, r.targetBranch,
           Title(r, s.status.dirty, s.status.ahead))
  }

  lemma ActionIs(r: Request, s: Snapshot)
    ensures ActionOf(r, s).message == PyText.Strip(r.message) && ActionOf(r, s).target == r.targetBranch
  {
  }

  // The reads of `build_finish_plan` after the validations.
  method Inspect(m: Manager, ins: Inspector, ghost n: nat, vs: seq<Validation>)
    returns (e: ReviewGates.Evidence, status: Status, diff: string)
    requires m.looks == n + 1
    modifies m`looks
    ensures e == EvidenceAt(ins, m.seen, n, vs) && status == m.seen(n + 1).status &&
      diff == SecurityDiff(ins, m.seen, n)
    ensures m.looks == n + if e.reviewable then 7 else 4
  {
    var world := m.Read();
    status := world.status;
    world := m.Read();
    var changed := world.changed;
    world := m.Read();
    if ins.reviewable(world, changed) {
      world := m.Read();
      var (review, cut) := ins.review(world);
      world := m.Read();
      diff := world.diff;
      world := m.Read();
      var (complete, found) := ins.history(world, status);
      e := ReviewGates.Evidence(ins.rules, changed, Checks(vs), true, review, cut, complete, ins.scan(diff), found);
    } else {
      diff := "";
      e := ReviewGates.Evidence(ins.rules, changed, Checks(vs), false, SKIPPED, true, false, [], []);
    }
  }

  /** `build_finish_plan`: the saved state is read before the validations run, the rest one by one
      after. A plan is executable exactly when the evidence is clear and the action has what it needs;
      then the action fits the snapshot, whose diff is the one that was scanned for secrets. */
  method BuildFinishPlan(m: Manager, commands: seq<Option<Command>>, run: nat -> RunResult, ins: Inspector,
                         redact: ReviewGates.Redact, r: Request)
    returns (plan: Plan, validations: seq<Validation>)
    modifies m`looks
    ensures var ran := Runnable(commands, |commands|);
      && |validations| == |ran| && (forall i :: 0 <= i < |ran| ==> Validates(validations[i], ran[i], run(i)))
      && plan.snapshot.bindings ==
           (if BoundRuntimes(run, |ran|) == map[] then None else Some(BoundRuntimes(run, |ran|)))
    ensures var n := old(m.looks);
      && plan.snapshot.saved == m.seen(n).saved && plan.snapshot.status == m.seen(n + 1).status
      && plan.snapshot.diff == SecurityDiff(ins, m.seen, n)
    ensures plan.action == ActionOf(r, plan.snapshot)
    ensures plan.action.message == PyText.Strip(r.message) && plan.action.target == r.targetBranch
    ensures var e := EvidenceAt(ins, m.seen, old(m.looks), validations);
      && (forall b :: Gate(b) in plan.blockers <==> ReviewGates.Blocks(b, e, r.allowProtected, r.allowSecret))
      && (plan.ok <==>
            && ReviewGates.Clear(e, r.allowProtected, r.allowSecret)
            && Suffices(plan.snapshot, plan.action.message, plan.action.title))
    ensures plan.ok <==> plan.blockers == []
    ensures plan.ok ==> ActionFits(plan.action, plan.snapshot, r.titlePrefix)
  {
    hide *;
    var before := m.Read();
    var blocked;
    validations, blocked := RunProjectValidations(commands, run);
    ResultsAre(validations, commands, run);
    var e, status, diff := Inspect(m, ins, m.looks - 1, validations);
    var gates := ReviewGates.EvaluateReviewGates(e, redact, r.allowProtected, r.allowSecret);
    var runtimes := BindingsOf(validations, run);
    var snapshot := Snapshot(status, before.saved, diff, if runtimes == map[] then None else Some(runtimes));
    var action := ActionOf(r, snapshot);
    var blockers := Gated(gates.blockers) + OwnBlockers(snapshot, action.message, action.title);
    plan := Plan(blockers == [], snapshot, action, blockers);
    ActionIs(r, snapshot);
    GateBlockers(gates.blockers, snapshot, action.message, action.title);
    OwnBlockersAre(snapshot, action.message, action.title);
    if plan.ok { NoOwnBlockers(snapshot, r, action); }
  }

  lemma ResultsAre(vs: seq<Validation>, commands: seq<Option<Command>>, run: nat -> RunResult)
    requires |vs| == |Runnable(commands, |commands|)|
    requires forall i :: 0 <= i < |vs| ==> Validates(vs[i], Runnable(commands, |commands|)[i], run(i))
    ensures forall i :: 0 <= i < |vs| ==> vs[i].result == run(i)
  {
    hide Runnable;
  }

  function Gated(gates: seq<ReviewGates.Blocker>): seq<FinishBlocker> {
    seq(|gates|, i requires 0 <= i < |gates| => Gate(gates[i]))
  }

  lemma {:induction false} GateBlockers(gates: seq<ReviewGates.Blocker>, s: Snapshot, message: string, title: string)
    ensures var all := Gated(gates) + OwnBlockers(s, message, title);
      && (forall b :: Gate(b) in all <==> b in gates)
      && (all == [] <==> gates == [] && OwnBlockers(s, message, title) == [])
  {
    var own := OwnBlockers(s, message, title);
    assert forall b :: Gate(b) !in own;
    forall b ensures Gate(b) in Gated(gates) <==> b in gates {
      if b in gates {
        var i :| 0 <= i < |gates| && gates[i] == b;
        assert Gated(gates)[i] == Gate(b);
      }
    }
    assert |Gated(gates) + own| == |gates| + |own|;
  }

  /** What the gates say of the snapshot's diff: when a plan needed no allowance, its diff touches a
      protected path exactly when such a path appeared after the changed paths were read. */
  lemma {:induction false} GatesSpeakOf(ins: Inspector, seen: nat -> World, n: nat, vs: seq<Validation>,
                                        allowSecret: bool)
    requires ReviewGates.Clear(EvidenceAt(ins, seen, n, vs), false, allowSecret)
    ensures SecurityDiff(ins, seen, n) == seen(n + 5).diff
    ensures (exists p :: p in seen(n + 5).changed && ReviewGates.Protected(ins.rules, p)) <==>
      exists p :: p in seen(n + 5).changed && ReviewGates.Protected(ins.rules, p) && p !in seen(n + 2).changed
  {
    var e := EvidenceAt(ins, seen, n, vs);
    hide ReviewGates.Protected;
    forall p | p in e.changed ensures !ReviewGates.Protected(ins.rules, p) {
      var i :| 0 <= i < |e.changed| && e.changed[i] == p;
      assert !ReviewGates.Protected(e.rules, e.changed[i]);
    }
  }

  /** Such a path goes ungated: the contract's own file, changed between the two reads, is in the diff of
      an executable plan. */
  method LateProtectedPath(ins: Inspector, redact: ReviewGates.Redact) returns (plan: Plan, m: Manager)
    requires forall w, c :: ins.reviewable(w, c)
    requires forall w :: ins.review(w) == ("", false)
    requires forall w, s :: ins.history(w, s) == (true, [])
    requires forall d :: ins.scan(d) == []
    ensures plan.ok && ReviewGates.BUILTIN in m.seen(5).changed && plan.snapshot.diff == m.seen(5).diff
    ensures ReviewGates.Protected(ins.rules, ReviewGates.BUILTIN)
  {
    var early := World(Status("h", true, " M a", 0), Saved(false, None, None), ["a"], "d", c => None);
    var late := early.(changed := ["a", ReviewGates.BUILTIN], diff := "d and the contract");
    m := new Manager((i: nat) => if i < 5 then early.(changed := []) else late);
    var r := Request("m", "", "main", "", "", false, false);
    var validations;
    plan, validations := BuildFinishPlan(m, [], i => RunResult(false, 0, None), ins, redact, r);
    assert validations == [];
    OwnFile(ins.rules);
    PyText.StripEdges("m");
    assert PyText.Strip("") == "";
  }

  lemma OwnFile(rules: seq<string>)
    ensures ReviewGates.Protected(rules, ReviewGates.BUILTIN)
  {
    var item := ReviewGates.Normal(ReviewGates.BUILTIN);
    NormalOwn();
  }

  lemma NormalOwn()
    ensures ReviewGates.Normal(ReviewGates.BUILTIN) != ""
    ensures ReviewGates.Normal(ReviewGates.BUILTIN)[|ReviewGates.Normal(ReviewGates.BUILTIN)| - 1] != '/'
  {
    var s := ReviewGates.Slashed(ReviewGates.BUILTIN);
    assert s[0] == '.' && s[1..][0] == 'a';
    assert ReviewGates.Undotted(s) == s[1..];
    assert s[1..][|s[1..]| - 1] == 'l';
  }

  // ---------- Executing it ----------

  datatype FinishError = Blocked | Changed

  function CurrentBindings(expected: Option<map<string, Option<int>>>, w: World): Option<map<string, Option<int>>> {
    if expected.None? then None else Some(map command | command in expected.value :: w.bindings(command))
  }

  // The snapshot as it is read again: status, saved state, diff and bindings, one after the other.
  function ReadAgain(seen: nat -> World, n: nat, expected: Snapshot): Snapshot {
    Snapshot(seen(n).status, seen(n + 1).saved, seen(n + 2).diff, CurrentBindings(expected.bindings, seen(n + 3)))
  }

  /** Everything is still as reviewed: status, saved state and diff, and, for each command that a validation
      ran under a binding, that binding. Each is looked at once, one after the other. */
  ghost predicate StillAs(seen: nat -> World, n: nat, s: Snapshot) {
    && seen(n).status == s.status && seen(n + 1).saved == s.saved && seen(n + 2).diff == s.diff
    && (s.bindings.Some? ==>
          forall command :: command in s.bindings.value ==> seen(n + 3).bindings(command) == s.bindings.value[command])
  }

  lemma {:induction false} SameExactlyWhen(seen: nat -> World, n: nat, s: Snapshot)
    ensures ReadAgain(seen, n, s) == s <==> StillAs(seen, n, s)
  {
    if s.bindings.Some? && StillAs(seen, n, s) {
      assert CurrentBindings(s.bindings, seen(n + 3)).value == s.bindings.value;
    }
  }

  function Writes(a: Action): seq<Write> {
    (if a.commitRequired then [Commit(PyText.Strip(a.message))] else []) +
    [if a.push.PushMr? then PushNew(a.target, a.title) else PushUpdate]
  }

  /** `execute_finish`: it writes exactly when the plan was not blocked and every field read again is
      the reviewed one, and then it performs the plan's action. */
  method ExecuteFinish(m: Manager, plan: Plan) returns (r: Option<FinishError>)
    modifies m
    ensures r == None <==> plan.ok && StillAs(m.seen, old(m.looks), plan.snapshot)
    ensures m.writes == old(m.writes) + if r == None then Writes(plan.action) else []
    ensures r.Some? ==> r == Some(if plan.ok then Changed else Blocked)
  {
    SameExactlyWhen(m.seen, m.looks, plan.snapshot);
    if !plan.ok { return Some(Blocked); }
    var status := m.Read();
    var saved := m.Read();
    var diff := m.Read();
    var bindings := CurrentBindings(plan.snapshot.bindings, diff);
    if plan.snapshot.bindings.Some? {
      var bound := m.Read();
      bindings := CurrentBindings(plan.snapshot.bindings, bound);
    }
    var current := Snapshot(status.status, saved.saved, diff.diff, bindings);
    if current != plan.snapshot { return Some(Changed); }
    if plan.action.commitRequired { m.Perform(Commit(PyText.Strip(plan.action.message))); }
    if plan.action.push.PushMr? {
      m.Perform(PushNew(plan.action.target, plan.action.title));
    } else {
      m.Perform(PushUpdate);
    }
    r := None;
  }

  /** What is written fits the workspace as read again: it commits exactly when that is dirty, with a
      message, pushes an update exactly when that was pushed before, and otherwise opens a merge
      request with a title. */
  lemma {:induction false} WritesFit(plan: Plan, again: Snapshot, prefix: string)
    requires plan.ok ==> ActionFits(plan.action, plan.snapshot, prefix)
    requires plan.ok && again == plan.snapshot
    ensures var ws := Writes(plan.action);
      && ((exists message :: Commit(message) in ws) <==> again.status.dirty)
      && (forall message :: Commit(message) in ws ==> message != "" && message == PyText.Strip(plan.action.message))
      && (PushUpdate in ws <==> again.saved.pushed)
      && (forall target, title :: PushNew(target, title) in ws ==>
            target == plan.action.target && title == plan.action.title && title != "" && prefix <= title)
      && !ws[|ws| - 1].Commit?
      && |ws| == (if again.status.dirty then 2 else 1)
  {
    hide PyText.Strip;
    if again.status.dirty { assert Commit(PyText.Strip(plan.action.message)) in Writes(plan.action); }
  }
}
