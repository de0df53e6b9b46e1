/** The gates a candidate must pass before publication. */
module ReviewGates {
  import opened PyText

  // ---------- Protected paths ----------

  function Slashed(s: string): (r: string)
    ensures |r| == |s|
  {
    seq(|s|, i requires 0 <= i < |s| => if s[i] == '\\' then '/' else s[i])
  }

  // `lstrip("./")` takes off every leading dot and slash.
  function Undotted(s: string): (r: string) {
    if s != "" && s[0] in {'.', '/'} then Undotted(s[1..]) else s
  }

  function Normal(path: string): string { Undotted(Slashed(path)) }

  predicate Covers(item: string, path: string) {
    item != "" &&
    if item[|item| - 1] == '/' then item <= path else path == item || item + "/" <= path
  }

  const BUILTIN: string := ".actualcoder.yaml"

  // `path_is_protected`
  method PathIsProtected(path: string, rules: seq<string>) returns (r: bool)
    ensures r <==> exists i :: 0 <= i < |rules| && Covers(Normal(rules[i]), Normal(path))
  {
    var normalized := Normal(path);
    for k := 0 to |rules|
      invariant forall i :: 0 <= i < k ==> !Covers(Normal(rules[i]), normalized)
    {
      var item := Normal(rules[k]);
      if item == "" { continue; }
      if item[|item| - 1] == '/' {
        if item <= normalized { return true; }
      } else if normalized == item || item + "/" <= normalized {
        return true;
      }
    }
    r := false;
  }

  /** The normal form is the path without the dots and slashes at its front, and with slashes for
      backslashes. */
  lemma {:induction false} NormalIs(path: string)
    ensures var n := Normal(path);
      && |n| <= |path|
      && (forall i :: 0 <= i < |path| - |n| ==> path[i] in {'.', '/', '\\'})
      && (n != "" ==> n[0] !in {'.', '/'})
      && (forall i :: 0 <= i < |n| ==>
            n[i] == if path[|path| - |n| + i] == '\\' then '/' else path[|path| - |n| + i])
  {
    var s := Slashed(path);
    UndottedIs(s);
    hide Undotted;
    forall i | 0 <= i < |path| - |Normal(path)| ensures path[i] in {'.', '/', '\\'} {
      assert s[i] in {'.', '/'};
    }
  }

  /** So a rule and a path are compared without them: `.env` covers `env`, and `./src` covers `src`. */
  lemma {:induction false} LeadIsDropped(lead: string, path: string)
    requires forall i :: 0 <= i < |lead| ==> lead[i] in {'.', '/', '\\'}
    ensures Normal(lead + path) == Normal(path)
  {
    assert Slashed(lead + path) == Slashed(lead) + Slashed(path);
    UndottedAppend(Slashed(lead), Slashed(path));
  }

  lemma {:induction false} UndottedAppend(lead: string, path: string)
    requires forall i :: 0 <= i < |lead| ==> lead[i] in {'.', '/'}
    ensures Undotted(lead + path) == Undotted(path)
  {
    if lead == "" {
      assert lead + path == path;
    } else {
      assert (lead + path)[1..] == lead[1..] + path;
      UndottedAppend(lead[1..], path);
    }
  }

  lemma {:induction false} UndottedIs(s: string)
    ensures var n := Undotted(s);
      && |n| <= |s| && n == s[|s| - |n|..] && (n != "" ==> n[0] !in {'.', '/'})
      && forall i :: 0 <= i < |s| - |n| ==> s[i] in {'.', '/'}
  {
    if s != "" && s[0] in {'.', '/'} {
      UndottedIs(s[1..]);
      assert forall i :: 0 < i < |s| ==> s[i] == s[1..][i - 1];
    }
  }

  lemma {:induction false} BelowByParts(dir: string, path: string)
    ensures dir + "/" <= path ==> Parts(dir) < Parts(path)
    ensures Parts(dir) <= Parts(path) ==> path == dir || dir + "/" <= path
  {
    hide Parts;
    if dir + "/" <= path {
      var rest := path[|dir| + 1..];
      assert path == dir + "/" + rest;
      PartsAppend(dir, rest);
    }
    if Parts(dir) <= Parts(path) {
      var more := Parts(path)[|Parts(dir)|..];
      JoinParts(path);
      JoinParts(dir);
      assert Parts(path) == Parts(dir) + more;
      if more == [] {
        PartsEqual(dir, path);
      } else {
        JoinSlashAppend(Parts(dir), more);
        assert path == dir + "/" + JoinSlash(more);
      }
    }
  }

  /** A rule protects the path it names and what lies below it, by whole path components: `src`
      covers `src/a` but not `srcs`. */
  lemma {:induction false} CoversByComponents(item: string, path: string)
    requires item != ""
    ensures item[|item| - 1] != '/' ==> (Covers(item, path) <==> Parts(item) <= Parts(path))
    ensures item[|item| - 1] == '/' ==>
      (Covers(item, path) <==> Parts(item[..|item| - 1]) <= Parts(path) && |Parts(path)| >= |Parts(item)|)
  {
    hide Parts;
    if item[|item| - 1] == '/' {
      var dir := item[..|item| - 1];
      assert item == dir + "/" && item == dir + "/" + "";
      PartsAppend(dir, "");
      PartsEmpty();
      BelowByParts(dir, path);
    } else {
      BelowByParts(item, path);
    }
  }

  // ---------- The gates ----------

  datatype Blocker =
    | ValidationFailed
    | NotReviewable
    | DiffTruncated
    | ProtectedChanged
    | HistoryIncomplete
    | SecretsFound

  datatype Warning = ProtectedAllowed | SecretsOverridden

  datatype Check = Check(required: bool, passed: bool)

  /** What was collected about a candidate: `diff` is the one shown to a person, the findings are
      those of the secret scanner. */
  datatype Evidence = Evidence(
    rules: seq<string>,
    changed: seq<string>,
    checks: seq<Check>,
    reviewable: bool,
    diff: string,
    truncated: bool,
    historyComplete: bool,
    candidateFindings: seq<string>,
    historyFindings: seq<string>)

  datatype Gates = Gates(
    blockers: seq<Blocker>,
    warnings: seq<Warning>,
    protectedChanges: seq<string>,
    findings: seq<string>,
    scanOk: bool,
    diff: string,
    redactions: seq<string>,
    validationBlocked: bool)

  // The redacted text and the kinds of what was redacted.
  type Redact = string -> (string, seq<string>)

  predicate RequiredFails(checks: seq<Check>) {
    exists i :: 0 <= i < |checks| && checks[i].required && !checks[i].passed
  }

  predicate Protected(rules: seq<string>, path: string) {
    Covers(Normal(BUILTIN), Normal(path)) || exists i :: 0 <= i < |rules| && Covers(Normal(rules[i]), Normal(path))
  }

  predicate SomeProtected(e: Evidence) { exists i :: 0 <= i < |e.changed| && Protected(e.rules, e.changed[i]) }

  predicate SomeSecret(e: Evidence) { e.reviewable && (e.candidateFindings != [] || e.historyFindings != []) }

  /** What each blocker is for. */
  predicate Blocks(b: Blocker, e: Evidence, allowProtected: bool, allowSecret: bool) {
    match b
    case ValidationFailed => RequiredFails(e.checks)
    case NotReviewable => !e.reviewable
    case DiffTruncated => e.reviewable && e.truncated
    case ProtectedChanged => SomeProtected(e) && !allowProtected
    case HistoryIncomplete => !e.historyComplete
    case SecretsFound => SomeSecret(e) && !allowSecret
  }

  // The protected ones of the first `n` changed paths, in their order.
  function ProtectedAmong(rules: seq<string>, changed: seq<string>, n: nat): seq<string>
    requires n <= |changed|
  {
    if n == 0 then [] else
      ProtectedAmong(rules, changed, n - 1) + if Protected(rules, changed[n - 1]) then [changed[n - 1]] else []
  }

  lemma {:induction false} ProtectedAmongAre(rules: seq<string>, changed: seq<string>, n: nat)
    requires n <= |changed|
    ensures ProtectedAmong(rules, changed, n) != [] <==> exists i :: 0 <= i < n && Protected(rules, changed[i])
    ensures forall p :: p in ProtectedAmong(rules, changed, n) <==> p in changed[..n] && Protected(rules, p)
  {
    hide Protected;
    if n > 0 {
      ProtectedAmongAre(rules, changed, n - 1);
      assert changed[..n] == changed[..n - 1] + [changed[n - 1]];
    }
  }

  // `[path for path in changed_paths if path_is_protected(path, rules)]`
  method ProtectedChanges(e: Evidence) returns (r: seq<string>)
    ensures r == ProtectedAmong(e.rules, e.changed, |e.changed|)
    ensures forall p :: p in r <==> p in e.changed && Protected(e.rules, p)
    ensures r != [] <==> SomeProtected(e)
  {
    r := [];
    hide Protected, Covers, Normal;
    for k := 0 to |e.changed|
      invariant r == ProtectedAmong(e.rules, e.changed, k)
    {
      var covered := PathIsProtected(e.changed[k], e.rules + [BUILTIN]);
      RulesWithBuiltin(e.rules, e.changed[k]);
      if covered { r := r + [e.changed[k]]; }
    }
    AllProtectedAre(e.rules, e.changed);
  }

  lemma AllProtectedAre(rules: seq<string>, changed: seq<string>)
    ensures ProtectedAmong(rules, changed, |changed|) != [] <==>
      exists i :: 0 <= i < |changed| && Protected(rules, changed[i])
    ensures forall p :: p in ProtectedAmong(rules, changed, |changed|) <==> p in changed && Protected(rules, p)
  {
    ProtectedAmongAre(rules, changed, |changed|);
    assert changed[..|changed|] == changed;
  }

  // What the secret scans found, the candidate's before the history's.
  function Findings(e: Evidence): seq<string> {
    if e.reviewable then e.candidateFindings + e.historyFindings else []
  }

  lemma RulesWithBuiltin(rules: seq<string>, path: string)
    ensures var all := rules + [BUILTIN];
      Protected(rules, path) <==> exists i :: 0 <= i < |all| && Covers(Normal(all[i]), Normal(path))
  {
    hide Covers, Normal;
    var all := rules + [BUILTIN];
    assert all[|rules|] == BUILTIN;
    assert forall i :: 0 <= i < |rules| ==> all[i] == rules[i];
  }

  // The blockers, in the order they are reported.
  method ReportBlockers(e: Evidence, validationBlocked: bool, protected: bool, secret: bool, allowProtected: bool,
                        allowSecret: bool)
    returns (blockers: seq<Blocker>)
    requires validationBlocked == RequiredFails(e.checks) && protected == SomeProtected(e) && secret == SomeSecret(e)
    ensures forall b :: b in blockers <==> Blocks(b, e, allowProtected, allowSecret)
    ensures forall i, j :: 0 <= i < j < |blockers| ==> blockers[i] != blockers[j]
  {
    hide RequiredFails, SomeProtected, SomeSecret;
    blockers := [];
    blockers := Report(blockers, ValidationFailed, validationBlocked);
    blockers := Report(blockers, NotReviewable, !e.reviewable);
    blockers := Report(blockers, DiffTruncated, e.reviewable && e.truncated);
    blockers := Report(blockers, ProtectedChanged, protected && !allowProtected);
    blockers := Report(blockers, HistoryIncomplete, !e.historyComplete);
    blockers := Report(blockers, SecretsFound, secret && !allowSecret);
  }

  // What an unblocked candidate has shown.
  ghost predicate Clear(e: Evidence, allowProtected: bool, allowSecret: bool) {
    && !RequiredFails(e.checks) && e.reviewable && !e.truncated && e.historyComplete
    && (allowProtected || !SomeProtected(e)) && (allowSecret || !SomeSecret(e))
  }

  /** `evaluate_review_gates`: the blockers are those that have a reason, each once, and there is none
      exactly when the candidate is clear; protected changes and findings keep their order. */
  method EvaluateReviewGates(e: Evidence, redact: Redact, allowProtected: bool, allowSecret: bool) returns (g: Gates)
    ensures forall b :: b in g.blockers <==> Blocks(b, e, allowProtected, allowSecret)
    ensures forall i, j :: 0 <= i < j < |g.blockers| ==> g.blockers[i] != g.blockers[j]
    ensures g.blockers == [] <==> Clear(e, allowProtected, allowSecret)
    ensures g.validationBlocked <==> RequiredFails(e.checks)
    ensures g.protectedChanges == ProtectedAmong(e.rules, e.changed, |e.changed|)
    ensures forall p :: p in g.protectedChanges <==> p in e.changed && Protected(e.rules, p)
    ensures g.findings == Findings(e) && (g.scanOk <==> e.reviewable && e.historyComplete && Findings(e) == [])
    ensures (g.diff, g.redactions) == if e.reviewable then redact(e.diff) else (e.diff, [])
    ensures ProtectedAllowed in g.warnings <==> SomeProtected(e) && allowProtected
    ensures SecretsOverridden in g.warnings <==> SomeSecret(e) && allowSecret
  {
    hide Protected, RequiredFails, SomeProtected, Blocks, ProtectedAmong, Clear;
    var protectedChanges := ProtectedChanges(e);
    var validationBlocked := RequiredFails(e.checks);
    var findings := if e.reviewable then e.candidateFindings + e.historyFindings else [];
    var (diff, redactions) := if e.reviewable then redact(e.diff) else (e.diff, []);
    assert findings != [] <==> SomeSecret(e);
    hide SomeSecret;
    var blockers := ReportBlockers(e, validationBlocked, protectedChanges != [], findings != [], allowProtected,
                                   allowSecret);
    var warnings: seq<Warning> := [];
    warnings := Report(warnings, ProtectedAllowed, protectedChanges != [] && allowProtected);
    warnings := Report(warnings, SecretsOverridden, findings != [] && allowSecret);
    UnblockedMeans(e, allowProtected, allowSecret);
    NoneBlocks(blockers, e, allowProtected, allowSecret);
    g := Gates(blockers, warnings, protectedChanges, findings, e.reviewable && e.historyComplete && findings == [],
               diff, redactions, validationBlocked);
  }

  lemma NoneBlocks(blockers: seq<Blocker>, e: Evidence, allowProtected: bool, allowSecret: bool)
    requires forall b :: b in blockers <==> Blocks(b, e, allowProtected, allowSecret)
    ensures blockers == [] <==> Unblocked(e, allowProtected, allowSecret)
  {
    hide Blocks;
    if blockers != [] { assert blockers[0] in blockers; }
  }

  // One more entry of a report, when there is a reason for it.
  method Report<T(==)>(list: seq<T>, item: T, reason: bool) returns (r: seq<T>)
    requires item !in list && forall i, j :: 0 <= i < j < |list| ==> list[i] != list[j]
    ensures forall x :: x in r <==> x in list || (reason && x == item)
    ensures forall i, j :: 0 <= i < j < |r| ==> r[i] != r[j]
  {
    r := if reason then list + [item] else list;
  }

  ghost predicate Unblocked(e: Evidence, allowProtected: bool, allowSecret: bool) {
    forall b: Blocker :: !Blocks(b, e, allowProtected, allowSecret)
  }

  /** What an unblocked result says, and that it says no less. */
  lemma {:induction false} UnblockedMeans(e: Evidence, allowProtected: bool, allowSecret: bool)
    ensures Unblocked(e, allowProtected, allowSecret) <==> Clear(e, allowProtected, allowSecret)
  {
    hide RequiredFails, SomeProtected, SomeSecret;
    var p, q := allowProtected, allowSecret;
    if Unblocked(e, p, q) {
      assert !Blocks(ValidationFailed, e, p, q) && !Blocks(NotReviewable, e, p, q) && !Blocks(DiffTruncated, e, p, q);
      assert !Blocks(ProtectedChanged, e, p, q) && !Blocks(HistoryIncomplete, e, p, q) &&
        !Blocks(SecretsFound, e, p, q);
    }
  }

  /** Granting more never adds a blocker, and takes away only the one it is for. */
  lemma {:induction false} GrantingOnlyRemoves(e: Evidence, p: bool, s: bool, p': bool, s': bool, b: Blocker)
    requires (p ==> p') && (s ==> s')
    ensures Blocks(b, e, p', s') ==> Blocks(b, e, p, s)
    ensures Blocks(b, e, p, s) && !Blocks(b, e, p', s') ==>
      (b.ProtectedChanged? && p' && !p) || (b.SecretsFound? && s' && !s)
  {
  }
}
