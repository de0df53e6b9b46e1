/** The secret scanner over `git log -p` / `git diff` text, and the printed form it reads.
    Credential patterns, escape removal and path redaction are parameters. */
module SecretScan {
  import opened Wrappers
  import opened PyText
  import Utf8

  datatype Rules = Rules(clean: string -> string, patterns: seq<(string, string -> bool)>, redactPath: string -> string)

  datatype Finding = Finding(kind: string, path: Option<string>, line: string, commit: Option<string>)

  // ---------- The scanner ----------

  // `text.split("\n")`
  function SplitLf(text: string): (lines: seq<string>)
    ensures lines != []
  {
    if text == "" then [""] else
      var rest := SplitLf(text[1..]);
      if text[0] == '\n' then [""] + rest else [[text[0]] + rest[0]] + rest[1..]
  }

  predicate IsHex(c: char) { '0' <= c <= '9' || 'a' <= c <= 'f' }

  // Full match of `commit [0-9a-f]{40}(?:[0-9a-f]{24})?`
  predicate IsCommitLine(line: string) {
    "commit " <= line && |line| in {47, 71} && forall i :: 7 <= i < |line| ==> IsHex(line[i])
  }

  // The path named by a `+++ ` line.
  function NewPath(line: string): Option<string>
    requires "+++ " <= line
  {
    var value := Strip(line[4..]);
    if value == "/dev/null" then None else Some(if "b/" <= value then value[2..] else value)
  }

  datatype State = State(path: Option<string>, commit: Option<string>, inHunk: bool)

  const START := State(None, None, false)

  function Step(st: State, line: string): State {
    if IsCommitLine(line) then State(None, Some(line[7..]), false)
    else if "diff --git " <= line then State(None, st.commit, false)
    else if "@@ " <= line then State(st.path, st.commit, true)
    else if !st.inHunk && "+++ " <= line then State(NewPath(line), st.commit, false)
    else st
  }

  predicate IsAdded(st: State, line: string) {
    st.inHunk && "+" <= line
  }

  function Shown(rules: Rules, path: Option<string>): Option<string> {
    if path.None? || path.value == "" then None else Some(rules.redactPath(path.value))
  }

  // Findings in one added line from pattern `k` on, in pattern order.
  function Matches(rules: Rules, path: Option<string>, commit: Option<string>, text: string, k: nat): seq<Finding>
    requires k <= |rules.patterns|
    decreases |rules.patterns| - k
  {
    if k == |rules.patterns| then [] else
      var (kind, matches) := rules.patterns[k];
      (if matches(rules.clean(text))
       then [Finding(kind, Shown(rules, path), "[REDACTED:" + kind + "]", commit)] else [])
      + Matches(rules, path, commit, text, k + 1)
  }

  function Hits(rules: Rules, st: State, line: string): seq<Finding> {
    if IsAdded(st, line) then Matches(rules, st.path, st.commit, line[1..], 0) else []
  }

  function Final(st: State, lines: seq<string>): State
    decreases lines
  {
    if lines == [] then st else Final(Step(st, lines[0]), lines[1..])
  }

  function Found(rules: Rules, st: State, lines: seq<string>): seq<Finding>
    decreases lines
  {
    if lines == [] then [] else Hits(rules, st, lines[0]) + Found(rules, Step(st, lines[0]), lines[1..])
  }

  /** `scan_added_diff_for_secrets` */
  method ScanAddedDiff(rules: Rules, text: string) returns (findings: seq<Finding>)
    ensures findings == Found(rules, START, SplitLf(text))
  {
    findings := [];
    var path: Option<string>, commit: Option<string>, inHunk := None, None, false;
    var lines := SplitLf(text);
    var i := 0;
    assert lines[0..] == lines;
    while i < |lines|
      invariant i <= |lines|
      invariant Found(rules, START, lines) == findings + Found(rules, State(path, commit, inHunk), lines[i..])
    {
      var line := lines[i];
      ghost var st := State(path, commit, inHunk);
      FoundNext(rules, st, findings, lines, i);
      NotAdded(line);
      i := i + 1;
      if IsCommitLine(line) {
        commit := Some(line[7..]);
        path := None;
        inHunk := false;
        continue;
      }
      if "diff --git " <= line {
        path := None;
        inHunk := false;
        continue;
      }
      if "@@ " <= line {
        inHunk := true;
        continue;
      }
      if !inHunk && "+++ " <= line {
        path := NewPath(line);
        continue;
      }
      if !inHunk || !("+" <= line) {
        continue;
      }
      var hits := MatchPatterns(rules, path, commit, line[1..]);
      findings := findings + hits;
    }
  }

  lemma FoundNext(rules: Rules, st: State, findings: seq<Finding>, lines: seq<string>, i: nat)
    requires i < |lines|
    ensures findings + Found(rules, st, lines[i..]) ==
      findings + Hits(rules, st, lines[i]) + Found(rules, Step(st, lines[i]), lines[i + 1..])
    ensures Hits(rules, st, lines[i]) == [] ==> findings + Hits(rules, st, lines[i]) == findings
  {
    assert lines[i..][1..] == lines[i + 1..];
  }

  // The inner loop: one finding for each pattern that the cleaned line matches.
  method MatchPatterns(rules: Rules, path: Option<string>, commit: Option<string>, text: string)
    returns (hits: seq<Finding>)
    ensures hits == Matches(rules, path, commit, text, 0)
  {
    hide Shown;
    var added := rules.clean(text);
    hits := [];
    var k := 0;
    while k < |rules.patterns|
      invariant k <= |rules.patterns|
      invariant Matches(rules, path, commit, text, 0) == hits + Matches(rules, path, commit, text, k)
    {
      var (kind, matches) := rules.patterns[k];
      MatchNext(rules, path, commit, text, k, hits);
      if matches(added) {
        hits := hits + [Finding(kind, Shown(rules, path), "[REDACTED:" + kind + "]", commit)];
      }
      k := k + 1;
    }
  }

  lemma {:induction false} MatchNext(rules: Rules, path: Option<string>, commit: Option<string>, text: string, k: nat,
                                     hits: seq<Finding>)
    requires k < |rules.patterns|
    ensures var (kind, matches) := rules.patterns[k];
      hits + Matches(rules, path, commit, text, k) ==
      (if matches(rules.clean(text)) then hits + [Finding(kind, Shown(rules, path), "[REDACTED:" + kind + "]", commit)]
       else hits) + Matches(rules, path, commit, text, k + 1)
  {
    hide Shown;
    var rest := Matches(rules, path, commit, text, k + 1);
    assert hits + ([] + rest) == hits + rest;
  }

  /** Each pattern that the cleaned line matches gives one finding, in the order of the patterns: its kind,
      the line withheld, the commit, and the path as it may be shown. */
  lemma {:induction false} MatchesAre(rules: Rules, path: Option<string>, commit: Option<string>, text: string)
    returns (at: seq<nat>)
    ensures forall i, j :: 0 <= i < j < |at| ==> at[i] < at[j]
    ensures forall k: nat :: k in at <==> k < |rules.patterns| && rules.patterns[k].1(rules.clean(text))
    ensures var hits := Matches(rules, path, commit, text, 0);
      |hits| == |at| && forall i :: 0 <= i < |at| ==> IsFinding(rules, hits[i], at[i], path, commit)
  {
    at := MatchesFrom(rules, path, commit, text, 0);
  }

  predicate IsFinding(rules: Rules, f: Finding, k: nat, path: Option<string>, commit: Option<string>) {
    && k < |rules.patterns| && f.kind == rules.patterns[k].0 && f.line == "[REDACTED:" + f.kind + "]"
    && f.commit == commit
    && (path in {None, Some("")} ==> f.path == None)
    && (path !in {None, Some("")} ==> f.path == Some(rules.redactPath(path.value)))
  }

  lemma {:induction false} MatchesFrom(rules: Rules, path: Option<string>, commit: Option<string>, text: string, k: nat)
    returns (at: seq<nat>)
    requires k <= |rules.patterns|
    ensures forall i, j :: 0 <= i < j < |at| ==> at[i] < at[j]
    ensures forall m: nat :: m in at <==> k <= m < |rules.patterns| && rules.patterns[m].1(rules.clean(text))
    ensures var hits := Matches(rules, path, commit, text, k);
      |hits| == |at| && forall i :: 0 <= i < |at| ==> IsFinding(rules, hits[i], at[i], path, commit)
    decreases |rules.patterns| - k
  {
    if k == |rules.patterns| {
      at := [];
    } else {
      MatchesOne(rules, path, commit, text, k);
      hide *;
      var rest := MatchesFrom(rules, path, commit, text, k + 1);
      var more := Matches(rules, path, commit, text, k + 1);
      if rules.patterns[k].1(rules.clean(text)) {
        at := [k] + rest;
      } else {
        at := rest;
        assert [] + more == more;
      }
    }
  }

  lemma {:induction false} MatchesOne(rules: Rules, path: Option<string>, commit: Option<string>, text: string, k: nat)
    requires k < |rules.patterns|
    ensures var hits, more := Matches(rules, path, commit, text, k), Matches(rules, path, commit, text, k + 1);
      if rules.patterns[k].1(rules.clean(text))
      then hits != [] && IsFinding(rules, hits[0], k, path, commit) && hits == [hits[0]] + more
      else hits == [] + more
  {
    var (kind, matches) := rules.patterns[k];
    var f := Finding(kind, Shown(rules, path), "[REDACTED:" + kind + "]", commit);
    assert IsFinding(rules, f, k, path, commit);
    hide Shown, IsFinding;
  }

  // Header lines do not begin with `+`, so they never count as added.
  lemma NotAdded(line: string)
    ensures "+" <= line ==> !IsCommitLine(line) && !("diff --git " <= line) && !("@@ " <= line)
  {
    if "+" <= line {
      assert line[0] == '+';
      assert "commit "[0] == 'c' && "diff --git "[0] == 'd' && "@@ "[0] == '@';
    }
  }

  // ---------- Any text ----------

  predicate StartsFile(line: string) { IsCommitLine(line) || "diff --git " <= line }

  predicate StartsHunk(line: string) { "@@ " <= line }

  // The last of the first `i` lines with the property; -1 when there is none.
  function LastOf(property: string -> bool, lines: seq<string>, i: nat): (j: int)
    requires i <= |lines|
    ensures -1 <= j < i && (j >= 0 ==> property(lines[j])) && forall k :: j < k < i ==> !property(lines[k])
  {
    if i == 0 then -1 else if property(lines[i - 1]) then i - 1 else LastOf(property, lines, i - 1)
  }

  // A hunk has begun since the last commit or file header.
  predicate InHunkAt(lines: seq<string>, i: nat)
    requires i <= |lines|
  {
    LastOf(StartsHunk, lines, i) > LastOf(StartsFile, lines, i)
  }

  // The last line that names a path, since that header and before the file's first hunk; -1 for none.
  function NamedAt(lines: seq<string>, i: nat): (j: int)
    requires i <= |lines|
    ensures -1 <= j < i
    ensures j >= 0 ==> j > LastOf(StartsFile, lines, i) && "+++ " <= lines[j] && !InHunkAt(lines, j)
    ensures forall k :: k > j && LastOf(StartsFile, lines, i) < k < i ==> !("+++ " <= lines[k]) || InHunkAt(lines, k)
  {
    if i == 0 || StartsFile(lines[i - 1]) then -1
    else if "+++ " <= lines[i - 1] && !InHunkAt(lines, i - 1) then i - 1
    else NamedAt(lines, i - 1)
  }

  lemma {:induction false} FinalNext(st: State, lines: seq<string>, line: string)
    ensures Final(st, lines + [line]) == Step(Final(st, lines), line)
    decreases |lines|
  {
    if lines == [] {
      assert lines + [line] == [line] && [line][1..] == [];
    } else {
      FinalNext(Step(st, lines[0]), lines[1..], line);
      assert (lines + [line])[1..] == lines[1..] + [line];
    }
  }

  lemma {:induction false} FoundOneMore(rules: Rules, st: State, lines: seq<string>, line: string)
    ensures Found(rules, st, lines + [line]) == Found(rules, st, lines) + Hits(rules, Final(st, lines), line)
    decreases |lines|
  {
    hide Hits, Step;
    if lines == [] {
      assert lines + [line] == [line] && [line][1..] == [];
      assert Hits(rules, st, line) + [] == [] + Hits(rules, st, line);
    } else {
      FoundOneMore(rules, Step(st, lines[0]), lines[1..], line);
      assert (lines + [line])[1..] == lines[1..] + [line];
    }
  }

  // Commit, file and hunk headers begin differently.
  lemma Headers(line: string)
    ensures IsCommitLine(line) ==> !("diff --git " <= line)
    ensures StartsFile(line) ==> !("@@ " <= line) && !("+++ " <= line)
    ensures "@@ " <= line ==> !("+++ " <= line)
  {
    assert "commit "[0] == 'c' && "diff --git "[0] == 'd' && "@@ "[0] == '@' && "+++ "[0] == '+';
    if line != "" { assert line[0] == line[0]; }
  }

  function StateAt(lines: seq<string>, i: nat): State
    requires i <= |lines|
  {
    var c, p := LastOf(IsCommitLine, lines, i), NamedAt(lines, i);
    State(if p == -1 then None else NewPath(lines[p]), if c == -1 then None else Some(lines[c][7..]),
          InHunkAt(lines, i))
  }

  lemma {:induction false} StateNext(lines: seq<string>, i: nat)
    requires i < |lines|
    ensures StateAt(lines, i + 1) == Step(StateAt(lines, i), lines[i])
  {
    Headers(lines[i]);
    hide IsCommitLine, NewPath;
  }

  lemma NothingRead(lines: seq<string>)
    ensures Final(START, lines[..0]) == StateAt(lines, 0)
  {
  }

  lemma {:induction false} FinalIs(lines: seq<string>, i: nat)
    requires i <= |lines|
    ensures Final(START, lines[..i]) == StateAt(lines, i)
  {
    NothingRead(lines);
    hide *;
    if i > 0 {
      FinalIs(lines, i - 1);
      StateNext(lines, i - 1);
      FinalNext(START, lines[..i - 1], lines[i - 1]);
      assert lines[..i] == lines[..i - 1] + [lines[i - 1]];
    }
  }

  /** The scanner's state after any lines: whether a hunk has begun since the last commit or file header,
      the last commit line's identifier, and the path last named since then and before the first hunk. */
  lemma {:induction false} StateIs(lines: seq<string>, i: nat)
    requires i <= |lines|
    ensures var st, c, p := Final(START, lines[..i]), LastOf(IsCommitLine, lines, i), NamedAt(lines, i);
      && (st.inHunk <==> LastOf(StartsHunk, lines, i) > LastOf(StartsFile, lines, i))
      && st.commit == (if c == -1 then None else Some(lines[c][7..]))
      && st.path == (if p == -1 then None else NewPath(lines[p]))
  {
    FinalIs(lines, i);
    hide Final, LastOf, NamedAt, IsCommitLine, NewPath;
  }

  /** What a line of any text adds to the findings: those of its text if it is an added line of a hunk, under
      the path and the commit in force. */
  lemma {:induction false} LineAdds(rules: Rules, lines: seq<string>, i: nat)
    requires i < |lines|
    ensures var st := Final(START, lines[..i]);
      Found(rules, START, lines[..i + 1]) == Found(rules, START, lines[..i]) +
        if "+" <= lines[i] && InHunkAt(lines, i) then Matches(rules, st.path, st.commit, lines[i][1..], 0) else []
  {
    StateIs(lines, i);
    hide InHunkAt, Found, Matches, Final, LastOf, NamedAt, IsCommitLine, NewPath, Step;
    FoundOneMore(rules, START, lines[..i], lines[i]);
    assert lines[..i + 1] == lines[..i] + [lines[i]];
  }

  // ---------- The printed form ----------

  datatype HunkLine = Added(text: string) | Removed(text: string) | Context(text: string) | NoNewline

  /** One hunk: what follows `@@ ` in its header, and its lines. */
  datatype Hunk = Hunk(header: string, lines: seq<HunkLine>)

  /** One file: what follows `diff --git `, the extended header lines, the name on the `--- `
      line, the new path (none for a deletion), and the hunks (none for a pure mode change). */
  datatype FilePatch = FilePatch(names: string, extended: seq<string>, oldName: string, path: Option<string>,
                                 hunks: seq<Hunk>)

  /** One commit, with the empty lines that `git log` puts around its patch. */
  datatype Commit = Commit(sha: string, files: seq<FilePatch>, before: nat, after: nat)

  /** Uncommitted changes, as `git diff` prints them, followed by a log. */
  datatype PatchLog = PatchLog(loose: seq<FilePatch>, commits: seq<Commit>)

  function Blank(n: nat): seq<string> {
    if n == 0 then [] else [""] + Blank(n - 1)
  }

  function PrintHunkLine(l: HunkLine): string {
    match l
    case Added(text) => "+" + text
    case Removed(text) => "-" + text
    case Context(text) => " " + text
    case NoNewline => "\\ No newline at end of file"
  }

  function PrintHunkLines(ls: seq<HunkLine>): seq<string> {
    if ls == [] then [] else [PrintHunkLine(ls[0])] + PrintHunkLines(ls[1..])
  }

  function PrintHunk(h: Hunk): seq<string> { ["@@ " + h.header] + PrintHunkLines(h.lines) }

  function PrintHunks(hs: seq<Hunk>): seq<string> {
    if hs == [] then [] else PrintHunk(hs[0]) + PrintHunks(hs[1..])
  }

  // Characters that `core.quotePath=true` makes Git write as escapes.
  predicate IsQuoted(c: char) { c < ' ' || c == '"' || c == '\\' || c >= '\U{7F}' }

  predicate NeedsQuotes(name: string) { exists i :: 0 <= i < |name| && IsQuoted(name[i]) }

  function Digit(n: int): char
    requires 0 <= n < 8
  {
    "01234567"[n]
  }

  function Octal(b: Utf8.Byte): string { ['\\', Digit(b / 64), Digit(b / 8 % 8), Digit(b % 8)] }

  function OctalBytes(bs: seq<Utf8.Byte>): string {
    if bs == [] then "" else Octal(bs[0]) + OctalBytes(bs[1..])
  }

  function QuoteChar(c: char): string {
    if !IsQuoted(c) then [c]
    else if c == '"' then "\\\""
    else if c == '\\' then "\\\\"
    else if '\U{07}' <= c <= '\U{0D}' then ['\\', "abtnvfr"[c as int - 7]]
    else OctalBytes(Utf8.EncodeOne(c))
  }

  function QuoteChars(name: string): string {
    if name == "" then "" else QuoteChar(name[0]) + QuoteChars(name[1..])
  }

  // The name with its prefix, in quotes when some character of it needs that.
  function Label(name: string): string {
    if NeedsQuotes(name) then "\"b/" + QuoteChars(name) + "\"" else "b/" + name
  }

  // Git ends a name that contains a space with a tab.
  function PrintPath(path: Option<string>): string {
    match path
    case None => "+++ /dev/null"
    case Some(p) => "+++ " + Label(p) + if ' ' in p then "\t" else ""
  }

  function PrintFile(f: FilePatch): seq<string> {
    ["diff --git " + f.names] + f.extended +
    if f.hunks == [] then [] else ["--- " + f.oldName, PrintPath(f.path)] + PrintHunks(f.hunks)
  }

  function PrintFiles(fs: seq<FilePatch>): seq<string> {
    if fs == [] then [] else PrintFile(fs[0]) + PrintFiles(fs[1..])
  }

  function PrintCommits(cs: seq<Commit>): seq<string> {
    if cs == [] then [] else PrintCommit(cs[0]) + PrintCommits(cs[1..])
  }

  function PrintCommit(c: Commit): seq<string> {
    ["commit " + c.sha] + Blank(c.before) + PrintFiles(c.files) + Blank(c.after)
  }

  function PrintLog(log: PatchLog): seq<string> {
    PrintFiles(log.loose) + PrintCommits(log.commits)
  }

  // The text: every line ends with LF.
  function Text(lines: seq<string>): string {
    if lines == [] then "" else lines[0] + "\n" + Text(lines[1..])
  }

  predicate OneLine(s: string) { '\n' !in s }

  // An extended header line (mode, index, similarity...): none of the four lines the scanner acts on.
  predicate IsExtended(line: string) {
    OneLine(line) && !IsCommitLine(line) && !("diff --git " <= line) && !("@@ " <= line) && !("+++ " <= line)
  }

  predicate IsSha(sha: string) {
    |sha| in {40, 64} && forall i :: 0 <= i < |sha| ==> IsHex(sha[i])
  }

  predicate GoodHunkLine(l: HunkLine) { l.NoNewline? || OneLine(l.text) }

  predicate GoodHunk(h: Hunk) {
    OneLine(h.header) && forall i :: 0 <= i < |h.lines| ==> GoodHunkLine(h.lines[i])
  }

  predicate GoodFile(f: FilePatch) {
    && OneLine(f.names) && OneLine(f.oldName)
    && (forall i :: 0 <= i < |f.extended| ==> IsExtended(f.extended[i]))
    && (f.path.Some? ==> f.path.value != "")
    && (forall i :: 0 <= i < |f.hunks| ==> GoodHunk(f.hunks[i]))
  }

  predicate GoodFiles(fs: seq<FilePatch>) {
    forall i :: 0 <= i < |fs| ==> GoodFile(fs[i])
  }

  predicate GoodCommit(c: Commit) { IsSha(c.sha) && GoodFiles(c.files) }

  predicate GoodLog(log: PatchLog) {
    GoodFiles(log.loose) && forall i :: 0 <= i < |log.commits| ==> GoodCommit(log.commits[i])
  }

  // ---------- What should be found ----------

  function ExpectedLines(rules: Rules, path: Option<string>, commit: Option<string>, ls: seq<HunkLine>): seq<Finding> {
    if ls == [] then [] else
      (if ls[0].Added? then Matches(rules, path, commit, ls[0].text, 0) else [])
      + ExpectedLines(rules, path, commit, ls[1..])
  }

  function ExpectedHunks(rules: Rules, path: Option<string>, commit: Option<string>, hs: seq<Hunk>): seq<Finding> {
    if hs == [] then [] else
      ExpectedLines(rules, path, commit, hs[0].lines) + ExpectedHunks(rules, path, commit, hs[1..])
  }

  function ExpectedFiles(rules: Rules, commit: Option<string>, fs: seq<FilePatch>): seq<Finding> {
    if fs == [] then [] else
      ExpectedHunks(rules, fs[0].path, commit, fs[0].hunks) + ExpectedFiles(rules, commit, fs[1..])
  }

  function ExpectedCommits(rules: Rules, cs: seq<Commit>): seq<Finding> {
    if cs == [] then [] else
      ExpectedFiles(rules, Some(cs[0].sha), cs[0].files) + ExpectedCommits(rules, cs[1..])
  }

  // One finding per added line and matching pattern, in order, with its own path and commit.
  function Expected(rules: Rules, log: PatchLog): seq<Finding> {
    ExpectedFiles(rules, None, log.loose) + ExpectedCommits(rules, log.commits)
  }

  // ---------- What is read of a name ----------

  // The scanner takes a quoted name as it is written, and drops space at the end of another.
  function ReadName(name: string): string { if NeedsQuotes(name) then Label(name) else RStrip(name) }

  function ReadPath(path: Option<string>): Option<string> {
    if path.None? then None else Some(ReadName(path.value))
  }

  function FileAsRead(f: FilePatch): FilePatch { f.(path := ReadPath(f.path)) }

  function FilesAsRead(fs: seq<FilePatch>): seq<FilePatch> {
    if fs == [] then [] else [FileAsRead(fs[0])] + FilesAsRead(fs[1..])
  }

  function CommitsAsRead(cs: seq<Commit>): seq<Commit> {
    if cs == [] then [] else [cs[0].(files := FilesAsRead(cs[0].files))] + CommitsAsRead(cs[1..])
  }

  // The log with each name as the scanner reads it, and nothing else changed.
  function AsRead(log: PatchLog): PatchLog { PatchLog(FilesAsRead(log.loose), CommitsAsRead(log.commits)) }

  // ---------- The scanner inverts the printer ----------

  /** What scanning `lines` from `st` does: it ends in `end` and reports `out`. */
  ghost predicate Scans(rules: Rules, st: State, lines: seq<string>, end: State, out: seq<Finding>) {
    Final(st, lines) == end && Found(rules, st, lines) == out
  }

  lemma {:induction false} ScanAppend(rules: Rules, st: State, a: seq<string>, mid: State, out1: seq<Finding>,
                                      b: seq<string>, end: State, out2: seq<Finding>)
    requires Scans(rules, st, a, mid, out1) && Scans(rules, mid, b, end, out2)
    ensures Scans(rules, st, a + b, end, out1 + out2)
    decreases a
  {
    hide Step, Hits;
    if a == [] {
      assert a + b == b && out1 + out2 == out2;
    } else {
      assert (a + b)[1..] == a[1..] + b;
      ScanAppend(rules, Step(st, a[0]), a[1..], mid, Found(rules, Step(st, a[0]), a[1..]), b, end, out2);
    }
  }

  lemma {:induction false} ScanBlank(rules: Rules, st: State, n: nat)
    ensures Scans(rules, st, Blank(n), st, [])
  {
    if n > 0 {
      ScanBlank(rules, st, n - 1);
      assert Blank(n)[1..] == Blank(n - 1);
    }
  }

  lemma {:induction false} ScanHunkLines(rules: Rules, st: State, ls: seq<HunkLine>)
    requires st.inHunk && forall i :: 0 <= i < |ls| ==> GoodHunkLine(ls[i])
    ensures Scans(rules, st, PrintHunkLines(ls), st, ExpectedLines(rules, st.path, st.commit, ls))
  {
    if ls != [] {
      ScanHunkLine(rules, st, ls[0]);
      ScanHunkLines(rules, st, ls[1..]);
      assert PrintHunkLines(ls)[1..] == PrintHunkLines(ls[1..]);
    }
  }

  // Inside a hunk the first character decides: `+++ x` is the added line `++ x`.
  lemma ScanHunkLine(rules: Rules, st: State, l: HunkLine)
    requires st.inHunk
    ensures Step(st, PrintHunkLine(l)) == st
    ensures Hits(rules, st, PrintHunkLine(l)) == if l.Added? then Matches(rules, st.path, st.commit, l.text, 0) else []
  {
    var p := PrintHunkLine(l);
    assert p[0] in {'+', '-', ' ', '\\'};
    assert "commit "[0] == 'c' && "diff --git "[0] == 'd' && "@@ "[0] == '@';
    if l.Added? { assert p[1..] == l.text; }
  }

  lemma {:induction false} ScanHunks(rules: Rules, st: State, hs: seq<Hunk>)
    requires forall i :: 0 <= i < |hs| ==> GoodHunk(hs[i])
    ensures Scans(rules, st, PrintHunks(hs), if hs == [] then st else st.(inHunk := true),
                  ExpectedHunks(rules, st.path, st.commit, hs))
    decreases hs
  {
    if hs != [] {
      var inside := st.(inHunk := true);
      ScanHunk(rules, st, hs[0]);
      ScanHunks(rules, inside, hs[1..]);
      hide Scans, ExpectedLines, PrintHunkLines;
      ScanAppend(rules, st, PrintHunk(hs[0]), inside, ExpectedLines(rules, st.path, st.commit, hs[0].lines),
                 PrintHunks(hs[1..]), inside, ExpectedHunks(rules, st.path, st.commit, hs[1..]));
    }
  }

  lemma {:induction false} ScanHunk(rules: Rules, st: State, h: Hunk)
    requires GoodHunk(h)
    ensures Scans(rules, st, PrintHunk(h), st.(inHunk := true), ExpectedLines(rules, st.path, st.commit, h.lines))
  {
    var inside, out := st.(inHunk := true), ExpectedLines(rules, st.path, st.commit, h.lines);
    ScanHeader(rules, st, h.header);
    ScanHunkLines(rules, inside, h.lines);
    hide Scans, ExpectedLines, PrintHunkLines;
    ScanAppend(rules, st, ["@@ " + h.header], inside, [], PrintHunkLines(h.lines), inside, out);
    assert [] + out == out;
  }

  lemma ScanHeader(rules: Rules, st: State, header: string)
    ensures Scans(rules, st, ["@@ " + header], st.(inHunk := true), [])
  {
    var l := "@@ " + header;
    assert l[0] == '@' && "commit "[0] == 'c' && "diff --git "[0] == 'd' && "+"[0] == '+';
    assert l[..3] == "@@ ";
  }

  lemma {:induction false} ScanExtended(rules: Rules, st: State, ext: seq<string>)
    requires !st.inHunk && forall i :: 0 <= i < |ext| ==> IsExtended(ext[i])
    ensures Scans(rules, st, ext, st, [])
  {
    if ext != [] { ScanExtended(rules, st, ext[1..]); }
  }

  lemma ScanDiffGit(rules: Rules, st: State, names: string)
    ensures Scans(rules, st, ["diff --git " + names], State(None, st.commit, false), [])
  {
    var l := "diff --git " + names;
    assert l[0] == 'd' && "commit "[0] == 'c' && "+"[0] == '+';
    assert l[..11] == "diff --git ";
  }

  lemma {:induction false} OctalPlain(bs: seq<Utf8.Byte>)
    ensures |OctalBytes(bs)| == 4 * |bs| && forall c :: c in OctalBytes(bs) ==> !IsQuoted(c) || c == '\\'
  {
    if bs != [] { OctalPlain(bs[1..]); }
  }

  lemma {:induction false} QuotePlain(name: string)
    ensures |QuoteChars(name)| >= |name| && forall c :: c in QuoteChars(name) ==> !IsQuoted(c) || c in {'\\', '"'}
  {
    if name != "" {
      QuotePlain(name[1..]);
      QuoteCharPlain(name[0]);
    }
  }

  lemma QuoteCharPlain(c: char)
    ensures |QuoteChar(c)| >= 1 && forall x :: x in QuoteChar(c) ==> !IsQuoted(x) || x in {'\\', '"'}
  {
    OctalPlain(Utf8.EncodeOne(c));
  }

  // What stands on the line is a line, and starts and ends with no space but the name's own.
  lemma LabelPlain(name: string)
    ensures OneLine(Label(name)) && Label(name) != "" && !IsSpace(Label(name)[0])
    ensures NeedsQuotes(name) ==> Label(name)[|Label(name)| - 1] == '"' && |Label(name)| > |name|
  {
    QuotePlain(name);
    if !NeedsQuotes(name) {
      forall i | 0 <= i < |name| ensures name[i] != '\n' { assert !IsQuoted(name[i]); }
    }
  }

  // Space is taken off the end of a name that has no other kind of it.
  lemma {:induction false} StripUnquoted(p: string)
    requires !NeedsQuotes(p)
    ensures Strip("b/" + p) == "b/" + RStrip(p)
    ensures p != "" ==> (RStrip(p) == p <==> p[|p| - 1] != ' ')
  {
    RStripPrefix(p);
    RStripKeeps("b/", p);
    assert LStrip("b/" + p) == "b/" + p;
    if p != "" { assert !IsQuoted(p[|p| - 1]); }
  }

  lemma {:induction false} RStripKeeps(a: string, p: string)
    requires a != "" && !IsSpace(a[|a| - 1])
    ensures RStrip(a + p) == a + RStrip(p)
  {
    if p == "" {
      assert a + "" == a;
    } else if IsSpace(p[|p| - 1]) {
      assert (a + p)[..|a + p| - 1] == a + p[..|p| - 1];
      RStripKeeps(a, p[..|p| - 1]);
    }
  }

  lemma {:induction false} LabelRead(p: string)
    ensures Strip(Label(p)) != "/dev/null"
    ensures (if "b/" <= Strip(Label(p)) then Strip(Label(p))[2..] else Strip(Label(p))) == ReadName(p)
  {
    LabelPlain(p);
    if NeedsQuotes(p) {
      StripEdges(Label(p));
      assert Label(p)[0] == '"';
    } else {
      StripUnquoted(p);
      assert ("b/" + RStrip(p))[2..] == RStrip(p);
      assert ("b/" + RStrip(p))[0] == 'b' && "/dev/null"[0] == '/';
    }
  }

  lemma {:induction false} PathReadBack(path: Option<string>)
    ensures "+++ " <= PrintPath(path) && NewPath(PrintPath(path)) == ReadPath(path)
  {
    var l := PrintPath(path);
    assert l[..4] == "+++ ";
    match path
    case None =>
      assert l[4..] == "/dev/null";
      StripEdges(l[4..]);
    case Some(p) =>
      LabelRead(p);
      if ' ' in p {
        assert l[4..] == Label(p) + ['\t'];
        StripSpace(Label(p), '\t');
      } else {
        assert l[4..] == Label(p);
      }
  }

  /** A file's path is read back exactly when its name needs no quoting and does not end with a
      space. */
  lemma {:induction false} ReadBackExactlyWhen(p: string)
    requires p != ""
    ensures NewPath(PrintPath(Some(p))) == Some(p) <==> !NeedsQuotes(p) && p[|p| - 1] != ' '
  {
    PathReadBack(Some(p));
    LabelPlain(p);
    if !NeedsQuotes(p) { StripUnquoted(p); }
  }

  /** A name with an accent, such as `caf` and an accented `e`, is reported in Git's quotes, prefix and escapes
      included. */
  lemma {:induction false} QuotedName(a: string, b: string)
    requires !NeedsQuotes(a) && !NeedsQuotes(b)
    ensures NewPath(PrintPath(Some(a + "\U{E9}" + b))) == Some("\"b/" + (a + "\\303\\251" + b) + "\"")
  {
    var p := a + "\U{E9}" + b;
    assert IsQuoted(p[|a|]);
    PathReadBack(Some(p));
    hide Label, IsQuoted, PrintPath, NewPath, QuoteChars;
    LabelIs(p);
    QuoteAppend(a, "\U{E9}");
    QuoteAppend(a + "\U{E9}", b);
    PlainTail(a);
    PlainTail(b);
    AccentQuoted();
    OneQuoted('\U{E9}');
  }

  lemma LabelIs(name: string)
    requires NeedsQuotes(name)
    ensures Label(name) == "\"b/" + QuoteChars(name) + "\"" && ReadName(name) == Label(name)
  {
  }

  lemma {:induction false} QuoteAppend(a: string, b: string)
    ensures QuoteChars(a + b) == QuoteChars(a) + QuoteChars(b)
  {
    hide QuoteChar;
    if a == "" {
      assert a + b == b;
    } else {
      assert (a + b)[1..] == a[1..] + b;
      QuoteAppend(a[1..], b);
    }
  }

  lemma OneQuoted(c: char)
    ensures QuoteChars([c]) == QuoteChar(c)
  {
    hide QuoteChar;
    assert [c][1..] == "" && QuoteChars("") == "";
  }

  lemma {:induction false} AccentQuoted()
    ensures QuoteChar('\U{E9}') == "\\303\\251"
  {
    var a: Utf8.Byte, b: Utf8.Byte := 0xC3, 0xA9;
    assert Utf8.EncodeOne('\U{E9}') == [a, b];
    assert [a, b][1..] == [b] && [b][1..] == [];
    assert OctalBytes([b]) == Octal(b) + OctalBytes([]);
    assert OctalBytes([a, b]) == Octal(a) + OctalBytes([b]);
  }

  lemma {:induction false} PlainTail(p: string)
    requires !NeedsQuotes(p)
    ensures QuoteChars(p) == p
  {
    if p != "" {
      assert !IsQuoted(p[0]);
      assert !NeedsQuotes(p[1..]) by { assert forall i :: 0 <= i < |p[1..]| ==> p[1..][i] == p[i + 1]; }
      PlainTail(p[1..]);
      assert [p[0]] + p[1..] == p;
    }
  }

  lemma ScanNames(rules: Rules, st: State, oldName: string, path: Option<string>)
    requires !st.inHunk
    ensures Scans(rules, st, ["--- " + oldName, PrintPath(path)], st.(path := ReadPath(path)), [])
  {
    var o, n := "--- " + oldName, PrintPath(path);
    PathReadBack(path);
    assert o[0] == '-' && "commit "[0] == 'c' && "diff --git "[0] == 'd' && "@@ "[0] == '@' && "+++ "[0] == '+';
    NotAdded(n);
    assert n[0] == '+';
    assert Step(st, o) == st && Step(st, n) == st.(path := ReadPath(path));
    ScanOne(rules, st, o);
    ScanOne(rules, st, n);
    ScanAppend(rules, st, [o], st, [], [n], st.(path := ReadPath(path)), []);
    assert [o] + [n] == [o, n];
  }

  lemma ScanOne(rules: Rules, st: State, line: string)
    ensures Scans(rules, st, [line], Step(st, line), Hits(rules, st, line))
  {
    assert Hits(rules, st, line) + [] == Hits(rules, st, line);
  }

  lemma ScanFile(rules: Rules, st: State, f: FilePatch)
    requires GoodFile(f)
    ensures Final(st, PrintFile(f)).commit == st.commit
    ensures Found(rules, st, PrintFile(f)) == ExpectedHunks(rules, ReadPath(f.path), st.commit, f.hunks)
  {
    var head, fresh' := ["diff --git " + f.names], State(None, st.commit, false);
    ScanDiffGit(rules, st, f.names);
    ScanExtended(rules, fresh', f.extended);
    ScanAppend(rules, st, head, fresh', [], f.extended, fresh', []);
    if f.hunks == [] {
      assert head + f.extended + [] == head + f.extended;
    } else {
      var named := fresh'.(path := ReadPath(f.path));
      ScanNames(rules, fresh', f.oldName, f.path);
      ScanHunks(rules, named, f.hunks);
      var names := ["--- " + f.oldName, PrintPath(f.path)];
      var out := ExpectedHunks(rules, ReadPath(f.path), st.commit, f.hunks);
      ScanAppend(rules, fresh', names, named, [], PrintHunks(f.hunks), named.(inHunk := true), out);
      ScanAppend(rules, st, head + f.extended, fresh', [] + [], names + PrintHunks(f.hunks), named.(inHunk := true),
                 [] + out);
    }
  }

  lemma {:induction false} ScanFiles(rules: Rules, st: State, fs: seq<FilePatch>)
    requires GoodFiles(fs)
    ensures Final(st, PrintFiles(fs)).commit == st.commit
    ensures Found(rules, st, PrintFiles(fs)) == ExpectedFiles(rules, st.commit, FilesAsRead(fs))
    decreases fs
  {
    if fs != [] {
      ScanFile(rules, st, fs[0]);
      assert FilesAsRead(fs)[0] == FileAsRead(fs[0]) && FilesAsRead(fs)[1..] == FilesAsRead(fs[1..]);
      var mid := Final(st, PrintFile(fs[0]));
      ScanFiles(rules, mid, fs[1..]);
      ScanAppend(rules, st, PrintFile(fs[0]), mid, Found(rules, st, PrintFile(fs[0])),
                 PrintFiles(fs[1..]), Final(mid, PrintFiles(fs[1..])), Found(rules, mid, PrintFiles(fs[1..])));
    }
  }

  lemma ScanCommitLine(rules: Rules, st: State, sha: string)
    requires IsSha(sha)
    ensures Scans(rules, st, ["commit " + sha], State(None, Some(sha), false), [])
  {
    var l := "commit " + sha;
    assert l[7..] == sha && l[..7] == "commit ";
    assert forall i :: 7 <= i < |l| ==> l[i] == sha[i - 7];
    assert l[0] == 'c' && "+"[0] == '+';
  }

  lemma {:induction false} ScanCommits(rules: Rules, st: State, cs: seq<Commit>)
    requires forall i :: 0 <= i < |cs| ==> GoodCommit(cs[i])
    ensures Found(rules, st, PrintCommits(cs)) == ExpectedCommits(rules, CommitsAsRead(cs))
    decreases cs
  {
    if cs != [] {
      var c := cs[0];
      ScanCommit(rules, st, c);
      var done := Final(st, PrintCommit(c));
      ScanCommits(rules, done, cs[1..]);
      var rest := PrintCommits(cs[1..]);
      ScanAppend(rules, st, PrintCommit(c), done, Found(rules, st, PrintCommit(c)),
                 rest, Final(done, rest), ExpectedCommits(rules, CommitsAsRead(cs[1..])));
      assert CommitsAsRead(cs)[1..] == CommitsAsRead(cs[1..]);
    }
  }

  lemma ScanCommit(rules: Rules, st: State, c: Commit)
    requires GoodCommit(c)
    ensures Found(rules, st, PrintCommit(c)) == ExpectedFiles(rules, Some(c.sha), FilesAsRead(c.files))
  {
    var head, begun := ["commit " + c.sha], State(None, Some(c.sha), false);
    var files, out := PrintFiles(c.files), ExpectedFiles(rules, Some(c.sha), FilesAsRead(c.files));
    var done := Final(begun, files);
    ScanCommitLine(rules, st, c.sha);
    ScanBlank(rules, begun, c.before);
    ScanAppend(rules, st, head, begun, [], Blank(c.before), begun, []);
    ScanFiles(rules, begun, c.files);
    ScanAppend(rules, st, head + Blank(c.before), begun, [] + [], files, done, out);
    ScanBlank(rules, done, c.after);
    ScanAppend(rules, st, head + Blank(c.before) + files, done, [] + [] + out, Blank(c.after), done, []);
    assert [] + [] + out + [] == out;
  }

  ghost predicate AllOneLine(lines: seq<string>) {
    forall i :: 0 <= i < |lines| ==> OneLine(lines[i])
  }

  lemma {:induction false} SplitLine(line: string, rest: string)
    requires OneLine(line)
    ensures SplitLf(line + "\n" + rest) == [line] + SplitLf(rest)
  {
    var t := line + "\n" + rest;
    if line == "" {
      assert t[1..] == rest;
    } else {
      assert t[1..] == line[1..] + "\n" + rest;
      SplitLine(line[1..], rest);
      assert [line[0]] + line[1..] == line;
    }
  }

  /** Splitting the printed text gives back the lines, and one empty piece after the last LF. */
  lemma {:induction false} SplitText(lines: seq<string>)
    requires AllOneLine(lines)
    ensures SplitLf(Text(lines)) == lines + [""]
  {
    if lines != [] {
      SplitText(lines[1..]);
      SplitLine(lines[0], Text(lines[1..]));
    }
  }

  lemma {:induction false} PrintedHunkLines(ls: seq<HunkLine>)
    requires forall i :: 0 <= i < |ls| ==> GoodHunkLine(ls[i])
    ensures AllOneLine(PrintHunkLines(ls))
  {
    if ls != [] { PrintedHunkLines(ls[1..]); }
  }

  lemma {:induction false} PrintedHunks(hs: seq<Hunk>)
    requires forall i :: 0 <= i < |hs| ==> GoodHunk(hs[i])
    ensures AllOneLine(PrintHunks(hs))
  {
    if hs != [] {
      PrintedHunkLines(hs[0].lines);
      PrintedHunks(hs[1..]);
    }
  }

  lemma {:induction false} PrintedFiles(fs: seq<FilePatch>)
    requires GoodFiles(fs)
    ensures AllOneLine(PrintFiles(fs))
  {
    if fs != [] {
      PrintedFile(fs[0]);
      PrintedFiles(fs[1..]);
    }
  }

  lemma {:induction false} PrintedFile(f: FilePatch)
    requires GoodFile(f)
    ensures AllOneLine(PrintFile(f))
  {
    hide PrintPath;
    PrintedHunks(f.hunks);
    PrintedPath(f.path);
  }

  lemma {:induction false} PrintedPath(path: Option<string>)
    ensures OneLine(PrintPath(path))
  {
    if path.Some? { LabelPlain(path.value); }
    hide Label;
  }

  lemma {:induction false} PrintedBlank(n: nat)
    ensures AllOneLine(Blank(n))
  {
    if n > 0 { PrintedBlank(n - 1); }
  }

  lemma {:induction false} PrintedCommits(cs: seq<Commit>)
    requires forall i :: 0 <= i < |cs| ==> GoodCommit(cs[i])
    ensures AllOneLine(PrintCommits(cs))
  {
    if cs != [] {
      PrintedBlank(cs[0].before);
      PrintedFiles(cs[0].files);
      PrintedBlank(cs[0].after);
      PrintedCommits(cs[1..]);
      assert OneLine("commit " + cs[0].sha);
    }
  }

  /** For every patch log, scanning its printed text reports exactly the matching added lines:
      each with its own commit and its path as read, once per matching pattern, in order. */
  lemma ScanInvertsPrint(rules: Rules, log: PatchLog)
    requires GoodLog(log)
    ensures Found(rules, START, SplitLf(Text(PrintLog(log)))) == Expected(rules, AsRead(log))
  {
    var a, b := PrintFiles(log.loose), PrintCommits(log.commits);
    PrintedFiles(log.loose);
    PrintedCommits(log.commits);
    SplitText(a + b);
    ScanFiles(rules, START, log.loose);
    var mid := Final(START, a);
    ScanCommits(rules, mid, log.commits);
    ScanAppend(rules, START, a, mid, Found(rules, START, a), b, Final(mid, b), Found(rules, mid, b));
    ScanLastPiece(rules, START, a + b);
  }

  lemma ScanLastPiece(rules: Rules, st: State, lines: seq<string>)
    ensures Found(rules, st, lines + [""]) == Found(rules, st, lines)
  {
    var mid := Final(st, lines);
    assert Scans(rules, mid, [""], mid, []);
    ScanAppend(rules, st, lines, mid, Found(rules, st, lines), [""], mid, []);
  }

  // ---------- When every path is right ----------

  predicate PlainName(p: string) { p != "" && !NeedsQuotes(p) && p[|p| - 1] != ' ' }

  predicate PlainFiles(fs: seq<FilePatch>) {
    forall i :: 0 <= i < |fs| ==> (fs[i].path.Some? ==> PlainName(fs[i].path.value))
  }

  predicate PlainNames(log: PatchLog) {
    PlainFiles(log.loose) && forall i :: 0 <= i < |log.commits| ==> PlainFiles(log.commits[i].files)
  }

  lemma {:induction false} FilesReadBack(fs: seq<FilePatch>)
    requires forall i :: 0 <= i < |fs| ==> (fs[i].path.Some? ==> fs[i].path.value != "")
    ensures FilesAsRead(fs) == fs <==> PlainFiles(fs)
    ensures |FilesAsRead(fs)| == |fs|
  {
    if fs != [] {
      FilesReadBack(fs[1..]);
      var f := fs[0];
      if f.path.Some? {
        PathReadBack(f.path);
        ReadBackExactlyWhen(f.path.value);
      }
      hide ReadPath, PlainName;
      assert FileAsRead(f) == f <==> ReadPath(f.path) == f.path;
      assert FilesAsRead(fs) == fs <==> FileAsRead(f) == f && FilesAsRead(fs[1..]) == fs[1..] by {
        assert fs == [f] + fs[1..];
        assert FilesAsRead(fs)[0] == FileAsRead(f) && FilesAsRead(fs)[1..] == FilesAsRead(fs[1..]);
      }
      assert PlainFiles(fs) <==> (f.path.Some? ==> PlainName(f.path.value)) && PlainFiles(fs[1..]) by { PlainCons(fs); }
    }
  }

  lemma PlainCons(fs: seq<FilePatch>)
    requires fs != []
    ensures PlainFiles(fs) <==> (fs[0].path.Some? ==> PlainName(fs[0].path.value)) && PlainFiles(fs[1..])
  {
    hide PlainName;
    if PlainFiles(fs[1..]) { assert forall i :: 0 < i < |fs| ==> fs[i] == fs[1..][i - 1]; }
  }

  lemma {:induction false} CommitsReadBack(cs: seq<Commit>)
    requires forall i :: 0 <= i < |cs| ==> GoodCommit(cs[i])
    ensures CommitsAsRead(cs) == cs <==> forall i :: 0 <= i < |cs| ==> PlainFiles(cs[i].files)
  {
    if cs != [] {
      hide FilesAsRead, PlainFiles;
      CommitsReadBack(cs[1..]);
      FilesReadBack(cs[0].files);
      assert cs == [cs[0]] + cs[1..];
      assert CommitsAsRead(cs)[0].files == FilesAsRead(cs[0].files) && CommitsAsRead(cs)[1..] == CommitsAsRead(cs[1..]);
      assert forall i :: 0 < i < |cs| ==> cs[i] == cs[1..][i - 1];
    }
  }

  /** Every path is reported as it is exactly when no name in the log needs quoting or ends with a
      space. */
  lemma {:induction false} PathsRightExactlyWhen(log: PatchLog)
    requires GoodLog(log)
    ensures AsRead(log) == log <==> PlainNames(log)
  {
    FilesReadBack(log.loose);
    CommitsReadBack(log.commits);
  }
}
