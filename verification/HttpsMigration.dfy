/** Planning the upgrade of stored HTTP endpoints to HTTPS: the configuration file, the cached
    repositories' Git configuration, and the workspaces' metadata. */
module HttpsMigration {
  import opened Wrappers
  import opened PyText
  import SetupConfig
  import Utf8

  // ---------- Endpoints ----------

  /** The parsed pair of endpoints: same host and path prefix, default ports spelled out or not. */
  datatype Endpoint = Endpoint(host: string, prefix: string, httpPort: bool, httpsPort: bool)

  predicate UrlChar(c: char) {
    'a' <= c <= 'z' || 'A' <= c <= 'Z' || '0' <= c <= '9' || c in {'.', '-', '_', '/', ':'}
  }

  predicate UrlText(s: string) { forall i :: 0 <= i < |s| ==> UrlChar(s[i]) }

  predicate ValidEndpoint(e: Endpoint) {
    e.host != "" && UrlText(e.host) && '/' !in e.host && UrlText(e.prefix) &&
    (e.prefix != "" ==> e.prefix[|e.prefix| - 1] != '/')
  }

  function Http(e: Endpoint): string { "http://" + e.host + (if e.httpPort then ":80" else "") + e.prefix }

  function Https(e: Endpoint): string { "https://" + e.host + (if e.httpsPort then ":443" else "") + e.prefix }

  // `EndpointMap.upgrade`; none when it raises.
  function Upgrade(e: Endpoint, url: string, suffix: string): Option<string> {
    if url == Http(e) + suffix then Some(Https(e) + suffix)
    else if url == Https(e) + suffix then Some(url) else None
  }

  predicate ProjectChar(c: char) {
    'a' <= c <= 'z' || 'A' <= c <= 'Z' || '0' <= c <= '9' || c in {'.', '-', '_', '/'}
  }

  // `_validate_project`
  predicate ValidProject(p: string) {
    (forall i :: 0 <= i < |p| ==> ProjectChar(p[i])) && |Parts(p)| >= 2 &&
    forall i :: 0 <= i < |Parts(p)| ==> Parts(p)[i] !in {"", ".", ".."}
  }

  // `[A-Za-z0-9_.-]+`, but not one or two dots.
  predicate IsComponent(c: string) {
    c !in {"", ".", ".."} && forall i :: 0 <= i < |c| ==> ProjectChar(c[i]) && c[i] != '/'
  }

  /** A project is two or more such names with slashes between them. */
  lemma {:induction false} ValidProjectExactlyWhen(p: string)
    ensures ValidProject(p) <==>
      exists parts :: |parts| >= 2 && (forall i :: 0 <= i < |parts| ==> IsComponent(parts[i])) && p == JoinSlash(parts)
  {
    if ValidProject(p) {
      JoinParts(p);
      PartsPlain(p);
      hide Parts, JoinSlash;
      forall i | 0 <= i < |Parts(p)| ensures IsComponent(Parts(p)[i]) {
        forall j | 0 <= j < |Parts(p)[i]| ensures ProjectChar(Parts(p)[i][j]) && Parts(p)[i][j] != '/' {
          assert Parts(p)[i][j] in Parts(p)[i];
        }
      }
    }
    hide Parts, JoinSlash;
    forall parts | |parts| >= 2 && (forall i :: 0 <= i < |parts| ==> IsComponent(parts[i])) && p == JoinSlash(parts)
      ensures ValidProject(p)
    {
      PartsOfJoin(parts);
      JoinedChars(parts);
    }
  }

  lemma {:induction false} JoinedChars(parts: seq<string>)
    requires parts != [] && forall i :: 0 <= i < |parts| ==> IsComponent(parts[i])
    ensures forall i :: 0 <= i < |JoinSlash(parts)| ==> ProjectChar(JoinSlash(parts)[i])
  {
    if |parts| > 1 { JoinedChars(parts[1..]); }
  }

  predicate EndsWith(s: string, t: string) { |s| >= |t| && s[|s| - |t|..] == t }

  // The text between `base/` and `.git`.
  function ProjectUnder(base: string, url: string): Option<string> {
    if base + "/" <= url && EndsWith(url, ".git") && |url| >= |base| + 5 then Some(url[|base| + 1..|url| - 4]) else None
  }

  // `EndpointMap.project_for`; none when it raises.
  function ProjectFor(e: Endpoint, url: string): Option<string> {
    var onHttp, onHttps := ProjectUnder(Http(e), url), ProjectUnder(Https(e), url);
    var found := if onHttp.Some? then onHttp else onHttps;
    if found.Some? && ValidProject(found.value) then found else None
  }

  function GitSuffix(project: string): string { "/" + project + ".git" }

  lemma {:induction false} SchemesDiffer(e: Endpoint, s: string, t: string)
    ensures Http(e) + s != Https(e) + t
    ensures !(Http(e) + s <= Https(e) + t) && !(Https(e) + t <= Http(e) + s)
  {
    assert (Http(e) + s)[4] == ':' && (Https(e) + t)[4] == 's';
  }

  lemma {:induction false} UnderGives(base: string, url: string)
    requires ProjectUnder(base, url).Some?
    ensures url == base + GitSuffix(ProjectUnder(base, url).value)
  {
    var p := ProjectUnder(base, url).value;
    assert url == url[..|base| + 1] + p + url[|url| - 4..];
    assert url[..|base| + 1] == base + "/" && url[|url| - 4..] == ".git";
    assert (base + "/") + p + ".git" == base + ("/" + p + ".git");
  }

  lemma {:induction false} UnderOf(base: string, p: string)
    ensures ProjectUnder(base, base + GitSuffix(p)) == Some(p)
  {
    var url := base + GitSuffix(p);
    assert url == (base + "/") + p + ".git";
    assert url[..|base| + 1] == base + "/" && url[|url| - 4..] == ".git";
    assert url[|base| + 1..|url| - 4] == p;
  }

  /** A cached origin names the same project before and after the upgrade, and upgrading it again
      changes nothing. */
  lemma {:induction false} UpgradedProject(e: Endpoint, url: string)
    requires ProjectFor(e, url).Some?
    ensures var p := ProjectFor(e, url).value;
      && Upgrade(e, url, GitSuffix(p)) == Some(Https(e) + GitSuffix(p))
      && ProjectFor(e, Https(e) + GitSuffix(p)) == Some(p)
      && Upgrade(e, Https(e) + GitSuffix(p), GitSuffix(p)) == Some(Https(e) + GitSuffix(p))
  {
    var p, s := ProjectFor(e, url).value, GitSuffix(ProjectFor(e, url).value);
    if ProjectUnder(Http(e), url).Some? { UnderGives(Http(e), url); } else { UnderGives(Https(e), url); }
    UnderOf(Https(e), p);
    SchemesDiffer(e, "/", s);
    SchemesDiffer(e, s, s);
  }

  // ---------- The configuration file ----------

  const KEY: string := "GITLAB_BASE_URL"

  function SplitAtEquals(s: string): Option<(string, string)> {
    if s == "" then None
    else if s[0] == '=' then Some(("", s[1..]))
    else
      match SplitAtEquals(s[1..])
      case None => None
      case Some((a, b)) => Some(([s[0]] + a, b))
  }

  // A line as the migration reads it: only `export` and one space is taken off.
  function EnvEntry(line: string): Option<SetupConfig.Assignment> {
    var text := Strip(line);
    var body := if "export " <= text then Strip(text[7..]) else text;
    if text == "" || text[0] == '#' then None
    else
      match SplitAtEquals(body)
      case None => None
      case Some((key, raw)) => Some((Strip(key), SetupConfig.DecodeValue(raw)))
  }

  function EnvEntries(lines: seq<string>): seq<Option<SetupConfig.Assignment>> {
    seq(|lines|, i requires 0 <= i < |lines| => EnvEntry(lines[i]))
  }

  function EnvPairs(lines: seq<string>): seq<SetupConfig.Assignment> { SetupConfig.Listed(EnvEntries(lines)) }

  // `_env_data`; none when a key repeats.
  function EnvData(text: string): Option<map<string, string>> { SetupConfig.FromPairs(EnvPairs(SplitLines(text))) }

  predicate IsBase(s: string) { KEY <= s && LStrip(s[|KEY|..]) != "" && LStrip(s[|KEY|..])[0] == '=' }

  // The pattern of lines to rewrite: here `export` may be followed by any whitespace.
  predicate Matches(line: string) {
    var s := LStrip(line);
    IsBase(s) || (SetupConfig.Exported(s) && IsBase(LStrip(s[6..])))
  }

  function LineFeed(line: string): string {
    if EndsWith(line, "\r\n") then "\r\n" else if EndsWith(line, "\n") then "\n" else ""
  }

  function EnvLine(https: string, line: string): string {
    if Matches(line) then KEY + "=" + https + LineFeed(line) else line
  }

  function EnvLines(https: string, lines: seq<string>): seq<string> {
    seq(|lines|, i requires 0 <= i < |lines| => EnvLine(https, lines[i]))
  }

  function RewriteEnv(https: string, text: string): string { Join(EnvLines(https, SplitLines(text))) }

  function TrimSlashes(s: string): string {
    if s != "" && s[|s| - 1] == '/' then TrimSlashes(s[..|s| - 1]) else s
  }

  // Every line ends in LF or CRLF, but the last may end without.
  predicate FeedsOnly(lines: seq<string>) {
    forall i :: 0 <= i < |lines| ==> EndsWith(lines[i], "\n") || (i == |lines| - 1 && !Terminated(lines[i]))
  }

  lemma {:induction false} SplitAtEqualsIs(s: string)
    ensures SplitAtEquals(s).Some? ==> var (a, b) := SplitAtEquals(s).value; s == a + "=" + b && '=' !in a
  {
    if s != "" && s[0] != '=' { SplitAtEqualsIs(s[1..]); }
  }

  lemma {:induction false} SplitAtEqualsOf(a: string, b: string)
    requires '=' !in a
    ensures SplitAtEquals(a + "=" + b) == Some((a, b))
  {
    if a == "" {
      assert ("" + "=" + b)[1..] == b;
    } else {
      assert (a + "=" + b)[1..] == a[1..] + "=" + b;
      SplitAtEqualsOf(a[1..], b);
      assert [a[0]] + a[1..] == a;
    }
  }

  // ---------- What the migration's own reader makes of a line ----------

  /** Once its indentation is off, the line is neither empty nor a comment, and is `export` with one
      space or nothing, a name, `=` and a value; the name goes up to the first `=`. */
  ghost predicate EnvGives(line: string, key: string, value: string) {
    exists indent, text, name, raw ::
      && AllSpace(indent) && line == indent + text
      && text != "" && !IsSpace(text[0]) && text[0] != '#'
      && text == ExportOf(text) + name + "=" + raw && '=' !in name
      && key == Strip(name) && value == SetupConfig.DecodeValue(raw)
  }

  function ExportOf(text: string): string { if "export " <= text then "export " else "" }

  lemma {:induction false} TextStrips(indent: string, prefix: string, name: string, raw: string)
    requires AllSpace(indent) && prefix + name + "=" + raw != "" && !IsSpace((prefix + name + "=" + raw)[0])
    ensures Strip(indent + (prefix + name + "=" + raw)) == prefix + (name + "=" + RStrip(raw))
  {
    var text := prefix + name + "=" + raw;
    LStripSpaces(indent, text);
    assert text == (prefix + name) + ['='] + raw;
    RStripAfter(prefix + name, '=', raw);
    hide LStrip, RStrip;
    assert (prefix + name) + ['='] + RStrip(raw) == prefix + (name + "=" + RStrip(raw));
  }

  lemma {:induction false} BodyStrips(name: string, raw: string)
    ensures Strip(name + "=" + RStrip(raw)) == LStrip(name) + "=" + RStrip(raw)
  {
    LStripBefore(name, '=', RStrip(raw));
    RStripAfter(LStrip(name), '=', RStrip(raw));
    RStripTwice(raw);
    hide LStrip, RStrip;
    assert name + "=" + RStrip(raw) == name + ['='] + RStrip(raw);
  }

  lemma {:induction false} BodyReads(name: string, raw: string)
    requires '=' !in name
    ensures SplitAtEquals(name + "=" + RStrip(raw)) == Some((name, RStrip(raw)))
    ensures SplitAtEquals(LStrip(name) + "=" + RStrip(raw)) == Some((LStrip(name), RStrip(raw)))
    ensures Strip(LStrip(name)) == Strip(name)
    ensures SetupConfig.DecodeValue(RStrip(raw)) == SetupConfig.DecodeValue(raw)
  {
    LStripSuffix(name);
    StripHalf(name);
    StripHalf(raw);
    hide LStrip, RStrip, SplitAtEquals, Strip;
    SplitAtEqualsOf(name, RStrip(raw));
    SplitAtEqualsOf(LStrip(name), RStrip(raw));
  }

  lemma {:induction false} ReadsAs(indent: string, text: string, name: string, raw: string)
    requires AllSpace(indent) && text != "" && !IsSpace(text[0]) && text[0] != '#'
    requires text == ExportOf(text) + name + "=" + raw && '=' !in name
    ensures EnvEntry(indent + text) == Some((Strip(name), SetupConfig.DecodeValue(raw)))
  {
    var prefix, body := ExportOf(text), name + "=" + RStrip(raw);
    TextStrips(indent, prefix, name, raw);
    BodyStrips(name, raw);
    BodyReads(name, raw);
    RStripPrefixOf(raw);
    hide LStrip, RStrip, SplitAtEquals, Strip, SetupConfig.DecodeValue, EnvEntry;
    TrimmedStart(text, prefix + body, prefix, body);
    if prefix == "" {
      EntryFrom(indent + text, prefix + body, body, name, RStrip(raw));
    } else {
      EntryFrom(indent + text, prefix + body, LStrip(name) + "=" + RStrip(raw), LStrip(name), RStrip(raw));
    }
  }

  // The text up to where its end was trimmed.
  lemma {:induction false} TrimmedStart(text: string, trimmed: string, prefix: string, body: string)
    requires prefix == ExportOf(text) && trimmed == prefix + body && trimmed <= text && body != ""
    ensures trimmed[0] == text[0] && ("export " <= trimmed <==> prefix != "")
    ensures if prefix == "" then trimmed == body else trimmed[7..] == body
  {
  }

  lemma EntryFrom(line: string, trimmed: string, body: string, name: string, raw: string)
    requires Strip(line) == trimmed && trimmed != "" && trimmed[0] != '#'
    requires body == if "export " <= trimmed then Strip(trimmed[7..]) else trimmed
    requires SplitAtEquals(body) == Some((name, raw))
    ensures EnvEntry(line) == Some((Strip(name), SetupConfig.DecodeValue(raw)))
  {
    hide Strip, SplitAtEquals, SetupConfig.DecodeValue;
  }

  lemma {:induction false} RStripTwice(s: string)
    ensures RStrip(RStrip(s)) == RStrip(s)
  {
    RStripPrefix(s);
    RStripSpaces(RStrip(s), "");
    assert RStrip(s) + "" == RStrip(s);
  }

  lemma RStripPrefixOf(s: string)
    ensures RStrip(s) <= s
  {
    RStripPrefix(s);
  }

  // A line that is read at all has that form.
  lemma {:induction false} ReadsOnly(line: string)
    requires EnvEntry(line).Some?
    ensures EnvGives(line, EnvEntry(line).value.0, EnvEntry(line).value.1)
  {
    var text := LStrip(line);
    var indent := Indent(line);
    RStripPrefixOf(text);
    HasEquals(text);
    StartOf(text);
    hide LStrip, RStrip, EnvEntry, EnvGives;
    var prefix := ExportOf(text);
    var name, raw := CutAtEquals(prefix, text);
    hide SplitAtEquals, ExportOf;
    ReadsAs(indent, text, name, raw);
    GivesIt(indent, text, name, raw);
  }

  lemma Indent(line: string) returns (indent: string)
    ensures AllSpace(indent) && line == indent + LStrip(line)
    ensures LStrip(line) != "" ==> !IsSpace(LStrip(line)[0])
  {
    LStripSuffix(line);
    indent := line[..|line| - |LStrip(line)|];
  }

  lemma StartOf(text: string)
    ensures RStrip(text) != "" ==> text != "" && text[0] == RStrip(text)[0]
  {
    RStripPrefixOf(text);
  }

  lemma {:induction false} CutAtEquals(prefix: string, text: string) returns (name: string, raw: string)
    requires prefix <= text && SplitAtEquals(text[|prefix|..]).Some?
    ensures text == prefix + name + "=" + raw && '=' !in name
  {
    SplitAtEqualsIs(text[|prefix|..]);
    name, raw := SplitAtEquals(text[|prefix|..]).value.0, SplitAtEquals(text[|prefix|..]).value.1;
    hide SplitAtEquals;
    assert text == prefix + text[|prefix|..];
  }

  lemma GivesIt(indent: string, text: string, name: string, raw: string)
    requires AllSpace(indent) && text != "" && !IsSpace(text[0]) && text[0] != '#'
    requires text == ExportOf(text) + name + "=" + raw && '=' !in name
    ensures EnvGives(indent + text, Strip(name), SetupConfig.DecodeValue(raw))
  {
    hide Strip, ExportOf, SetupConfig.DecodeValue;
  }

  lemma {:induction false} HasEquals(text: string)
    requires var trimmed := RStrip(text);
      SplitAtEquals(if "export " <= trimmed then Strip(trimmed[7..]) else trimmed).Some?
    ensures SplitAtEquals(text[|ExportOf(text)|..]).Some?
  {
    var trimmed := RStrip(text);
    RStripPrefixOf(text);
    var body := if "export " <= trimmed then Strip(trimmed[7..]) else trimmed;
    SplitAtEqualsIs(body);
    hide RStrip;
    assert '=' in body;
    if "export " <= trimmed {
      var before, after := StripParts(trimmed[7..]);
      assert '=' in trimmed[7..] && trimmed[7..] <= text[7..];
      SplitFindsEquals(text[7..]);
    } else {
      EqualsPastExport(text, trimmed);
      assert '=' in text;
      SplitFindsEquals(text);
    }
  }

  lemma EqualsPastExport(text: string, trimmed: string)
    requires trimmed <= text && '=' in trimmed
    ensures "export " <= text ==> "export " <= trimmed
  {
    var i :| 0 <= i < |trimmed| && trimmed[i] == '=';
    assert text[i] == '=';
    assert forall k :: 0 <= k < 7 ==> "export "[k] != '=';
  }

  lemma {:induction false} SplitFindsEquals(s: string)
    requires '=' in s
    ensures SplitAtEquals(s).Some?
  {
    if s[0] != '=' { SplitFindsEquals(s[1..]); }
  }

  /** The migration's reader takes a line exactly as `EnvGives` says, and nothing from any other. */
  lemma {:induction false} EnvEntryIs(line: string)
    ensures forall key, v :: EnvGives(line, key, v) <==> EnvEntry(line) == Some((key, v))
  {
    hide EnvEntry;
    forall key, v | EnvGives(line, key, v) ensures EnvEntry(line) == Some((key, v)) {
      var indent, text, name, raw :|
        && AllSpace(indent) && line == indent + text
        && text != "" && !IsSpace(text[0]) && text[0] != '#'
        && text == ExportOf(text) + name + "=" + raw && '=' !in name
        && key == Strip(name) && v == SetupConfig.DecodeValue(raw);
      ReadsAs(indent, text, name, raw);
    }
    hide EnvGives;
    if EnvEntry(line).Some? { ReadsOnly(line); }
  }

  ghost predicate EnvHas(text: string, key: string, v: string) {
    exists i :: 0 <= i < |SplitLines(text)| && EnvGives(SplitLines(text)[i], key, v)
  }

  ghost predicate EnvTwice(text: string) {
    exists i, j, key, v, v' :: 0 <= i < j < |SplitLines(text)| &&
      EnvGives(SplitLines(text)[i], key, v) && EnvGives(SplitLines(text)[j], key, v')
  }

  /** The settings are what the lines give, and are refused exactly when two lines give the same key. */
  lemma {:induction false} EnvDataIs(text: string)
    ensures EnvData(text).None? <==> EnvTwice(text)
    ensures EnvData(text).Some? ==>
      forall key, v :: EnvHas(text, key, v) <==> key in EnvData(text).value && EnvData(text).value[key] == v
  {
    var lines, entries := SplitLines(text), EnvEntries(SplitLines(text));
    SetupConfig.DictOf(entries);
    hide EnvEntry, EnvGives, SplitLines, SetupConfig.FromPairs, SetupConfig.Listed;
    forall i | 0 <= i < |lines| ensures forall k, v :: EnvGives(lines[i], k, v) <==> entries[i] == Some((k, v)) {
      EnvEntryIs(lines[i]);
    }
    HasEntry(lines, text);
    TwiceEntry(lines, text);
    hide EnvHas, EnvTwice, EnvEntries;
  }

  lemma {:induction false} TwiceEntry(lines: seq<string>, text: string)
    requires lines == SplitLines(text)
    requires forall i :: 0 <= i < |lines| ==>
      forall k, v :: EnvGives(lines[i], k, v) <==> EnvEntries(lines)[i] == Some((k, v))
    ensures EnvTwice(text) <==> SetupConfig.KeyTwice(EnvEntries(lines))
  {
    hide EnvEntry, EnvGives, SplitLines;
    var entries := EnvEntries(lines);
    if SetupConfig.KeyTwice(entries) {
      var i, j :| 0 <= i < j < |entries| && entries[i].Some? && entries[j].Some? &&
        entries[i].value.0 == entries[j].value.0;
      assert EnvGives(lines[i], entries[i].value.0, entries[i].value.1);
      assert EnvGives(lines[j], entries[j].value.0, entries[j].value.1);
    }
    if EnvTwice(text) {
      var i, j, key, v, v' :| 0 <= i < j < |lines| && EnvGives(lines[i], key, v) && EnvGives(lines[j], key, v');
      assert entries[i] == Some((key, v)) && entries[j] == Some((key, v'));
    }
  }

  lemma {:induction false} HasEntry(lines: seq<string>, text: string)
    requires lines == SplitLines(text)
    requires forall i :: 0 <= i < |lines| ==>
      forall k, v :: EnvGives(lines[i], k, v) <==> EnvEntries(lines)[i] == Some((k, v))
    ensures forall key, v :: Some((key, v)) in EnvEntries(lines) <==> EnvHas(text, key, v)
  {
    hide EnvEntry, EnvGives, SplitLines;
    forall key, v ensures Some((key, v)) in EnvEntries(lines) <==> EnvHas(text, key, v) {
      if Some((key, v)) in EnvEntries(lines) {
        var i :| 0 <= i < |lines| && EnvEntries(lines)[i] == Some((key, v));
        assert EnvGives(lines[i], key, v);
      }
      if EnvHas(text, key, v) {
        var i :| 0 <= i < |lines| && EnvGives(lines[i], key, v);
        assert EnvEntries(lines)[i] == Some((key, v));
      }
    }
  }

  /** The pattern of lines to rewrite matches exactly those the editor takes for the key. */
  lemma {:induction false} MatchesExactlyWhen(line: string)
    ensures Matches(line) <==> exists raw :: SetupConfig.Assigns(line, KEY, raw)
  {
    KeyIsKey();
    hide LStrip, SetupConfig.IsKey, SetupConfig.IsExport;
    if Matches(line) { MatchAssigns(line); }
    if raw :| SetupConfig.Assigns(line, KEY, raw) {
      var indent, prefix, w :|
        AllSpace(indent) && SetupConfig.IsExport(prefix) && SetupConfig.IsKey(KEY) && AllSpace(w) &&
        line == indent + prefix + KEY + w + "=" + raw;
      AssignsMatch(indent, prefix, w, raw);
    }
  }

  lemma KeyIsKey()
    ensures SetupConfig.IsKey(KEY)
  {
  }

  lemma {:induction false} BaseParts(s: string) returns (w: string, raw: string)
    requires IsBase(s)
    ensures AllSpace(w) && s == KEY + w + "=" + raw
  {
    var l := LStrip(s[|KEY|..]);
    w := Indent(s[|KEY|..]);
    raw := l[1..];
    hide LStrip;
    assert s == KEY + s[|KEY|..] && l == "=" + raw;
    assert KEY + (w + ("=" + raw)) == KEY + w + "=" + raw;
  }

  lemma {:induction false} BaseOf(w: string, raw: string)
    requires AllSpace(w)
    ensures IsBase(KEY + w + "=" + raw)
  {
    var s := KEY + w + "=" + raw;
    assert s[|KEY|..] == w + ("=" + raw);
    LStripSpaces(w, "=" + raw);
  }

  lemma {:induction false} MatchAssigns(line: string)
    requires Matches(line)
    ensures exists raw :: SetupConfig.Assigns(line, KEY, raw)
  {
    var s := LStrip(line);
    var indent := Indent(line);
    KeyIsKey();
    hide LStrip, SetupConfig.IsKey, SetupConfig.Assigns, SetupConfig.IsExport, AllSpace;
    if IsBase(s) {
      hide SetupConfig.Exported;
      var w, raw := BaseParts(s);
      PlainExport();
      hide IsBase;
      SetupConfig.AssignsIt(indent, "", KEY, w, raw);
      SixParts(indent, "", KEY, w, raw);
      assert "" + s == s;
    } else {
      var w, raw := BaseParts(LStrip(s[6..]));
      var spaces := SetupConfig.ExportSpaces(s);
      hide IsBase, SetupConfig.Exported;
      SetupConfig.AssignsIt(indent, "export" + spaces, KEY, w, raw);
      SixParts(indent, "export" + spaces, KEY, w, raw);
    }
  }

  lemma SixParts(indent: string, prefix: string, key: string, w: string, raw: string)
    ensures indent + prefix + key + w + "=" + raw == indent + (prefix + (key + w + "=" + raw))
  {
    assert indent + prefix + key + w + "=" + raw == indent + (prefix + (key + w + "=" + raw));
  }

  lemma PlainExport()
    ensures SetupConfig.IsExport("")
  {
  }

  lemma {:induction false} AssignsMatch(indent: string, prefix: string, w: string, raw: string)
    requires AllSpace(indent) && SetupConfig.IsExport(prefix) && AllSpace(w)
    ensures Matches(indent + prefix + KEY + w + "=" + raw)
  {
    var body := KEY + w + "=" + raw;
    var s := prefix + body;
    BaseOf(w, raw);
    SixParts(indent, prefix, KEY, w, raw);
    BodyStart(body);
    hide IsBase;
    if prefix != "" { ExportedBody(prefix, body); } else { assert s == body; }
    hide SetupConfig.IsExport;
    LStripSpaces(indent, s);
  }

  lemma BodyStart(body: string)
    requires IsBase(body)
    ensures body != "" && !IsSpace(body[0])
  {
    assert body[0] == KEY[0];
  }

  lemma {:induction false} ExportedBody(prefix: string, body: string)
    requires SetupConfig.IsExport(prefix) && prefix != "" && body != "" && !IsSpace(body[0])
    ensures SetupConfig.Exported(prefix + body) && LStrip((prefix + body)[6..]) == body
    ensures !IsSpace((prefix + body)[0])
  {
    var s := prefix + body;
    assert s[..6] == prefix[..6] && s[6] == prefix[6..][0] && s[6..] == prefix[6..] + body && s[0] == prefix[0];
    LStripSpaces(prefix[6..], body);
  }

  /** Line by line, the rewritten file has the new endpoint on each line that assigns it, with that
      line's own end, and every other line as it was. */
  lemma {:induction false} RewrittenLines(https: string, text: string, i: nat)
    requires PlainUrl(https) && FeedsOnly(SplitLines(text)) && i < |SplitLines(text)|
    ensures var lines, out := SplitLines(text), SplitLines(RewriteEnv(https, text));
      && |out| == |lines|
      && out[i] ==
           if exists raw :: SetupConfig.Assigns(lines[i], KEY, raw) then
             KEY + "=" + https +
             (if EndsWith(lines[i], "\r\n") then "\r\n" else if EndsWith(lines[i], "\n") then "\n" else "")
           else lines[i]
  {
    RewriteSplits(https, text);
    hide SplitLines, Matches, RewriteEnv, SetupConfig.Assigns, FeedsOnly, PlainUrl;
    MatchesExactlyWhen(SplitLines(text)[i]);
  }

  // A text whose part before `=` strips to the key, and that starts with no space, has the key first.
  lemma {:induction false} KeyFirst(a: string, b: string)
    requires Strip(a) == KEY && !IsSpace(a[0])
    ensures IsBase(a + "=" + b)
  {
    LStripSuffix(a);
    RStripPrefix(LStrip(a));
    assert LStrip(a) == a;
    var w := a[|KEY|..];
    assert a == KEY + w;
    var s := a + "=" + b;
    assert s[|KEY|..] == w + ("=" + b);
    LStripSpaces(w, "=" + b);
  }

  lemma {:induction false} IsBaseMore(s: string, more: string)
    requires IsBase(s)
    ensures IsBase(s + more)
  {
    var r := s[|KEY|..];
    LStripSuffix(r);
    var w := r[..|r| - |LStrip(r)|];
    assert r == w + LStrip(r);
    assert forall i :: 0 <= i < |w| ==> w[i] == r[i];
    hide LStrip;
    assert (s + more)[|KEY|..] == w + (LStrip(r) + more);
    LStripSpaces(w, LStrip(r) + more);
  }

  lemma {:induction false} StripStart(s: string)
    ensures Strip(s) != "" ==> !IsSpace(Strip(s)[0])
    ensures Strip(s) <= LStrip(s)
  {
    StripEdges(s);
    RStripPrefix(LStrip(s));
  }

  // The body that assigns the key starts with it.
  lemma {:induction false} BodyIsBase(body: string)
    requires body != "" ==> !IsSpace(body[0])
    requires SplitAtEquals(body).Some? && Strip(SplitAtEquals(body).value.0) == KEY
    ensures IsBase(body)
  {
    var (a, b) := SplitAtEquals(body).value;
    SplitAtEqualsIs(body);
    assert Strip("") == "";
    assert a[0] == body[0];
    KeyFirst(a, b);
  }

  // Leading space is taken off a text that goes on.
  lemma {:induction false} LStripMore(rest: string, more: string)
    requires LStrip(rest) != ""
    ensures LStrip(rest + more) == LStrip(rest) + more
  {
    LStripSuffix(rest);
    var l := LStrip(rest);
    hide LStrip;
    var w := rest[..|rest| - |l|];
    assert rest == w + l && rest + more == w + (l + more);
    assert forall i :: 0 <= i < |w| ==> w[i] == rest[i];
    LStripSpaces(w, l + more);
  }

  lemma LStripOne(s: string)
    requires s != "" && IsSpace(s[0])
    ensures LStrip(s) == LStrip(s[1..])
  {
  }

  lemma {:induction false} AfterExport(l: string, text: string)
    requires text <= l && "export " <= text && Strip(text[7..]) != ""
    ensures SetupConfig.Exported(l) && Strip(text[7..]) <= LStrip(l[6..])
  {
    var rest, more := text[7..], l[|text|..];
    RStripPrefix(LStrip(rest));
    hide LStrip, RStrip;
    assert l[6] == ' ' && l[..6] == "export";
    LStripOne(l[6..]);
    assert l[6..][1..] == rest + more;
    LStripMore(rest, more);
  }

  /** A line that is read as the endpoint is one that is rewritten. */
  lemma {:induction false} ReadIsMatched(line: string)
    requires EnvEntry(line).Some? && EnvEntry(line).value.0 == KEY
    ensures Matches(line)
  {
    hide IsBase, SplitAtEquals, LStrip, RStrip, Strip, SetupConfig.DecodeValue, SetupConfig.Exported;
    var text, l := Strip(line), LStrip(line);
    StripStart(line);
    if "export " <= text {
      var body := Strip(text[7..]);
      StripStart(text[7..]);
      BodyIsBase(body);
      NoBase();
      AfterExport(l, text);
      IsBaseMore(body, LStrip(l[6..])[|body|..]);
      assert LStrip(l[6..]) == body + LStrip(l[6..])[|body|..];
    } else {
      BodyIsBase(text);
      IsBaseMore(text, l[|text|..]);
      assert l == text + l[|text|..];
    }
  }

  lemma NoBase()
    ensures !IsBase("") && SplitAtEquals("") == None
  {
  }

  lemma {:induction false} UrlPlain(s: string)
    requires UrlText(s)
    ensures forall i :: 0 <= i < |s| ==> !IsSpace(s[i]) && s[i] != '"' && s[i] != '\''
  {
  }

  // What an upgraded endpoint looks like.
  predicate PlainUrl(url: string) { url != "" && UrlText(url) && url[|url| - 1] != '/' }

  lemma {:induction false} HttpsPlain(e: Endpoint)
    requires ValidEndpoint(e)
    ensures PlainUrl(Https(e)) && PlainUrl(Http(e))
  {
    assert UrlText("https://") && UrlText("http://") && UrlText(":443") && UrlText(":80");
  }

  lemma {:induction false} StripPlain(s: string, tail: string)
    requires s != "" && !IsSpace(s[0]) && !IsSpace(s[|s| - 1]) && tail in {"", "\n", "\r\n"}
    ensures Strip(s + tail) == s
  {
    hide Strip;
    StripEdges(s);
    if tail == "" {
      assert s + "" == s;
    } else if tail == "\n" {
      StripSpace(s, '\n');
    } else {
      StripSpace(s, '\r');
      StripSpace(s + "\r", '\n');
      assert s + "\r\n" == s + "\r" + "\n";
    }
  }

  /** A rewritten line is read as the new endpoint. */
  lemma {:induction false} RewrittenReads(https: string, eol: string)
    requires PlainUrl(https) && eol in {"", "\n", "\r\n"}
    ensures EnvEntry(KEY + "=" + https + eol) == Some((KEY, https))
  {
    var text := KEY + "=" + https;
    UrlPlain(https);
    assert text[0] == 'G' && text[|text| - 1] == https[|https| - 1];
    StripPlain(text, eol);
    SplitAtEqualsOf(KEY, https);
    StripPlain(KEY, "");
    StripPlain(https, "");
    assert KEY + "" == KEY && https + "" == https;
    hide Strip, SplitAtEquals;
  }

  // ---------- The rewritten file ----------

  lemma {:induction false} SplitJoined(lines: seq<string>)
    requires FeedsOnly(lines) && forall i :: 0 <= i < |lines| ==> IsLine(lines[i])
    ensures SplitLines(Join(lines)) == lines
  {
    hide SplitLines, IsLine;
    if |lines| == 1 {
      assert lines[1..] == [] && lines[0] + "" == lines[0];
      SplitIsLine(lines[0]);
    } else if lines != [] {
      forall i | 0 <= i < |lines[1..]| ensures lines[1..][i] == lines[i + 1] { }
      SplitJoined(lines[1..]);
      SplitIsLine(lines[0]);
      SplitAppend(lines[0], Join(lines[1..]));
    } else {
      SplitNothing();
    }
  }

  lemma SplitNothing()
    ensures SplitLines("") == []
  {
  }

  lemma {:induction false} RewrittenLine(https: string, line: string)
    requires PlainUrl(https) && IsLine(line) && (EndsWith(line, "\n") || !Terminated(line))
    ensures var l := EnvLine(https, line);
      IsLine(l) && (EndsWith(line, "\n") ==> EndsWith(l, "\n")) && (!Terminated(line) ==> !Terminated(l))
  {
    hide IsLine, Matches;
    UrlPlain(https);
    var body := KEY + "=" + https;
    assert NoBreaks(body);
    if Matches(line) {
      if LineFeed(line) == "" {
        assert body + "" == body;
        UnbrokenIsLine(body);
      } else {
        SplitOneLine(body, LineFeed(line));
      }
    }
  }

  lemma {:induction false} UnbrokenIsLine(s: string)
    requires s != "" && NoBreaks(s)
    ensures IsLine(s) && !Terminated(s)
  {
    UnbrokenLength(s);
  }

  lemma {:induction false} RewriteSplits(https: string, text: string)
    requires PlainUrl(https) && FeedsOnly(SplitLines(text))
    ensures SplitLines(RewriteEnv(https, text)) == EnvLines(https, SplitLines(text))
  {
    hide EnvLine, IsLine, SplitLines, Terminated, EndsWith;
    var lines := SplitLines(text);
    forall i | 0 <= i < |lines|
      ensures var l := EnvLine(https, lines[i]);
        IsLine(l) && (EndsWith(lines[i], "\n") ==> EndsWith(l, "\n")) && (!Terminated(lines[i]) ==> !Terminated(l))
    {
      SplitGivesLines(text, i);
      RewrittenLine(https, lines[i]);
    }
    SplitJoined(EnvLines(https, lines));
  }

  // No line is rewritten but the one that is read as the endpoint.
  predicate OneMatch(lines: seq<string>) {
    forall i, j :: 0 <= i < j < |lines| ==> !(Matches(lines[i]) && Matches(lines[j]))
  }

  predicate ReadsBase(line: string) { EnvEntry(line).Some? && EnvEntry(line).value.0 == KEY }

  lemma {:induction false} LinePairs(https: string, line: string)
    requires PlainUrl(https) && (Matches(line) ==> ReadsBase(line))
    ensures SetupConfig.Given(EnvEntry(EnvLine(https, line))) ==
      SetupConfig.Override(map[KEY := https], SetupConfig.Given(EnvEntry(line)))
  {
    hide EnvEntry, Matches;
    if Matches(line) {
      RewrittenReads(https, LineFeed(line));
    } else if EnvEntry(line).Some? && EnvEntry(line).value.0 == KEY {
      ReadIsMatched(line);
    }
  }

  lemma EnvPairsCons(lines: seq<string>)
    requires lines != []
    ensures EnvPairs(lines) == SetupConfig.Given(EnvEntry(lines[0])) + EnvPairs(lines[1..])
  {
    hide EnvEntry, SetupConfig.Given;
    assert EnvEntries(lines)[1..] == EnvEntries(lines[1..]);
  }

  lemma {:induction false} RewrittenPairs(https: string, lines: seq<string>)
    requires PlainUrl(https) && forall i :: 0 <= i < |lines| ==> (Matches(lines[i]) ==> ReadsBase(lines[i]))
    ensures EnvPairs(EnvLines(https, lines)) == SetupConfig.Override(map[KEY := https], EnvPairs(lines))
  {
    hide EnvEntry, EnvLine, Matches, ReadsBase, SetupConfig.Override, SetupConfig.Given;
    if lines == [] {
      NoOverride(map[KEY := https]);
    } else {
      forall i | 0 <= i < |lines[1..]| ensures lines[1..][i] == lines[i + 1] { }
      RewrittenPairs(https, lines[1..]);
      LinePairs(https, lines[0]);
      EnvPairsCons(lines);
      EnvPairsCons(EnvLines(https, lines));
      SetupConfig.OverrideAppend(map[KEY := https], SetupConfig.Given(EnvEntry(lines[0])), EnvPairs(lines[1..]));
      assert EnvLines(https, lines)[1..] == EnvLines(https, lines[1..]);
    }
  }

  lemma NoOverride(u: map<string, string>)
    ensures SetupConfig.Override(u, []) == []
  {
  }

  /** Reading the rewritten configuration file: it gives the old settings with the new endpoint when
      one line matches the pattern, and otherwise it is refused for a duplicate. */
  lemma {:induction false} RewrittenEnv(https: string, text: string)
    requires PlainUrl(https) && FeedsOnly(SplitLines(text))
    requires EnvData(text).Some? && KEY in EnvData(text).value
    ensures OneMatch(SplitLines(text)) ==> EnvData(RewriteEnv(https, text)) == Some(EnvData(text).value[KEY := https])
    ensures !OneMatch(SplitLines(text)) ==> EnvData(RewriteEnv(https, text)) == None
  {
    hide EnvEntry, SetupConfig.Listed, Matches, SetupConfig.FromPairs, SplitLines, EnvLine, RewriteEnv, FeedsOnly;
    var lines, m := SplitLines(text), EnvData(text).value;
    RewriteSplits(https, text);
    SetupConfig.MapFromPairs(EnvPairs(lines), m, KEY);
    var b := SetupConfig.ListedFrom(EnvEntries(lines), (KEY, m[KEY]));
    ReadIsMatched(lines[b]);
    if OneMatch(lines) {
      RewrittenPairs(https, lines);
      SetupConfig.FromOverride(map[KEY := https], EnvPairs(lines));
      assert SetupConfig.OverrideMap(map[KEY := https], m) == m[KEY := https];
    } else {
      var i, j :| 0 <= i < j < |lines| && Matches(lines[i]) && Matches(lines[j]);
      RewrittenMatches(https, lines, i);
      RewrittenMatches(https, lines, j);
      SetupConfig.ListedTwice(EnvEntries(EnvLines(https, lines)), i, j);
    }
  }

  lemma {:induction false} RewrittenMatches(https: string, lines: seq<string>, i: nat)
    requires PlainUrl(https) && i < |lines| && Matches(lines[i])
    ensures ReadsBase(EnvLines(https, lines)[i])
  {
    hide EnvEntry, Matches;
    RewrittenReads(https, LineFeed(lines[i]));
  }

  // An assignment after `export` and a tab.
  const TABBED: string := "export\t" + KEY

  lemma {:induction false} TabbedEntry(v: string)
    requires PlainUrl(v)
    ensures EnvEntry(TABBED + "=" + v + "\n") == Some((TABBED, v))
  {
    var text := TABBED + "=" + v;
    UrlPlain(v);
    assert text[0] == 'e' && text[6] == '\t' && text[|text| - 1] == v[|v| - 1];
    StripPlain(text, "\n");
    SplitAtEqualsOf(TABBED, v);
    StripPlain(TABBED, "");
    StripPlain(v, "");
    assert TABBED + "" == TABBED && v + "" == v;
    hide Strip, SplitAtEquals;
  }

  lemma {:induction false} TabbedMatches(v: string)
    ensures Matches(TABBED + "=" + v + "\n")
  {
    var line := TABBED + "=" + v + "\n";
    assert line[0] == 'e' && line[6] == '\t' && line[..6] == "export";
    assert line[6..] == "\t" + (KEY + "=" + v + "\n");
    LStripSpaces("\t", KEY + "=" + v + "\n");
    var rest := KEY + "=" + v + "\n";
    assert rest[|KEY|..] == "=" + v + "\n";
  }

  lemma {:induction false} TwoLines(one: string, two: string)
    requires EnvEntry(one).Some? && EnvEntry(two).Some? && EnvEntry(one).value.0 != EnvEntry(two).value.0
    ensures SetupConfig.FromPairs(EnvPairs([one, two])) ==
      Some(map[EnvEntry(one).value.0 := EnvEntry(one).value.1, EnvEntry(two).value.0 := EnvEntry(two).value.1])
  {
    hide EnvEntry, SetupConfig.FromPairs, SetupConfig.Listed;
    assert EnvEntries([one, two]) == [EnvEntry(one)] + [EnvEntry(two)];
    SetupConfig.ListedAppend([EnvEntry(one)], [EnvEntry(two)]);
    SetupConfig.ListedOne(EnvEntry(one));
    SetupConfig.ListedOne(EnvEntry(two));
    SetupConfig.EmptyPairs();
    assert [] + [EnvEntry(one).value] == [EnvEntry(one).value];
    SetupConfig.FromPairsOne([], EnvEntry(one).value);
    SetupConfig.FromPairsOne([EnvEntry(one).value], EnvEntry(two).value);
  }

  /** The duplicate does arise: after a tab the second assignment is not read as the endpoint, but
      it is rewritten into one. */
  lemma {:induction false} TabAfterExport(url: string) returns (text: string)
    requires PlainUrl(url)
    ensures FeedsOnly(SplitLines(text)) && EnvData(text) == Some(map[KEY := url, TABBED := url])
    ensures !OneMatch(SplitLines(text))
  {
    hide EnvEntry, Matches, SetupConfig.FromPairs, EnvPairs;
    var one, two := KEY + "=" + url + "\n", TABBED + "=" + url + "\n";
    text := one + two;
    UrlPlain(url);
    RewrittenReads(url, "\n");
    TabbedEntry(url);
    ReadIsMatched(one);
    TabbedMatches(url);
    SplitOneLine(KEY + "=" + url, "\n");
    SplitOneLine(TABBED + "=" + url, "\n");
    SplitAppend(one, two);
    var lines := [one, two];
    assert SplitLines(text) == lines;
    assert lines[0] == one && lines[1] == two;
    TwoLines(one, two);
  }

  // ---------- Tools that are not modelled ----------

  type File = seq<Utf8.Byte>

  const MAX_FILE_BYTES: nat := 1048576

  // `_read_regular` refuses what is longer.
  predicate Readable(raw: File) { |raw| <= MAX_FILE_BYTES }

  /** What Git reads of a repository's configuration: the local origin and push URLs, those it
      inherits, and everything else. */
  datatype GitView = GitView(origins: seq<string>, pushes: seq<string>, inherited: bool, rest: int)

  datatype Json = Null | Text(s: string) | Value(id: int)

  type State = map<string, Json>

  const LINK: string := "merge_request_url"

  /** Functions of the bytes they are given: Git's reading and editing of a configuration file, JSON
      reading and writing, the cache directory's name for a project, and the checks of policy and of
      workspace metadata, which do not look at the endpoint itself. */
  datatype Tools = Tools(
    gitRead: File -> Option<GitView>,
    gitWrite: (File, string, Option<string>) -> File,
    loads: File -> Option<State>,
    dumps: State -> File,
    repoName: string -> string,
    policy: map<string, string> -> Option<set<string>>,
    gitPolicy: int -> bool,
    stateOk: (string, State) -> bool)

  function Edited(v: GitView, origin: string, push: Option<string>): GitView {
    v.(origins := [origin], pushes := if push.Some? then [push.value] else v.pushes)
  }

  /** A Git edit sets exactly the origin and the push URL; printed metadata reads back. */
  ghost predicate Laws(t: Tools) {
    && (forall raw, o, p :: t.gitRead(raw).Some? ==>
          t.gitRead(t.gitWrite(raw, o, p)) == Some(Edited(t.gitRead(raw).value, o, p)))
    && (forall s :: t.loads(t.dumps(s)) == Some(s))
  }

  // ---------- One file ----------

  // The file's part in the plan; none when the plan is refused.
  datatype Part<T> = Part(info: T, after: Option<File>)

  function EnvText(raw: File): Option<string> { if Readable(raw) then Utf8.Decode(raw) else None }

  function EnvPart(t: Tools, e: Endpoint, raw: File): Option<Part<set<string>>> {
    var text := EnvText(raw);
    var data := if text.None? then None else EnvData(text.value);
    if data.None? then None else
      var configured := TrimSlashes(if KEY in data.value then data.value[KEY] else "");
      var allowed := t.policy(data.value - {KEY});
      if configured !in {Http(e), Https(e)} || allowed.None? || allowed.value == {} then None
      else if configured == Https(e) then Some(Part(allowed.value, None))
      else Some(Part(allowed.value, Some(Utf8.Encode(RewriteEnv(Https(e), text.value)))))
  }

  // The edited copy is read back, so an edit that makes it too long is refused here.
  function RepoPart(t: Tools, e: Endpoint, allowed: set<string>, name: string, raw: File): Option<Part<string>> {
    var view := if Readable(raw) then t.gitRead(raw) else None;
    if view.None? || !t.gitPolicy(view.value.rest) || |view.value.origins| != 1 || view.value.inherited then None else
      var v := view.value;
      var project := ProjectFor(e, v.origins[0]);
      if project.None? || project.value !in allowed || t.repoName(project.value) != name || |v.pushes| > 1
      then None else
        var suffix := GitSuffix(project.value);
        var origin := Upgrade(e, v.origins[0], suffix);
        var push := if v.pushes == [] then None else Upgrade(e, v.pushes[0], suffix);
        if origin.None? || (v.pushes != [] && push.None?) then None
        else if origin.value == v.origins[0] && (v.pushes == [] || push.value == v.pushes[0])
        then Some(Part(project.value, None))
        else if !Readable(t.gitWrite(raw, origin.value, push)) then None
        else Some(Part(project.value, Some(t.gitWrite(raw, origin.value, push))))
  }

  function TrailingDigits(s: string): (n: nat)
    ensures n <= |s|
  {
    if s != "" && '0' <= s[|s| - 1] <= '9' then 1 + TrailingDigits(s[..|s| - 1]) else 0
  }

  const REQUESTS: string := "/-/merge_requests/"

  // The number of a saved link, a newline at its end ignored.
  function LinkNumber(link: string): Option<string> {
    var s := if EndsWith(link, "\n") then link[..|link| - 1] else link;
    var n := TrailingDigits(s);
    if n > 0 && EndsWith(s[..|s| - n], REQUESTS) then Some(s[|s| - n..]) else None
  }

  function LinkSuffix(project: string, number: string): string { "/" + project + REQUESTS + number }

  function StatePart(t: Tools, e: Endpoint, projects: seq<string>, path: string, raw: File): Option<Part<()>> {
    var parsed := if Readable(raw) then t.loads(raw) else None;
    if parsed.None? then None else
      var s := parsed.value;
      if "project" !in s || !s["project"].Text? || s["project"].s !in projects || !t.stateOk(path, s - {LINK}) then None
      else if LINK !in s || s[LINK].Null? then Some(Part((), None))
      else if !s[LINK].Text? then None
      else
        var link := s[LINK].s;
        var number := LinkNumber(link);
        if number.None? then None else
          var upgraded := Upgrade(e, link, LinkSuffix(s["project"].s, number.value));
          if upgraded.None? then None
          else if upgraded.value == link then Some(Part((), None))
          else Some(Part((), Some(t.dumps(s[LINK := Text(upgraded.value)]))))
  }

  // ---------- Each edit is done once ----------

  lemma TrimPlain(url: string)
    requires PlainUrl(url)
    ensures TrimSlashes(url) == url && TrimSlashes("") == ""
  {
  }

  // One line of the configuration file is rewritten.
  predicate EnvOne(raw: File) { EnvText(raw).Some? && OneMatch(SplitLines(EnvText(raw).value)) }

  // Where an edit of the configuration file is planned, its lines end in LF or CRLF.
  predicate EnvFeeds(t: Tools, e: Endpoint, raw: File) {
    EnvPart(t, e, raw).Some? && EnvPart(t, e, raw).value.after.Some? ==> FeedsOnly(SplitLines(EnvText(raw).value))
  }

  lemma {:induction false} EnvTextBack(text: string)
    ensures EnvText(Utf8.Encode(text)) == if Readable(Utf8.Encode(text)) then Some(text) else None
  {
    Utf8.DecodeEncode(text);
  }

  /** The edited configuration file is accepted, with nothing left to do, exactly when one line matched
      and the file did not grow too long to be read. */
  lemma {:induction false} EnvAgain(t: Tools, e: Endpoint, raw: File)
    requires ValidEndpoint(e) && EnvFeeds(t, e, raw)
    requires EnvPart(t, e, raw).Some? && EnvPart(t, e, raw).value.after.Some?
    ensures var part := EnvPart(t, e, raw).value;
      EnvPart(t, e, part.after.value) ==
        if EnvOne(raw) && Readable(part.after.value) then Some(Part(part.info, None)) else None
  {
    hide EnvData, RewriteEnv, SplitLines, FeedsOnly, OneMatch, Https, Http, EnvText, Utf8.Encode, TrimSlashes;
    HttpsPlain(e);
    TrimPlain(Https(e));
    TrimPlain(Http(e));
    SchemesDiffer(e, "", "");
    assert Http(e) + "" == Http(e) && Https(e) + "" == Https(e);
    var text := EnvText(raw).value;
    var m := EnvData(text).value;
    EnvTextBack(RewriteEnv(Https(e), text));
    RewrittenEnv(Https(e), text);
    assert m[KEY := Https(e)] - {KEY} == m - {KEY};
  }

  lemma {:induction false} RepoAgain(t: Tools, e: Endpoint, allowed: set<string>, name: string, raw: File)
    requires Laws(t) && RepoPart(t, e, allowed, name, raw).Some? && RepoPart(t, e, allowed, name, raw).value.after.Some?
    ensures var part := RepoPart(t, e, allowed, name, raw).value;
      RepoPart(t, e, allowed, name, part.after.value) == Some(Part(part.info, None)) && part.after.value != raw
  {
    hide ProjectFor, GitSuffix;
    var v := t.gitRead(raw).value;
    UpgradedProject(e, v.origins[0]);
    var p := ProjectFor(e, v.origins[0]).value;
    var push := if v.pushes == [] then None else Upgrade(e, v.pushes[0], GitSuffix(p));
    var after := t.gitWrite(raw, Https(e) + GitSuffix(p), push);
    assert t.gitRead(after) ==
      Some(v.(origins := [Https(e) + GitSuffix(p)], pushes := if push.Some? then [push.value] else v.pushes));
  }

  lemma {:induction false} DigitsEnd(a: string, ds: string)
    requires ds != "" && (forall i :: 0 <= i < |ds| ==> '0' <= ds[i] <= '9') && a != "" && !('0' <= a[|a| - 1] <= '9')
    ensures TrailingDigits(a + ds) == |ds|
  {
    var s := a + ds;
    assert s[|s| - 1] == ds[|ds| - 1];
    assert s[..|s| - 1] == a + ds[..|ds| - 1];
    if |ds| == 1 {
      assert a + ds[..0] == a;
      assert TrailingDigits(a) == 0;
    } else {
      DigitsEnd(a, ds[..|ds| - 1]);
    }
  }

  lemma {:induction false} DigitsAre(s: string)
    ensures forall i :: |s| - TrailingDigits(s) <= i < |s| ==> '0' <= s[i] <= '9'
  {
    if s != "" && '0' <= s[|s| - 1] <= '9' { DigitsAre(s[..|s| - 1]); }
  }

  lemma {:induction false} NumberOfLink(base: string, project: string, ds: string)
    requires ds != "" && forall i :: 0 <= i < |ds| ==> '0' <= ds[i] <= '9'
    ensures LinkNumber(base + LinkSuffix(project, ds)) == Some(ds)
  {
    var a := base + "/" + project + REQUESTS;
    var s := base + LinkSuffix(project, ds);
    assert s == a + ds;
    assert a[|a| - 1] == '/' && EndsWith(a, REQUESTS);
    assert s[|s| - 1] == ds[|ds| - 1];
    assert !EndsWith(s, "\n");
    DigitsEnd(a, ds);
    assert s[..|s| - |ds|] == a && s[|s| - |ds|..] == ds;
  }

  lemma {:induction false} StateAgain(t: Tools, e: Endpoint, projects: seq<string>, path: string, raw: File)
    requires Laws(t) && StatePart(t, e, projects, path, raw).Some? &&
      StatePart(t, e, projects, path, raw).value.after.Some?
    ensures var after := StatePart(t, e, projects, path, raw).value.after.value;
      StatePart(t, e, projects, path, after) == (if Readable(after) then Some(Part((), None)) else None) && after != raw
  {
    hide LinkSuffix, LinkNumber;
    var s := t.loads(raw).value;
    var number := LinkNumber(s[LINK].s).value;
    var suffix := LinkSuffix(s["project"].s, number);
    NumberDigits(s[LINK].s);
    NumberOfLink(Https(e), s["project"].s, number);
    SchemesDiffer(e, suffix, suffix);
    var s' := s[LINK := Text(Https(e) + suffix)];
    assert s' - {LINK} == s - {LINK};
    assert t.loads(t.dumps(s')) == Some(s');
  }

  lemma {:induction false} NumberDigits(link: string)
    requires LinkNumber(link).Some?
    ensures var ds := LinkNumber(link).value; ds != "" && forall i :: 0 <= i < |ds| ==> '0' <= ds[i] <= '9'
  {
    DigitsAre(if EndsWith(link, "\n") then link[..|link| - 1] else link);
  }

  lemma {:induction false} EnvDiffers(t: Tools, e: Endpoint, raw: File)
    requires ValidEndpoint(e) && EnvFeeds(t, e, raw) && EnvPart(t, e, raw).Some?
    ensures EnvPart(t, e, raw).value.after != Some(raw)
  {
    hide EnvPart, EnvFeeds, EnvOne;
    if EnvPart(t, e, raw).value.after.Some? { EnvAgain(t, e, raw); }
  }

  // ---------- The plan ----------

  type Path = string

  /** What there is to inspect: the configuration file, the repositories' configuration files with
      the names of their directories, and the workspaces' metadata files, each list in order. */
  datatype Site = Site(env: Path, repos: seq<(Path, string)>, states: seq<Path>)

  type Disk = map<Path, File>

  datatype Change = Change(path: Path, before: File, after: File)

  function RepoPaths(site: Site): seq<Path> {
    seq(|site.repos|, i requires 0 <= i < |site.repos| => site.repos[i].0)
  }

  function Paths(site: Site): seq<Path> { [site.env] + RepoPaths(site) + site.states }

  // The edits to the first `n` repositories, with their projects.
  function RepoParts(t: Tools, e: Endpoint, allowed: set<string>, site: Site, d: Disk, n: nat)
    : (r: Option<(seq<string>, seq<Option<File>>)>)
    requires n <= |site.repos|
    ensures r.Some? ==> |r.value.1| == n
  {
    if n == 0 then Some(([], [])) else
      var before := RepoParts(t, e, allowed, site, d, n - 1);
      var (path, name) := site.repos[n - 1];
      if before.None? || path !in d then None else
        var part := RepoPart(t, e, allowed, name, d[path]);
        if part.None? then None else Some((before.value.0 + [part.value.info], before.value.1 + [part.value.after]))
  }

  function StateParts(t: Tools, e: Endpoint, projects: seq<string>, site: Site, d: Disk, n: nat)
    : (r: Option<seq<Option<File>>>)
    requires n <= |site.states|
    ensures r.Some? ==> |r.value| == n
  {
    if n == 0 then Some([]) else
      var before := StateParts(t, e, projects, site, d, n - 1);
      var path := site.states[n - 1];
      if before.None? || path !in d then None else
        var part := StatePart(t, e, projects, path, d[path]);
        if part.None? then None else Some(before.value + [part.value.after])
  }

  const MAX_INVENTORY: nat := 512

  // What is to become of each file, in the order of `Paths`; none when the plan is refused.
  function Review(t: Tools, e: Endpoint, site: Site, d: Disk): (r: Option<seq<Option<File>>>)
    ensures r.Some? ==> |r.value| == |Paths(site)|
  {
    if site.env !in d || |site.repos| + |site.states| > MAX_INVENTORY then None else
      var env := EnvPart(t, e, d[site.env]);
      if env.None? then None else
        var repos := RepoParts(t, e, env.value.info, site, d, |site.repos|);
        if repos.None? then None else
          var states := StateParts(t, e, repos.value.0, site, d, |site.states|);
          if states.None? then None else Some([env.value.after] + repos.value.1 + states.value)
  }

  predicate OnDisk(site: Site, d: Disk) { forall k :: 0 <= k < |Paths(site)| ==> Paths(site)[k] in d }

  // The changes to the first `n` files.
  function Collected(paths: seq<Path>, d: Disk, afters: seq<Option<File>>, n: nat): seq<Change>
    requires n <= |afters| <= |paths| && forall k :: 0 <= k < n ==> paths[k] in d
  {
    if n == 0 then [] else
      Collected(paths, d, afters, n - 1) +
      (if afters[n - 1].Some? then [Change(paths[n - 1], d[paths[n - 1]], afters[n - 1].value)] else [])
  }

  // A plan with what it was built from; `outside` stands for the inspected refs, heads and status.
  datatype Plan = Plan(inputs: seq<File>, changes: seq<Change>, outside: int)

  function Contents(paths: seq<Path>, d: Disk): seq<File>
    requires forall k :: 0 <= k < |paths| ==> paths[k] in d
  {
    seq(|paths|, k requires 0 <= k < |paths| => d[paths[k]])
  }

  /** `build_plan`; none when it raises. */
  function BuildPlan(t: Tools, e: Endpoint, site: Site, d: Disk, outside: int): Option<Plan> {
    if !OnDisk(site, d) || Review(t, e, site, d).None? then None
    else
      var changes := Collected(Paths(site), d, Review(t, e, site, d).value, |Paths(site)|);
      Some(Plan(Contents(Paths(site), d), changes, outside))
  }

  ghost predicate DistinctPaths(paths: seq<Path>) {
    forall i, j :: 0 <= i < j < |paths| ==> paths[i] != paths[j]
  }

  lemma {:induction false} CollectedConcat(p: seq<Path>, q: seq<Path>, d: Disk, a: seq<Option<File>>,
                                           b: seq<Option<File>>, n: nat)
    requires |a| == |p| && n <= |b| <= |q|
    requires (forall k :: 0 <= k < |p| ==> p[k] in d) && forall k :: 0 <= k < n ==> q[k] in d
    ensures Collected(p + q, d, a + b, |p| + n) == Collected(p, d, a, |p|) + Collected(q, d, b, n)
  {
    if n > 0 {
      CollectedConcat(p, q, d, a, b, n - 1);
    } else {
      CollectedPart(p, q, d, a, b, |p|);
    }
  }

  lemma {:induction false} CollectedPart(p: seq<Path>, q: seq<Path>, d: Disk, a: seq<Option<File>>,
                                         b: seq<Option<File>>, n: nat)
    requires n <= |a| == |p| && |b| <= |q| && forall k :: 0 <= k < n ==> p[k] in d
    ensures Collected(p + q, d, a + b, n) == Collected(p, d, a, n)
  {
    if n > 0 { CollectedPart(p, q, d, a, b, n - 1); }
  }

  lemma {:induction false} CollectedNext(paths: seq<Path>, d: Disk, afters: seq<Option<File>>, more: Option<File>,
                                         n: nat)
    requires n == |afters| < |paths| && forall k :: 0 <= k <= n ==> paths[k] in d
    ensures Collected(paths, d, afters + [more], n + 1) ==
      Collected(paths, d, afters, n) + (if more.Some? then [Change(paths[n], d[paths[n]], more.value)] else [])
  {
    var cut := paths[..n];
    assert cut + paths[n..] == paths && afters + [] == afters;
    CollectedPart(cut, paths[n..], d, afters, [more], n);
    CollectedPart(cut, paths[n..], d, afters, [], n);
  }

  lemma {:induction false} RepoRefused(t: Tools, e: Endpoint, allowed: set<string>, site: Site, d: Disk, i: nat, n: nat)
    requires i <= n <= |site.repos| && RepoParts(t, e, allowed, site, d, i).None?
    ensures RepoParts(t, e, allowed, site, d, n).None?
  {
    if i < n { RepoRefused(t, e, allowed, site, d, i, n - 1); }
  }

  lemma {:induction false} StateRefused(t: Tools, e: Endpoint, projects: seq<string>, site: Site, d: Disk, i: nat,
                                        n: nat)
    requires i <= n <= |site.states| && StateParts(t, e, projects, site, d, i).None?
    ensures StateParts(t, e, projects, site, d, n).None?
  {
    if i < n { StateRefused(t, e, projects, site, d, i, n - 1); }
  }

  // The loop over the cached repositories.
  method InspectRepos(t: Tools, e: Endpoint, allowed: set<string>, site: Site, d: Disk)
    returns (ok: bool, projects: seq<string>, inputs: seq<File>, changes: seq<Change>, ghost afters: seq<Option<File>>)
    ensures ok ==>
      RepoParts(t, e, allowed, site, d, |site.repos|) == Some((projects, afters)) && |afters| == |site.repos|
    ensures ok ==> forall k :: 0 <= k < |site.repos| ==> RepoPaths(site)[k] in d
    ensures ok ==> inputs == Contents(RepoPaths(site), d)
    ensures ok ==> changes == Collected(RepoPaths(site), d, afters, |afters|)
    ensures !ok ==> RepoParts(t, e, allowed, site, d, |site.repos|).None?
  {
    hide RepoPart, Collected;
    ok, projects, inputs, changes, afters := false, [], [], [], [];
    CollectedNone(RepoPaths(site), d, []);
    for i := 0 to |site.repos|
      invariant RepoParts(t, e, allowed, site, d, i) == Some((projects, afters)) && |afters| == i
      invariant forall k :: 0 <= k < i ==> RepoPaths(site)[k] in d
      invariant |inputs| == i && forall k :: 0 <= k < i ==> inputs[k] == d[RepoPaths(site)[k]]
      invariant changes == Collected(RepoPaths(site), d, afters, i)
    {
      var (path, name) := site.repos[i];
      if path !in d || RepoPart(t, e, allowed, name, d[path]).None? {
        RepoRefused(t, e, allowed, site, d, i + 1, |site.repos|);
        return;
      }
      var part := RepoPart(t, e, allowed, name, d[path]).value;
      CollectedNext(RepoPaths(site), d, afters, part.after, i);
      projects, inputs, afters := projects + [part.info], inputs + [d[path]], afters + [part.after];
      if part.after.Some? { changes := changes + [Change(path, d[path], part.after.value)]; }
    }
    ok := true;
  }

  lemma CollectedNone(paths: seq<Path>, d: Disk, afters: seq<Option<File>>)
    requires |afters| <= |paths|
    ensures Collected(paths, d, afters, 0) == []
  {
  }

  // The loop over the workspaces' metadata.
  method InspectStates(t: Tools, e: Endpoint, projects: seq<string>, site: Site, d: Disk)
    returns (ok: bool, inputs: seq<File>, changes: seq<Change>, ghost afters: seq<Option<File>>)
    ensures ok ==> StateParts(t, e, projects, site, d, |site.states|) == Some(afters) && |afters| == |site.states|
    ensures ok ==> forall k :: 0 <= k < |site.states| ==> site.states[k] in d
    ensures ok ==> inputs == Contents(site.states, d)
    ensures ok ==> changes == Collected(site.states, d, afters, |afters|)
    ensures !ok ==> StateParts(t, e, projects, site, d, |site.states|).None?
  {
    hide StatePart, Collected;
    ok, inputs, changes, afters := false, [], [], [];
    CollectedNone(site.states, d, []);
    for i := 0 to |site.states|
      invariant StateParts(t, e, projects, site, d, i) == Some(afters) && |afters| == i
      invariant forall k :: 0 <= k < i ==> site.states[k] in d
      invariant |inputs| == i && forall k :: 0 <= k < i ==> inputs[k] == d[site.states[k]]
      invariant changes == Collected(site.states, d, afters, i)
    {
      var path := site.states[i];
      if path !in d || StatePart(t, e, projects, path, d[path]).None? {
        StateRefused(t, e, projects, site, d, i + 1, |site.states|);
        return;
      }
      var part := StatePart(t, e, projects, path, d[path]).value;
      CollectedNext(site.states, d, afters, part.after, i);
      inputs, afters := inputs + [d[path]], afters + [part.after];
      if part.after.Some? { changes := changes + [Change(path, d[path], part.after.value)]; }
    }
    ok := true;
  }

  /** `build_plan` as it runs: the files in turn, the changes appended as they are found. */
  method MakePlan(t: Tools, e: Endpoint, site: Site, d: Disk, outside: int) returns (r: Option<Plan>)
    ensures r == BuildPlan(t, e, site, d, outside)
    ensures ValidEndpoint(e) ==> (r.Some? <==> Plannable(t, e, site, d))
  {
    if ValidEndpoint(e) { PlannedExactlyWhen(t, e, site, d, outside); }
    ReviewSteps(t, e, site, d);
    Unreviewed(t, e, site, d, outside);
    hide *;
    if site.env !in d || |site.repos| + |site.states| > MAX_INVENTORY { return None; }
    var env := EnvPart(t, e, d[site.env]);
    if env.None? { return None; }
    var ok, projects, repoInputs, repoChanges, repos := InspectRepos(t, e, env.value.info, site, d);
    if !ok { return None; }
    var stateOk, stateInputs, stateChanges, states := InspectStates(t, e, projects, site, d);
    if !stateOk { return None; }
    var first := if env.value.after.Some? then [Change(site.env, d[site.env], env.value.after.value)] else [];
    r := Some(Plan([d[site.env]] + repoInputs + stateInputs, first + repoChanges + stateChanges, outside));
    PlanPieces(site, d, env.value.after, repos, states);
    Reviewed(t, e, site, d, outside, env.value.after, projects, repos, states);
  }

  lemma Unreviewed(t: Tools, e: Endpoint, site: Site, d: Disk, outside: int)
    ensures Review(t, e, site, d).None? ==> BuildPlan(t, e, site, d, outside) == None
  {
    hide Review;
  }

  lemma {:induction false} Reviewed(t: Tools, e: Endpoint, site: Site, d: Disk, outside: int, env: Option<File>,
                                    projects: seq<string>, repos: seq<Option<File>>, states: seq<Option<File>>)
    requires Review(t, e, site, d).Some? && OnDisk(site, d)
    requires EnvPart(t, e, d[site.env]).value.after == env
    requires RepoParts(t, e, EnvPart(t, e, d[site.env]).value.info, site, d, |site.repos|) == Some((projects, repos))
    requires StateParts(t, e, projects, site, d, |site.states|) == Some(states)
    requires |Paths(site)| == |[env] + repos + states|
    ensures BuildPlan(t, e, site, d, outside) ==
      Some(Plan(Contents(Paths(site), d), Collected(Paths(site), d, [env] + repos + states, |Paths(site)|), outside))
  {
    ReviewIs(t, e, site, d);
    hide Review, EnvPart, RepoParts, StateParts, Collected, Contents, Paths;
  }

  lemma {:induction false} PlanPieces(site: Site, d: Disk, env: Option<File>, repos: seq<Option<File>>,
                                      states: seq<Option<File>>)
    requires site.env in d && |repos| == |site.repos| && |states| == |site.states|
    requires forall k :: 0 <= k < |site.repos| ==> RepoPaths(site)[k] in d
    requires forall k :: 0 <= k < |site.states| ==> site.states[k] in d
    ensures OnDisk(site, d) && |Paths(site)| == |[env] + repos + states|
    ensures forall k :: 0 <= k < |Paths(site)| ==> Paths(site)[k] in d
    ensures Contents(Paths(site), d) == [d[site.env]] + Contents(RepoPaths(site), d) + Contents(site.states, d)
    ensures Collected(Paths(site), d, [env] + repos + states, |Paths(site)|) ==
      (if env.Some? then [Change(site.env, d[site.env], env.value)] else []) +
      Collected(RepoPaths(site), d, repos, |repos|) + Collected(site.states, d, states, |states|)
  {
    hide Collected, RepoPaths, Contents;
    var one: seq<Path> := [site.env];
    assert |RepoPaths(site)| == |site.repos| by { PathsAre(site); RepoCount(site); }
    OnDiskConcat(one, RepoPaths(site), d);
    OnDiskConcat(one + RepoPaths(site), site.states, d);
    ContentsConcat(one, RepoPaths(site), d);
    ContentsConcat(one + RepoPaths(site), site.states, d);
    CollectedConcat(one + RepoPaths(site), site.states, d, [env] + repos, states, |states|);
    CollectedConcat(one, RepoPaths(site), d, [env], repos, |repos|);
    OneCollected(site.env, d, env);
  }

  lemma RepoCount(site: Site)
    ensures |RepoPaths(site)| == |site.repos|
  {
  }

  lemma OnDiskConcat(p: seq<Path>, q: seq<Path>, d: Disk)
    requires (forall k :: 0 <= k < |p| ==> p[k] in d) && (forall k :: 0 <= k < |q| ==> q[k] in d)
    ensures forall k :: 0 <= k < |p + q| ==> (p + q)[k] in d
  {
  }

  lemma ContentsConcat(p: seq<Path>, q: seq<Path>, d: Disk)
    requires (forall k :: 0 <= k < |p| ==> p[k] in d) && (forall k :: 0 <= k < |q| ==> q[k] in d)
    ensures (forall k :: 0 <= k < |p + q| ==> (p + q)[k] in d) && Contents(p + q, d) == Contents(p, d) + Contents(q, d)
  {
  }

  lemma OneCollected(path: Path, d: Disk, after: Option<File>)
    requires path in d
    ensures Collected([path], d, [after], 1) == (if after.Some? then [Change(path, d[path], after.value)] else [])
    ensures Contents([path], d) == [d[path]]
  {
    assert Collected([path], d, [after], 0) == [];
  }

  // ---------- Planning on a partly changed disk ----------

  predicate MayHave(d: Disk, d': Disk, path: Path, after: Option<File>) {
    path in d && path in d' && (d'[path] == d[path] || after == Some(d'[path]))
  }

  // Some files already have their new content.
  ghost predicate Mixed(paths: seq<Path>, d: Disk, d': Disk, afters: seq<Option<File>>) {
    && |afters| == |paths|
    && forall k :: 0 <= k < |paths| ==> MayHave(d, d', paths[k], afters[k])
  }

  function LeftOf(d: Disk, d': Disk, path: Path, after: Option<File>): Option<File> {
    if path in d && path in d' && d'[path] == d[path] then after else None
  }

  function Left(paths: seq<Path>, d: Disk, d': Disk, afters: seq<Option<File>>): seq<Option<File>>
    requires |afters| == |paths|
  {
    seq(|paths|, k requires 0 <= k < |paths| => LeftOf(d, d', paths[k], afters[k]))
  }

  // A file with its new content can be read.
  predicate ReadableIfMade(d: Disk, d': Disk, path: Path) {
    path in d && path in d' && d'[path] != d[path] ==> Readable(d'[path])
  }

  lemma {:induction false} RepoPartsMixed(t: Tools, e: Endpoint, allowed: set<string>, site: Site, d: Disk, d': Disk,
                                          n: nat)
    requires Laws(t) && n <= |site.repos| && RepoParts(t, e, allowed, site, d, n).Some?
    requires forall i :: 0 <= i < n ==> MayHave(d, d', site.repos[i].0, RepoParts(t, e, allowed, site, d, n).value.1[i])
    ensures var r, r' := RepoParts(t, e, allowed, site, d, n).value, RepoParts(t, e, allowed, site, d', n);
      && r'.Some? && r'.value.0 == r.0
      && forall i :: 0 <= i < n ==>
           r'.value.1[i] == LeftOf(d, d', site.repos[i].0, r.1[i])
  {
    hide RepoPart, Laws;
    if n > 0 {
      var (path, name) := site.repos[n - 1];
      var r := RepoParts(t, e, allowed, site, d, n).value;
      forall i | 0 <= i < n - 1 ensures RepoParts(t, e, allowed, site, d, n - 1).value.1[i] == r.1[i] { }
      RepoPartsMixed(t, e, allowed, site, d, d', n - 1);
      if d'[path] != d[path] { RepoAgain(t, e, allowed, name, d[path]); }
    }
  }

  lemma {:induction false} StatePartsMixed(t: Tools, e: Endpoint, projects: seq<string>, site: Site, d: Disk, d': Disk,
                                           n: nat)
    requires Laws(t) && n <= |site.states| && StateParts(t, e, projects, site, d, n).Some?
    requires forall i :: 0 <= i < n ==> MayHave(d, d', site.states[i], StateParts(t, e, projects, site, d, n).value[i])
    requires forall i :: 0 <= i < n ==> ReadableIfMade(d, d', site.states[i])
    ensures var r, r' := StateParts(t, e, projects, site, d, n).value, StateParts(t, e, projects, site, d', n);
      && r'.Some?
      && forall i :: 0 <= i < n ==>
           r'.value[i] == LeftOf(d, d', site.states[i], r[i])
  {
    hide StatePart, Laws;
    if n > 0 {
      var path := site.states[n - 1];
      var r := StateParts(t, e, projects, site, d, n).value;
      forall i | 0 <= i < n - 1 ensures StateParts(t, e, projects, site, d, n - 1).value[i] == r[i] { }
      StatePartsMixed(t, e, projects, site, d, d', n - 1);
      if d'[path] != d[path] { StateAgain(t, e, projects, path, d[path]); }
    }
  }

  /** What a change must be like for planning to succeed once it is made: the new content can be read,
      and of the configuration file one line was rewritten. */
  predicate Survives(site: Site, c: Change) { Readable(c.after) && (c.path == site.env ==> EnvOne(c.before)) }

  predicate SurvivesIfMade(site: Site, d: Disk, d': Disk, path: Path) {
    path in d && path in d' && d'[path] != d[path] ==> Survives(site, Change(path, d[path], d'[path]))
  }

  lemma {:induction false} EnvMixed(t: Tools, e: Endpoint, site: Site, d: Disk, d': Disk)
    requires ValidEndpoint(e) && site.env in d && EnvFeeds(t, e, d[site.env]) && EnvPart(t, e, d[site.env]).Some?
    requires MayHave(d, d', site.env, EnvPart(t, e, d[site.env]).value.after) && SurvivesIfMade(site, d, d', site.env)
    ensures EnvPart(t, e, d'[site.env]) == Some(Part(EnvPart(t, e, d[site.env]).value.info,
                                                     LeftOf(d, d', site.env, EnvPart(t, e, d[site.env]).value.after)))
  {
    hide EnvPart, EnvFeeds, EnvOne, ValidEndpoint;
    if d'[site.env] != d[site.env] { EnvAgain(t, e, d[site.env]); }
  }

  // The lists of a plan, one after the other.
  lemma {:induction false} SlotsMixed(paths: seq<Path>, d: Disk, d': Disk, first: Option<File>, b: seq<Option<File>>,
                                      c: seq<Option<File>>, first': Option<File>, b': seq<Option<File>>,
                                      c': seq<Option<File>>)
    requires |paths| == 1 + |b| + |c| && |b'| == |b| && |c'| == |c|
    requires first' == LeftOf(d, d', paths[0], first)
    requires forall i :: 0 <= i < |b| ==> b'[i] == LeftOf(d, d', paths[1 + i], b[i])
    requires forall i :: 0 <= i < |c| ==> c'[i] == LeftOf(d, d', paths[1 + |b| + i], c[i])
    ensures [first'] + b' + c' == Left(paths, d, d', [first] + b + c)
  {
    hide LeftOf;
    var x, y := [first'] + b' + c', Left(paths, d, d', [first] + b + c);
    forall k | 0 <= k < |paths| ensures x[k] == y[k] {
      if 0 < k <= |b| { assert k == 1 + (k - 1); } else if k > |b| { assert k == 1 + |b| + (k - 1 - |b|); }
    }
  }

  // What a mixed disk holds for each list of files.
  lemma {:induction false} MixedAt(site: Site, d: Disk, d': Disk, first: Option<File>, b: seq<Option<File>>,
                                   c: seq<Option<File>>)
    requires |b| == |site.repos| && |c| == |site.states| && Mixed(Paths(site), d, d', [first] + b + c)
    requires forall k :: 0 <= k < |Paths(site)| ==> SurvivesIfMade(site, d, d', Paths(site)[k])
    ensures MayHave(d, d', site.env, first) && SurvivesIfMade(site, d, d', site.env)
    ensures forall i :: 0 <= i < |b| ==> MayHave(d, d', site.repos[i].0, b[i])
    ensures forall i :: 0 <= i < |c| ==> MayHave(d, d', site.states[i], c[i]) && ReadableIfMade(d, d', site.states[i])
  {
    hide MayHave, Paths, SurvivesIfMade, ReadableIfMade;
    var paths, afters := Paths(site), [first] + b + c;
    PathsAre(site);
    assert MayHave(d, d', paths[0], afters[0]) && SurvivesIfMade(site, d, d', paths[0]);
    forall i | 0 <= i < |b| ensures MayHave(d, d', site.repos[i].0, b[i]) {
      assert MayHave(d, d', paths[1 + i], afters[1 + i]);
    }
    forall i | 0 <= i < |c| ensures MayHave(d, d', site.states[i], c[i]) && ReadableIfMade(d, d', site.states[i]) {
      assert MayHave(d, d', paths[1 + |b| + i], afters[1 + |b| + i]);
      assert SurvivesIfMade(site, d, d', paths[1 + |b| + i]);
      SurvivesReadable(site, d, d', site.states[i]);
    }
  }

  lemma ReviewIs(t: Tools, e: Endpoint, site: Site, d: Disk)
    requires Review(t, e, site, d).Some?
    ensures site.env in d && EnvPart(t, e, d[site.env]).Some?
    ensures var env := EnvPart(t, e, d[site.env]).value;
      && RepoParts(t, e, env.info, site, d, |site.repos|).Some?
      && var repos := RepoParts(t, e, env.info, site, d, |site.repos|).value;
         StateParts(t, e, repos.0, site, d, |site.states|).Some? &&
         Review(t, e, site, d).value == [env.after] + repos.1 + StateParts(t, e, repos.0, site, d, |site.states|).value
  {
    hide EnvPart, RepoParts, StateParts;
  }

  lemma ReviewOf(t: Tools, e: Endpoint, site: Site, d: Disk, d': Disk)
    requires Review(t, e, site, d).Some? && site.env in d' && EnvPart(t, e, d'[site.env]).Some?
    requires RepoParts(t, e, EnvPart(t, e, d'[site.env]).value.info, site, d', |site.repos|).Some?
    requires var repos := RepoParts(t, e, EnvPart(t, e, d'[site.env]).value.info, site, d', |site.repos|).value;
      StateParts(t, e, repos.0, site, d', |site.states|).Some?
    ensures Review(t, e, site, d').Some?
  {
    hide EnvPart, RepoParts, StateParts;
  }

  /** On a disk where any of the changes are already made, and survive it, planning succeeds and finds
      exactly the others. */
  lemma {:induction false} ReviewMixed(t: Tools, e: Endpoint, site: Site, d: Disk, d': Disk)
    requires Laws(t) && ValidEndpoint(e) && Review(t, e, site, d).Some?
    requires Mixed(Paths(site), d, d', Review(t, e, site, d).value)
    requires EnvFeeds(t, e, d[site.env])
    requires forall k :: 0 <= k < |Paths(site)| ==> SurvivesIfMade(site, d, d', Paths(site)[k])
    ensures Review(t, e, site, d') == Some(Left(Paths(site), d, d', Review(t, e, site, d).value))
  {
    hide *;
    ReviewIs(t, e, site, d);
    var env := EnvPart(t, e, d[site.env]).value;
    var repos := RepoParts(t, e, env.info, site, d, |site.repos|).value;
    var states := StateParts(t, e, repos.0, site, d, |site.states|).value;
    MixedAt(site, d, d', env.after, repos.1, states);
    MayHaveIn(d, d', site.env, env.after);
    EnvMixed(t, e, site, d, d');
    RepoPartsMixed(t, e, env.info, site, d, d', |site.repos|);
    StatePartsMixed(t, e, repos.0, site, d, d', |site.states|);
    ReviewOf(t, e, site, d, d');
    ReviewIs(t, e, site, d');
    PathsAre(site);
    SlotsMixed(Paths(site), d, d', env.after, repos.1, states, EnvPart(t, e, d'[site.env]).value.after,
               RepoParts(t, e, env.info, site, d', |site.repos|).value.1,
               StateParts(t, e, repos.0, site, d', |site.states|).value);
  }

  lemma SurvivesReadable(site: Site, d: Disk, d': Disk, path: Path)
    requires SurvivesIfMade(site, d, d', path)
    ensures ReadableIfMade(d, d', path)
  {
  }

  lemma MayHaveIn(d: Disk, d': Disk, path: Path, after: Option<File>)
    requires MayHave(d, d', path, after)
    ensures path in d && path in d'
  {
  }

  lemma PathsAre(site: Site)
    ensures var paths := Paths(site);
      && |paths| == 1 + |site.repos| + |site.states| && paths[0] == site.env
      && (forall i :: 0 <= i < |site.repos| ==> paths[1 + i] == site.repos[i].0)
      && (forall i :: 0 <= i < |site.states| ==> paths[1 + |site.repos| + i] == site.states[i])
  {
  }

  // ---------- Making the changes in order ----------

  // The disk after the first `k` changes.
  function Applied(d: Disk, cs: seq<Change>, k: nat): Disk
    requires k <= |cs|
  {
    if k == 0 then d else Applied(d, cs, k - 1)[cs[k - 1].path := cs[k - 1].after]
  }

  lemma {:induction false} AppliedElse(d: Disk, cs: seq<Change>, k: nat, p: Path)
    requires k <= |cs| && p in d && forall i :: 0 <= i < k ==> cs[i].path != p
    ensures p in Applied(d, cs, k) && Applied(d, cs, k)[p] == d[p]
  {
    if k > 0 { AppliedElse(d, cs, k - 1, p); }
  }

  lemma {:induction false} AppliedAt(d: Disk, cs: seq<Change>, k: nat, i: nat)
    requires i < k <= |cs| && forall j :: i < j < k ==> cs[j].path != cs[i].path
    ensures cs[i].path in Applied(d, cs, k) && Applied(d, cs, k)[cs[i].path] == cs[i].after
  {
    if i < k - 1 { AppliedAt(d, cs, k - 1, i); }
  }

  // The files of a plan: distinct, and each on the disk.
  ghost predicate PathsOk(paths: seq<Path>, d: Disk, afters: seq<Option<File>>) {
    DistinctPaths(paths) && |afters| == |paths| && forall k :: 0 <= k < |paths| ==> paths[k] in d
  }

  lemma {:induction false} CollectedFrom(paths: seq<Path>, d: Disk, afters: seq<Option<File>>, n: nat, i: nat)
    returns (k: nat)
    requires PathsOk(paths, d, afters) && n <= |paths| && i < |Collected(paths, d, afters, n)|
    ensures k < n && FromFile(paths, d, afters, k, Collected(paths, d, afters, n)[i])
  {
    if i < |Collected(paths, d, afters, n - 1)| { k := CollectedFrom(paths, d, afters, n - 1, i); } else { k := n - 1; }
  }

  predicate FromFile(paths: seq<Path>, d: Disk, afters: seq<Option<File>>, k: int, c: Change)
    requires |afters| == |paths|
  {
    0 <= k < |paths| && paths[k] in d && c.path == paths[k] && c.before == d[paths[k]] && afters[k] == Some(c.after)
  }

  // Changes are to different files, as those now are.
  ghost predicate GoodChanges(d: Disk, cs: seq<Change>) {
    && (forall i :: 0 <= i < |cs| ==> cs[i].path in d && cs[i].before == d[cs[i].path])
    && (forall i, j :: 0 <= i < j < |cs| ==> cs[i].path != cs[j].path)
  }

  lemma {:induction false} CollectedGood(paths: seq<Path>, d: Disk, afters: seq<Option<File>>, n: nat)
    requires PathsOk(paths, d, afters) && n <= |paths|
    ensures GoodChanges(d, Collected(paths, d, afters, n))
  {
    if n > 0 {
      var before, cs := Collected(paths, d, afters, n - 1), Collected(paths, d, afters, n);
      CollectedGood(paths, d, afters, n - 1);
      forall i | 0 <= i < |before| ensures before[i].path != paths[n - 1] {
        var k := CollectedFrom(paths, d, afters, n - 1, i);
      }
      assert forall i :: 0 <= i < |before| ==> cs[i] == before[i];
    }
  }

  // Where the change to file `k`, if any, stands in the list.
  lemma {:induction false} CollectedAt(paths: seq<Path>, d: Disk, afters: seq<Option<File>>, k: nat, n: nat)
    requires PathsOk(paths, d, afters) && k < n <= |paths|
    ensures var q, cs := |Collected(paths, d, afters, k)|, Collected(paths, d, afters, n);
      && q <= |cs| && cs[..q] == Collected(paths, d, afters, k)
      && (afters[k].Some? ==> q < |cs| && cs[q] == Change(paths[k], d[paths[k]], afters[k].value))
  {
    if k < n - 1 { CollectedAt(paths, d, afters, k, n - 1); }
  }

  lemma {:induction false} ValueAfter(paths: seq<Path>, d: Disk, afters: seq<Option<File>>, j: nat, k: nat)
    requires PathsOk(paths, d, afters) && k < |paths| && j <= |Collected(paths, d, afters, |paths|)|
    ensures var d' := Applied(d, Collected(paths, d, afters, |paths|), j);
      && MayHave(d, d', paths[k], afters[k])
      && (|Collected(paths, d, afters, k)| >= j ==> d'[paths[k]] == d[paths[k]])
      && (|Collected(paths, d, afters, k)| < j && afters[k].Some? ==> afters[k] == Some(d'[paths[k]]))
  {
    var cs, q := Collected(paths, d, afters, |paths|), |Collected(paths, d, afters, k)|;
    CollectedGood(paths, d, afters, |paths|);
    CollectedAt(paths, d, afters, k, |paths|);
    if afters[k].Some? && q < j {
      AppliedAt(d, cs, j, q);
    } else {
      forall i | 0 <= i < j ensures cs[i].path != paths[k] {
        var m := CollectedFrom(paths, d, afters, |paths|, i);
        if m == k && afters[k].Some? { assert i == q || cs[i].path != cs[q].path; }
      }
      AppliedElse(d, cs, j, paths[k]);
    }
  }

  // Every listed change changes something.
  ghost predicate RealEdits(paths: seq<Path>, d: Disk, afters: seq<Option<File>>)
    requires PathsOk(paths, d, afters)
  {
    forall k :: 0 <= k < |paths| ==> afters[k] != Some(d[paths[k]])
  }

  // After `j` changes, the changes left to collect are the others, in order.
  lemma {:induction false} CollectedLeft(paths: seq<Path>, d: Disk, afters: seq<Option<File>>, j: nat, n: nat)
    requires PathsOk(paths, d, afters) && RealEdits(paths, d, afters) && n <= |paths|
    requires j <= |Collected(paths, d, afters, |paths|)|
    ensures var d', c := Applied(d, Collected(paths, d, afters, |paths|), j), Collected(paths, d, afters, n);
      && PathsOk(paths, d', Left(paths, d, d', afters))
      && Collected(paths, d', Left(paths, d, d', afters), n) == c[if j <= |c| then j else |c|..]
  {
    var cs := Collected(paths, d, afters, |paths|);
    var d' := Applied(d, cs, j);
    forall k | 0 <= k < |paths| ensures paths[k] in d' { ValueAfter(paths, d, afters, j, k); }
    if n > 0 {
      CollectedLeft(paths, d, afters, j, n - 1);
      ValueAfter(paths, d, afters, j, n - 1);
    }
  }

  // ---------- Planning again ----------

  lemma {:induction false} RepoEdits(t: Tools, e: Endpoint, allowed: set<string>, site: Site, d: Disk, n: nat, i: nat)
    requires Laws(t) && i < n <= |site.repos| && RepoParts(t, e, allowed, site, d, n).Some?
    ensures site.repos[i].0 in d && RepoParts(t, e, allowed, site, d, n).value.1[i] != Some(d[site.repos[i].0])
  {
    hide RepoPart, Laws;
    if i < n - 1 {
      RepoEdits(t, e, allowed, site, d, n - 1, i);
    } else {
      var (path, name) := site.repos[i];
      if RepoPart(t, e, allowed, name, d[path]).value.after.Some? { RepoAgain(t, e, allowed, name, d[path]); }
    }
  }

  lemma {:induction false} StateEdits(t: Tools, e: Endpoint, projects: seq<string>, site: Site, d: Disk, n: nat, i: nat)
    requires Laws(t) && i < n <= |site.states| && StateParts(t, e, projects, site, d, n).Some?
    ensures site.states[i] in d && StateParts(t, e, projects, site, d, n).value[i] != Some(d[site.states[i]])
  {
    hide StatePart, Laws;
    if i < n - 1 {
      StateEdits(t, e, projects, site, d, n - 1, i);
    } else {
      var path := site.states[i];
      if StatePart(t, e, projects, path, d[path]).value.after.Some? { StateAgain(t, e, projects, path, d[path]); }
    }
  }

  lemma {:induction false} ReviewEdits(t: Tools, e: Endpoint, site: Site, d: Disk)
    requires Laws(t) && ValidEndpoint(e) && DistinctPaths(Paths(site)) && Review(t, e, site, d).Some?
    requires OnDisk(site, d) && EnvFeeds(t, e, d[site.env])
    ensures PathsOk(Paths(site), d, Review(t, e, site, d).value) &&
      RealEdits(Paths(site), d, Review(t, e, site, d).value)
  {
    hide EnvPart, Laws, EnvFeeds, RepoParts, StateParts, ValidEndpoint, Paths, DistinctPaths;
    var paths, afters := Paths(site), Review(t, e, site, d).value;
    var env := EnvPart(t, e, d[site.env]).value;
    var repos := RepoParts(t, e, env.info, site, d, |site.repos|).value;
    var r := |site.repos|;
    PathsAre(site);
    EnvDiffers(t, e, d[site.env]);
    forall k | 0 <= k < |paths| ensures afters[k] != Some(d[paths[k]]) {
      if 0 < k <= r {
        RepoEdits(t, e, env.info, site, d, r, k - 1);
        assert paths[1 + (k - 1)] == site.repos[k - 1].0;
      } else if k > r {
        StateEdits(t, e, repos.0, site, d, |site.states|, k - 1 - r);
        assert paths[1 + r + (k - 1 - r)] == site.states[k - 1 - r];
      }
    }
  }

  /** What the migration asks of its surroundings: the tools' laws, distinct files, and a
      configuration file with LF or CRLF lines. */
  ghost predicate Ready(t: Tools, e: Endpoint, site: Site, d: Disk) {
    && Laws(t) && ValidEndpoint(e) && DistinctPaths(Paths(site))
    && (site.env in d ==> EnvFeeds(t, e, d[site.env]))
  }

  lemma {:induction false} MixedAfter(paths: seq<Path>, d: Disk, afters: seq<Option<File>>, j: nat)
    requires PathsOk(paths, d, afters) && j <= |Collected(paths, d, afters, |paths|)|
    ensures Mixed(paths, d, Applied(d, Collected(paths, d, afters, |paths|), j), afters)
  {
    hide MayHave, Collected, Applied;
    var d' := Applied(d, Collected(paths, d, afters, |paths|), j);
    forall k | 0 <= k < |paths| ensures MayHave(d, d', paths[k], afters[k]) { ValueAfter(paths, d, afters, j, k); }
  }

  lemma MixedOnDisk(site: Site, d: Disk, d': Disk, afters: seq<Option<File>>)
    requires Mixed(Paths(site), d, d', afters)
    ensures OnDisk(site, d')
  {
  }

  ghost predicate AllSurvive(site: Site, cs: seq<Change>, n: nat)
    requires n <= |cs|
  {
    forall i :: 0 <= i < n ==> Survives(site, cs[i])
  }

  /** Forward recovery, the planning half: after the first `j` of a plan's changes, planning succeeds
      exactly when each of these survives it, and then finds exactly the changes that are left. */
  lemma {:induction false} Resume(t: Tools, e: Endpoint, site: Site, d: Disk, outside: int, j: nat)
    requires Ready(t, e, site, d) && BuildPlan(t, e, site, d, outside).Some?
    requires j <= |BuildPlan(t, e, site, d, outside).value.changes|
    ensures var cs := BuildPlan(t, e, site, d, outside).value.changes;
      var d' := Applied(d, cs, j);
      && OnDisk(site, d') && Ready(t, e, site, d')
      && BuildPlan(t, e, site, d', outside) ==
           if AllSurvive(site, cs, j) then Some(Plan(Contents(Paths(site), d'), cs[j..], outside)) else None
  {
    hide Laws, ValidEndpoint, EnvFeeds, Review, Paths, DistinctPaths, Mixed, Collected, Applied, Left, OnDisk,
      RealEdits, Survives, SurvivesIfMade;
    var paths, afters := Paths(site), Review(t, e, site, d).value;
    EnvOnDisk(site, d);
    var cs := Collected(paths, d, afters, |paths|);
    var d' := Applied(d, cs, j);
    PathsAre(site);
    ReviewEdits(t, e, site, d);
    MixedAfter(paths, d, afters, j);
    MixedOnDisk(site, d, d', afters);
    if AllSurvive(site, cs, j) {
      forall k | 0 <= k < |paths| ensures SurvivesIfMade(site, d, d', paths[k]) {
        MadeSurvives(site, paths, d, afters, j, k);
      }
      ReviewMixed(t, e, site, d, d');
      CollectedLeft(paths, d, afters, j, |paths|);
    } else {
      var i :| 0 <= i < j && !Survives(site, cs[i]);
      CollectedGood(paths, d, afters, |paths|);
      GoodApplied(d, cs, j, i);
      DeadEnd(t, e, site, d, outside, d', i);
    }
    EnvStaysFed(t, e, site, d, d');
  }

  lemma {:induction false} MadeSurvives(site: Site, paths: seq<Path>, d: Disk, afters: seq<Option<File>>, j: nat,
                                        k: nat)
    requires PathsOk(paths, d, afters) && k < |paths| && j <= |Collected(paths, d, afters, |paths|)|
    requires AllSurvive(site, Collected(paths, d, afters, |paths|), j)
    ensures SurvivesIfMade(site, d, Applied(d, Collected(paths, d, afters, |paths|), j), paths[k])
  {
    hide Survives, Collected, Applied;
    var cs, q := Collected(paths, d, afters, |paths|), |Collected(paths, d, afters, k)|;
    ValueAfter(paths, d, afters, j, k);
    CollectedAt(paths, d, afters, k, |paths|);
    if afters[k].Some? && q < j { assert Survives(site, cs[q]); }
  }

  lemma {:induction false} GoodApplied(d: Disk, cs: seq<Change>, j: nat, i: nat)
    requires GoodChanges(d, cs) && i < j <= |cs|
    ensures cs[i].path in Applied(d, cs, j) && Applied(d, cs, j)[cs[i].path] == cs[i].after
  {
    AppliedAt(d, cs, j, i);
  }

  lemma EnvOnDisk(site: Site, d: Disk)
    requires OnDisk(site, d)
    ensures site.env in d && forall k :: 0 <= k < |Paths(site)| ==> Paths(site)[k] in d
  {
    assert Paths(site)[0] == site.env;
  }

  lemma {:induction false} EnvStaysFed(t: Tools, e: Endpoint, site: Site, d: Disk, d': Disk)
    requires ValidEndpoint(e) && Review(t, e, site, d).Some? && EnvFeeds(t, e, d[site.env])
    requires Mixed(Paths(site), d, d', Review(t, e, site, d).value)
    ensures site.env in d' && EnvFeeds(t, e, d'[site.env])
  {
    hide EnvPart, RepoParts, StateParts, ValidEndpoint, Paths, FeedsOnly, EnvOne;
    PathsAre(site);
    var afters := Review(t, e, site, d).value;
    assert MayHave(d, d', Paths(site)[0], afters[0]);
    if d'[site.env] != d[site.env] { EnvAgain(t, e, d[site.env]); }
  }

  lemma {:induction false} RepoTooLong(t: Tools, e: Endpoint, allowed: set<string>, site: Site, d: Disk, n: nat, i: nat)
    requires i < n <= |site.repos| && site.repos[i].0 in d && !Readable(d[site.repos[i].0])
    ensures RepoParts(t, e, allowed, site, d, n).None?
  {
    RepoUnread(t, e, allowed, site.repos[i].1, d[site.repos[i].0]);
    hide RepoPart, Readable;
    if i < n - 1 { RepoTooLong(t, e, allowed, site, d, n - 1, i); }
  }

  lemma RepoUnread(t: Tools, e: Endpoint, allowed: set<string>, name: string, raw: File)
    requires !Readable(raw)
    ensures RepoPart(t, e, allowed, name, raw).None?
  {
  }

  lemma StateUnread(t: Tools, e: Endpoint, projects: seq<string>, path: Path, raw: File)
    requires !Readable(raw)
    ensures StatePart(t, e, projects, path, raw).None?
  {
  }

  lemma {:induction false} StateTooLong(t: Tools, e: Endpoint, projects: seq<string>, site: Site, d: Disk, n: nat,
                                        i: nat)
    requires i < n <= |site.states| && site.states[i] in d && !Readable(d[site.states[i]])
    ensures StateParts(t, e, projects, site, d, n).None?
  {
    StateUnread(t, e, projects, site.states[i], d[site.states[i]]);
    hide StatePart, Readable;
    if i < n - 1 { StateTooLong(t, e, projects, site, d, n - 1, i); }
  }

  // A file that is too long makes planning fail, whichever it is.
  lemma {:induction false} TooLongRefused(t: Tools, e: Endpoint, site: Site, d: Disk, k: nat)
    requires OnDisk(site, d) && k < |Paths(site)| && !Readable(d[Paths(site)[k]])
    ensures Review(t, e, site, d).None?
  {
    hide EnvPart, RepoParts, StateParts, Paths, Readable;
    PathsAre(site);
    EnvOnDisk(site, d);
    var r := |site.repos|;
    if k == 0 {
      EnvTooLong(t, e, d[site.env]);
    } else if EnvPart(t, e, d[site.env]).Some? {
      var allowed := EnvPart(t, e, d[site.env]).value.info;
      if k <= r {
        assert Paths(site)[1 + (k - 1)] == site.repos[k - 1].0;
        RepoTooLong(t, e, allowed, site, d, r, k - 1);
      } else if RepoParts(t, e, allowed, site, d, r).Some? {
        assert Paths(site)[1 + r + (k - 1 - r)] == site.states[k - 1 - r];
        StateTooLong(t, e, RepoParts(t, e, allowed, site, d, r).value.0, site, d, |site.states|, k - 1 - r);
      }
    }
  }

  lemma EnvTooLong(t: Tools, e: Endpoint, raw: File)
    requires !Readable(raw)
    ensures EnvPart(t, e, raw).None?
  {
  }

  /** A change that does not survive is a dead end: with it made, no plan can be built, whatever else is
      on the disk. */
  lemma {:induction false} DeadEnd(t: Tools, e: Endpoint, site: Site, d: Disk, outside: int, d': Disk, i: nat)
    requires Ready(t, e, site, d) && BuildPlan(t, e, site, d, outside).Some?
    requires i < |BuildPlan(t, e, site, d, outside).value.changes|
    requires var c := BuildPlan(t, e, site, d, outside).value.changes[i];
      !Survives(site, c) && c.path in d' && d'[c.path] == c.after
    ensures BuildPlan(t, e, site, d', outside) == None
  {
    hide Laws, ValidEndpoint, EnvFeeds, Review, Paths, DistinctPaths, Collected, OnDisk, EnvOne, EnvPart;
    if OnDisk(site, d') {
      var paths, afters := Paths(site), Review(t, e, site, d).value;
      EnvOnDisk(site, d);
      EnvOnDisk(site, d');
      ReviewEdits(t, e, site, d);
      var k := CollectedFrom(paths, d, afters, |paths|, i);
      PathsAre(site);
      if Readable(d'[paths[k]]) {
        ReviewStart(t, e, site, d);
        SameSlot(paths, k, 0);
        EnvAgain(t, e, d[site.env]);
        ReviewStart(t, e, site, d');
      } else {
        TooLongRefused(t, e, site, d', k);
      }
    }
  }

  lemma SameSlot(paths: seq<Path>, k: nat, j: nat)
    requires DistinctPaths(paths) && k < |paths| && j < |paths| && paths[k] == paths[j]
    ensures k == j
  {
  }

  lemma ReviewStart(t: Tools, e: Endpoint, site: Site, d: Disk)
    requires site.env in d
    ensures Review(t, e, site, d).Some? ==>
      EnvPart(t, e, d[site.env]).Some? && Review(t, e, site, d).value[0] == EnvPart(t, e, d[site.env]).value.after
  {
  }

  lemma {:induction false} AppliedMore(d: Disk, cs: seq<Change>, j: nat, m: nat)
    requires j + m <= |cs|
    ensures Applied(Applied(d, cs, j), cs[j..], m) == Applied(d, cs, j + m)
  {
    if m > 0 {
      AppliedMore(d, cs, j, m - 1);
      assert cs[j..][m - 1] == cs[j + m - 1];
    }
  }

  // ---------- What a plan without changes means ----------

  predicate Under(base: string, url: string) { base + "/" <= url }

  predicate EnvUpgraded(e: Endpoint, raw: File) {
    EnvText(raw).Some? &&
    var data := EnvData(EnvText(raw).value);
    data.Some? && KEY in data.value && TrimSlashes(data.value[KEY]) == Https(e)
  }

  predicate RepoUpgraded(t: Tools, e: Endpoint, raw: File) {
    t.gitRead(raw).Some? && |t.gitRead(raw).value.origins| == 1 &&
    forall u :: u in t.gitRead(raw).value.origins + t.gitRead(raw).value.pushes ==> Under(Https(e), u)
  }

  predicate StateUpgraded(t: Tools, e: Endpoint, raw: File) {
    t.loads(raw).Some? &&
    var s := t.loads(raw).value;
    LINK in s && !s[LINK].Null? ==> s[LINK].Text? && Under(Https(e), s[LINK].s)
  }

  lemma {:induction false} UpgradeMoves(e: Endpoint, url: string, suffix: string)
    requires Upgrade(e, url, suffix).Some? && suffix != "" && suffix[0] == '/'
    ensures Upgrade(e, url, suffix) == Some(Https(e) + suffix) && Under(Https(e), Https(e) + suffix)
    ensures url == Http(e) + suffix || url == Https(e) + suffix
    ensures Under(Https(e), url) <==> url == Https(e) + suffix
  {
    assert (Https(e) + suffix)[..|Https(e)| + 1] == Https(e) + "/";
    SchemesDiffer(e, suffix, "/");
  }

  /** A repository's edit changes the scheme of its endpoints and nothing else that Git reads; a
      repository without one is already upgraded. */
  lemma {:induction false} RepoEdit(t: Tools, e: Endpoint, allowed: set<string>, name: string, raw: File)
    requires Laws(t) && RepoPart(t, e, allowed, name, raw).Some?
    ensures var part := RepoPart(t, e, allowed, name, raw).value;
      var v, url := t.gitRead(raw).value, Https(e) + GitSuffix(part.info);
      && (part.after.None? <==> RepoUpgraded(t, e, raw))
      && (part.after.Some? ==> RepoUpgraded(t, e, part.after.value))
      && (part.after.Some? ==>
            t.gitRead(part.after.value) == Some(v.(origins := [url], pushes := if v.pushes == [] then [] else [url])))
  {
    hide ProjectFor;
    var v := t.gitRead(raw).value;
    var p := ProjectFor(e, v.origins[0]).value;
    UpgradeMoves(e, v.origins[0], GitSuffix(p));
    if v.pushes != [] { UpgradeMoves(e, v.pushes[0], GitSuffix(p)); }
    var push := if v.pushes == [] then None else Upgrade(e, v.pushes[0], GitSuffix(p));
    assert t.gitRead(t.gitWrite(raw, Https(e) + GitSuffix(p), push)) == Some(Edited(v, Https(e) + GitSuffix(p), push));
  }

  /** A workspace's edit changes the scheme of its saved link and no other field. */
  lemma {:induction false} StateEdit(t: Tools, e: Endpoint, projects: seq<string>, path: string, raw: File)
    requires Laws(t) && StatePart(t, e, projects, path, raw).Some?
    ensures var after, s := StatePart(t, e, projects, path, raw).value.after, t.loads(raw).value;
      && (after.None? <==> StateUpgraded(t, e, raw))
      && (after.Some? ==> StateUpgraded(t, e, after.value) && LINK in s && s[LINK].Text?)
      && (after.Some? ==> exists suffix ::
            s[LINK].s == Http(e) + suffix && t.loads(after.value) == Some(s[LINK := Text(Https(e) + suffix)]))
  {
    hide LinkNumber;
    var s := t.loads(raw).value;
    if LINK in s && s[LINK].Text? {
      var number := LinkNumber(s[LINK].s).value;
      var suffix := LinkSuffix(s["project"].s, number);
      UpgradeMoves(e, s[LINK].s, suffix);
      assert t.loads(t.dumps(s[LINK := Text(Https(e) + suffix)])) == Some(s[LINK := Text(Https(e) + suffix)]);
    }
  }

  lemma {:induction false} NoneCollected(paths: seq<Path>, d: Disk, afters: seq<Option<File>>, n: nat, k: nat)
    requires k < n <= |afters| <= |paths| && (forall j :: 0 <= j < n ==> paths[j] in d)
    requires Collected(paths, d, afters, n) == []
    ensures afters[k] == None
  {
    if k < n - 1 { NoneCollected(paths, d, afters, n - 1, k); }
  }

  lemma {:induction false} RepoPartAt(t: Tools, e: Endpoint, allowed: set<string>, site: Site, d: Disk, n: nat, i: nat)
    requires i < n <= |site.repos| && RepoParts(t, e, allowed, site, d, n).Some?
    ensures var (path, name) := site.repos[i];
      path in d && RepoPart(t, e, allowed, name, d[path]).Some? &&
      RepoParts(t, e, allowed, site, d, n).value.1[i] == RepoPart(t, e, allowed, name, d[path]).value.after
  {
    hide RepoPart;
    if i < n - 1 { RepoPartAt(t, e, allowed, site, d, n - 1, i); }
  }

  lemma {:induction false} StatePartAt(t: Tools, e: Endpoint, projects: seq<string>, site: Site, d: Disk, n: nat,
                                       i: nat)
    requires i < n <= |site.states| && StateParts(t, e, projects, site, d, n).Some?
    ensures site.states[i] in d && StatePart(t, e, projects, site.states[i], d[site.states[i]]).Some?
    ensures StateParts(t, e, projects, site, d, n).value[i] ==
      StatePart(t, e, projects, site.states[i], d[site.states[i]]).value.after
  {
    hide StatePart;
    if i < n - 1 { StatePartAt(t, e, projects, site, d, n - 1, i); }
  }

  lemma {:induction false} EnvDone(t: Tools, e: Endpoint, raw: File)
    requires ValidEndpoint(e) && EnvPart(t, e, raw).Some?
    ensures EnvPart(t, e, raw).value.after.None? <==> EnvUpgraded(e, raw)
  {
    hide EnvData, RewriteEnv, EnvText;
    HttpsPlain(e);
    TrimPlain(Https(e));
  }

  /** When a plan has no changes, every endpoint it covers is the HTTPS one. */
  lemma {:induction false} NoChangesMeansUpgraded(t: Tools, e: Endpoint, site: Site, d: Disk, outside: int)
    requires Laws(t) && ValidEndpoint(e)
    requires BuildPlan(t, e, site, d, outside).Some? && BuildPlan(t, e, site, d, outside).value.changes == []
    ensures site.env in d && EnvUpgraded(e, d[site.env])
    ensures forall i :: 0 <= i < |site.repos| ==> site.repos[i].0 in d && RepoUpgraded(t, e, d[site.repos[i].0])
    ensures forall i :: 0 <= i < |site.states| ==> site.states[i] in d && StateUpgraded(t, e, d[site.states[i]])
  {
    hide EnvPart, RepoPart, StatePart, Laws, ValidEndpoint, RepoParts, StateParts, Collected, Paths, EnvUpgraded,
      RepoUpgraded, StateUpgraded;
    var paths, afters := Paths(site), Review(t, e, site, d).value;
    EnvOnDisk(site, d);
    PathsAre(site);
    var env := EnvPart(t, e, d[site.env]).value;
    var repos := RepoParts(t, e, env.info, site, d, |site.repos|).value;
    var states := StateParts(t, e, repos.0, site, d, |site.states|).value;
    assert afters == [env.after] + repos.1 + states;
    NoneCollected(paths, d, afters, |paths|, 0);
    EnvDone(t, e, d[site.env]);
    forall i | 0 <= i < |site.repos| ensures site.repos[i].0 in d && RepoUpgraded(t, e, d[site.repos[i].0]) {
      RepoPartAt(t, e, env.info, site, d, |site.repos|, i);
      NoneCollected(paths, d, afters, |paths|, 1 + i);
      RepoEdit(t, e, env.info, site.repos[i].1, d[site.repos[i].0]);
    }
    forall i | 0 <= i < |site.states| ensures site.states[i] in d && StateUpgraded(t, e, d[site.states[i]]) {
      StatePartAt(t, e, repos.0, site, d, |site.states|, i);
      NoneCollected(paths, d, afters, |paths|, 1 + |site.repos| + i);
      StateEdit(t, e, repos.0, site.states[i], d[site.states[i]]);
    }
  }

  /** Where the configuration file is edited, its change comes first, and survives exactly when one line
      was rewritten and the result can be read. */
  lemma {:induction false} EnvChangeFirst(t: Tools, e: Endpoint, site: Site, d: Disk, outside: int)
    requires BuildPlan(t, e, site, d, outside).Some? && site.env in d
    requires EnvPart(t, e, d[site.env]).Some? && EnvPart(t, e, d[site.env]).value.after.Some?
    ensures var after, cs := EnvPart(t, e, d[site.env]).value.after.value,
      BuildPlan(t, e, site, d, outside).value.changes;
      && cs != [] && cs[0] == Change(site.env, d[site.env], after)
      && (AllSurvive(site, cs, |cs|) ==> EnvOne(d[site.env]) && Readable(after))
  {
    hide EnvPart, RepoParts, StateParts, EnvOne, Paths;
    var paths, afters := Paths(site), Review(t, e, site, d).value;
    PathsAre(site);
    EnvOnDisk(site, d);
    FirstCollected(paths, d, afters, |paths|);
  }

  lemma {:induction false} FirstCollected(paths: seq<Path>, d: Disk, afters: seq<Option<File>>, n: nat)
    requires 0 < n <= |afters| <= |paths| && (forall k :: 0 <= k < n ==> paths[k] in d) && afters[0].Some?
    ensures Collected(paths, d, afters, n) != []
    ensures Collected(paths, d, afters, n)[0] == Change(paths[0], d[paths[0]], afters[0].value)
  {
    if n > 1 { FirstCollected(paths, d, afters, n - 1); } else { assert Collected(paths, d, afters, 0) == []; }
  }

  ghost predicate HasChange(cs: seq<Change>, path: Path) { exists j :: 0 <= j < |cs| && cs[j].path == path }

  /** A plan has a change for a file exactly when the file is not yet upgraded. */
  lemma {:induction false} ChangedExactlyWhen(t: Tools, e: Endpoint, site: Site, d: Disk, outside: int)
    requires Laws(t) && ValidEndpoint(e) && DistinctPaths(Paths(site))
    requires BuildPlan(t, e, site, d, outside).Some?
    ensures var cs := BuildPlan(t, e, site, d, outside).value.changes;
      && site.env in d && (HasChange(cs, site.env) <==> !EnvUpgraded(e, d[site.env]))
      && (forall i :: 0 <= i < |site.repos| ==>
            site.repos[i].0 in d && (HasChange(cs, site.repos[i].0) <==> !RepoUpgraded(t, e, d[site.repos[i].0])))
      && (forall i :: 0 <= i < |site.states| ==>
            site.states[i] in d && (HasChange(cs, site.states[i]) <==> !StateUpgraded(t, e, d[site.states[i]])))
  {
    hide EnvPart, RepoPart, StatePart, Laws, ValidEndpoint, RepoParts, StateParts, Collected, Paths, EnvUpgraded,
      RepoUpgraded, StateUpgraded, DistinctPaths, HasChange;
    var paths, afters := Paths(site), Review(t, e, site, d).value;
    EnvOnDisk(site, d);
    PathsAre(site);
    ReviewIs(t, e, site, d);
    var env := EnvPart(t, e, d[site.env]).value;
    var repos := RepoParts(t, e, env.info, site, d, |site.repos|).value;
    var states := StateParts(t, e, repos.0, site, d, |site.states|).value;
    CollectedHas(paths, d, afters, 0);
    EnvDone(t, e, d[site.env]);
    forall i | 0 <= i < |site.repos|
      ensures site.repos[i].0 in d &&
        (HasChange(Collected(paths, d, afters, |paths|), site.repos[i].0) <==> !RepoUpgraded(t, e, d[site.repos[i].0]))
    {
      RepoPartAt(t, e, env.info, site, d, |site.repos|, i);
      CollectedHas(paths, d, afters, 1 + i);
      RepoEdit(t, e, env.info, site.repos[i].1, d[site.repos[i].0]);
    }
    forall i | 0 <= i < |site.states|
      ensures site.states[i] in d &&
        (HasChange(Collected(paths, d, afters, |paths|), site.states[i]) <==> !StateUpgraded(t, e, d[site.states[i]]))
    {
      StatePartAt(t, e, repos.0, site, d, |site.states|, i);
      CollectedHas(paths, d, afters, 1 + |site.repos| + i);
      StateEdit(t, e, repos.0, site.states[i], d[site.states[i]]);
    }
  }

  lemma {:induction false} CollectedHas(paths: seq<Path>, d: Disk, afters: seq<Option<File>>, k: nat)
    requires k < |paths| == |afters| && DistinctPaths(paths) && forall j :: 0 <= j < |paths| ==> paths[j] in d
    ensures HasChange(Collected(paths, d, afters, |paths|), paths[k]) <==> afters[k].Some?
  {
    CollectedHasUpTo(paths, d, afters, |paths|, k);
  }

  lemma {:induction false} CollectedHasUpTo(paths: seq<Path>, d: Disk, afters: seq<Option<File>>, n: nat, k: nat)
    requires n <= |paths| == |afters| && k < |paths|
    requires DistinctPaths(paths) && forall j :: 0 <= j < |paths| ==> paths[j] in d
    ensures HasChange(Collected(paths, d, afters, n), paths[k]) <==> k < n && afters[k].Some?
  {
    if n > 0 {
      CollectedHasUpTo(paths, d, afters, n - 1, k);
      var before := Collected(paths, d, afters, n - 1);
      hide Collected;
      if afters[n - 1].Some? {
        HasOneMore(before, Change(paths[n - 1], d[paths[n - 1]], afters[n - 1].value), paths[k]);
      } else {
        assert before + [] == before;
      }
    } else {
      assert Collected(paths, d, afters, 0) == [];
    }
  }

  lemma {:induction false} HasOneMore(cs: seq<Change>, c: Change, path: Path)
    ensures HasChange(cs + [c], path) <==> HasChange(cs, path) || c.path == path
  {
    if HasChange(cs, path) {
      var j :| 0 <= j < |cs| && cs[j].path == path;
      assert (cs + [c])[j].path == path;
    }
    if c.path == path { assert (cs + [c])[|cs|].path == path; }
  }

  // ---------- What a plan has checked ----------

  // The URL is the old or the new endpoint, followed by this.
  predicate On(e: Endpoint, url: string, suffix: string) { url == Http(e) + suffix || url == Https(e) + suffix }

  /** The configuration file can be read, gives no key twice and one of the two endpoints, with or without
      slashes after it, and its policy allows these projects and is not empty. */
  ghost predicate EnvAllows(t: Tools, e: Endpoint, raw: File, allowed: set<string>) {
    |raw| <= MAX_FILE_BYTES && Utf8.Decode(raw).Some? && EnvData(Utf8.Decode(raw).value).Some? &&
    var m := EnvData(Utf8.Decode(raw).value).value;
    && KEY in m && (exists slashes :: AllSlashes(slashes) && On(e, m[KEY], slashes))
    && t.policy(m - {KEY}) == Some(allowed) && allowed != {}
  }

  predicate AllSlashes(s: string) { forall i :: 0 <= i < |s| ==> s[i] == '/' }

  /** The repository's configuration can be read, its policy is in order, and it has one origin, its own,
      which is the project's on one of the endpoints. The project is well formed, allowed, and the one the
      directory is named after. There is at most one push URL, and it is the project's too. If one of
      them is to be upgraded, the edited configuration can be read again. */
  ghost predicate RepoFits(t: Tools, e: Endpoint, allowed: set<string>, name: string, raw: File, p: string) {
    |raw| <= MAX_FILE_BYTES && t.gitRead(raw).Some? &&
    var v, url := t.gitRead(raw).value, Https(e) + "/" + p + ".git";
    && t.gitPolicy(v.rest) && !v.inherited && |v.origins| == 1 && |v.pushes| <= 1
    && ValidProject(p) && p in allowed && t.repoName(p) == name
    && On(e, v.origins[0], "/" + p + ".git") && (v.pushes != [] ==> On(e, v.pushes[0], "/" + p + ".git"))
    && (v.origins[0] != url || (v.pushes != [] && v.pushes[0] != url) ==>
          |t.gitWrite(raw, url, if v.pushes == [] then None else Some(url))| <= MAX_FILE_BYTES)
  }

  /** The metadata can be read, names the project, fits it, and has no saved link or one to a merge
      request of the project on one of the endpoints. */
  ghost predicate StateFits(t: Tools, e: Endpoint, path: Path, raw: File, p: string) {
    |raw| <= MAX_FILE_BYTES && t.loads(raw).Some? &&
    var s := t.loads(raw).value;
    && "project" in s && s["project"] == Text(p) && t.stateOk(path, s - {LINK})
    && (LINK in s && s[LINK] != Null ==>
          s[LINK].Text? && exists ds :: IsNumber(ds) && On(e, s[LINK].s, "/" + p + "/-/merge_requests/" + ds))
  }

  predicate IsNumber(ds: string) { ds != "" && forall i :: 0 <= i < |ds| ==> '0' <= ds[i] <= '9' }

  lemma {:induction false} SuffixIs(e: Endpoint, p: string)
    ensures Https(e) + "/" + p + ".git" == Https(e) + GitSuffix(p) && GitSuffix(p) == "/" + p + ".git"
  {
    assert Https(e) + "/" + p + ".git" == Https(e) + ("/" + p + ".git");
  }

  lemma {:induction false} RepoPartFits(t: Tools, e: Endpoint, allowed: set<string>, name: string, raw: File)
    requires RepoPart(t, e, allowed, name, raw).Some?
    ensures RepoFits(t, e, allowed, name, raw, RepoPart(t, e, allowed, name, raw).value.info)
  {
    var v := t.gitRead(raw).value;
    var p := ProjectFor(e, v.origins[0]).value;
    SuffixIs(e, p);
    hide Http, Https, ValidProject, GitSuffix, ProjectUnder;
    SchemesDiffer(e, GitSuffix(p), GitSuffix(p));
  }

  lemma {:induction false} FitsRepoPart(t: Tools, e: Endpoint, allowed: set<string>, name: string, raw: File, p: string)
    requires RepoFits(t, e, allowed, name, raw, p)
    ensures RepoPart(t, e, allowed, name, raw).Some? && RepoPart(t, e, allowed, name, raw).value.info == p
  {
    var v := t.gitRead(raw).value;
    SuffixIs(e, p);
    ProjectIs(e, v.origins[0], p);
    hide Http, Https, ValidProject, GitSuffix, ProjectFor;
    SchemesDiffer(e, GitSuffix(p), GitSuffix(p));
  }

  lemma {:induction false} ProjectIs(e: Endpoint, url: string, p: string)
    requires ValidProject(p) && On(e, url, GitSuffix(p))
    ensures ProjectFor(e, url) == Some(p)
  {
    UnderOf(Http(e), p);
    UnderOf(Https(e), p);
    SchemesDiffer(e, "/", GitSuffix(p));
  }

  lemma {:induction false} StateExactlyWhen(t: Tools, e: Endpoint, projects: seq<string>, path: Path, raw: File)
    ensures StatePart(t, e, projects, path, raw).Some? <==>
      exists p :: p in projects && StateFits(t, e, path, raw, p)
  {
    if StatePart(t, e, projects, path, raw).Some? {
      StatePartFits(t, e, projects, path, raw);
      assert t.loads(raw).value["project"].s in projects;
    }
    hide StateFits, StatePart;
    forall p | p in projects && StateFits(t, e, path, raw, p) ensures StatePart(t, e, projects, path, raw).Some? {
      FitsStatePart(t, e, projects, path, raw, p);
    }
  }

  lemma {:induction false} LinkSuffixIs(p: string, ds: string)
    ensures LinkSuffix(p, ds) == "/" + p + "/-/merge_requests/" + ds
  {
  }

  lemma {:induction false} StatePartFits(t: Tools, e: Endpoint, projects: seq<string>, path: Path, raw: File)
    requires StatePart(t, e, projects, path, raw).Some?
    ensures t.loads(raw).Some? && "project" in t.loads(raw).value && t.loads(raw).value["project"].Text?
    ensures StateFits(t, e, path, raw, t.loads(raw).value["project"].s)
    ensures t.loads(raw).value["project"].s in projects
  {
    var s := t.loads(raw).value;
    var p := s["project"].s;
    hide Http, Https, LinkNumber;
    if LINK in s && s[LINK] != Null {
      var ds := LinkNumber(s[LINK].s).value;
      NumberDigits(s[LINK].s);
      LinkSuffixIs(p, ds);
      assert IsNumber(ds) && On(e, s[LINK].s, "/" + p + "/-/merge_requests/" + ds);
    }
  }

  lemma {:induction false} FitsStatePart(t: Tools, e: Endpoint, projects: seq<string>, path: Path, raw: File, p: string)
    requires p in projects && StateFits(t, e, path, raw, p)
    ensures StatePart(t, e, projects, path, raw).Some?
  {
    var s := t.loads(raw).value;
    hide Http, Https, LinkNumber, Upgrade, LinkSuffix;
    if LINK in s && s[LINK] != Null {
      var ds :| IsNumber(ds) && On(e, s[LINK].s, "/" + p + "/-/merge_requests/" + ds);
      hide On, IsNumber;
      LinkFits(e, s[LINK].s, p, ds);
    }
  }

  lemma {:induction false} LinkFits(e: Endpoint, link: string, p: string, ds: string)
    requires IsNumber(ds) && On(e, link, "/" + p + "/-/merge_requests/" + ds)
    ensures LinkNumber(link) == Some(ds) && Upgrade(e, link, LinkSuffix(p, ds)).Some?
  {
    LinkSuffixIs(p, ds);
    hide Http, Https, LinkNumber;
    NumberOfLink(Http(e), p, ds);
    NumberOfLink(Https(e), p, ds);
  }

  lemma {:induction false} TrimOff(s: string, slashes: string)
    requires AllSlashes(slashes) && s != "" && s[|s| - 1] != '/'
    ensures TrimSlashes(s + slashes) == s
  {
    if slashes == "" {
      assert s + slashes == s;
    } else {
      assert (s + slashes)[..|s + slashes| - 1] == s + slashes[..|slashes| - 1];
      TrimOff(s, slashes[..|slashes| - 1]);
    }
  }

  lemma {:induction false} TrimmedOff(s: string) returns (slashes: string)
    ensures AllSlashes(slashes) && s == TrimSlashes(s) + slashes
  {
    if s != "" && s[|s| - 1] == '/' {
      slashes := TrimmedOff(s[..|s| - 1]);
      slashes := slashes + "/";
    } else {
      slashes := "";
    }
  }

  lemma {:induction false} EnvExactlyWhen(t: Tools, e: Endpoint, raw: File)
    requires ValidEndpoint(e)
    ensures EnvPart(t, e, raw).Some? ==> EnvAllows(t, e, raw, EnvPart(t, e, raw).value.info)
    ensures forall allowed :: EnvAllows(t, e, raw, allowed) ==>
      EnvPart(t, e, raw).Some? && EnvPart(t, e, raw).value.info == allowed
  {
    hide *;
    if EnvPart(t, e, raw).Some? { EnvPartAllows(t, e, raw); }
    forall allowed | EnvAllows(t, e, raw, allowed)
      ensures EnvPart(t, e, raw).Some? && EnvPart(t, e, raw).value.info == allowed
    {
      AllowsEnvPart(t, e, raw, allowed);
    }
  }

  lemma {:induction false} EnvPartAllows(t: Tools, e: Endpoint, raw: File)
    requires EnvPart(t, e, raw).Some?
    ensures EnvAllows(t, e, raw, EnvPart(t, e, raw).value.info)
  {
    hide Http, Https, EnvData, RewriteEnv, TrimSlashes, Utf8.Decode, Utf8.Encode;
    var m := EnvData(Utf8.Decode(raw).value).value;
    NoEndpoint(e);
    var slashes := TrimmedOff(m[KEY]);
    assert On(e, m[KEY], slashes);
  }

  lemma {:induction false} AllowsEnvPart(t: Tools, e: Endpoint, raw: File, allowed: set<string>)
    requires ValidEndpoint(e) && EnvAllows(t, e, raw, allowed)
    ensures EnvPart(t, e, raw).Some? && EnvPart(t, e, raw).value.info == allowed
  {
    HttpsPlain(e);
    PlainEnds(Http(e));
    PlainEnds(Https(e));
    hide Http, Https, EnvData, RewriteEnv, ValidEndpoint, TrimSlashes, Utf8.Decode, Utf8.Encode, PlainUrl;
    var m := EnvData(Utf8.Decode(raw).value).value;
    var slashes :| AllSlashes(slashes) && On(e, m[KEY], slashes);
    TrimOff(if m[KEY] == Http(e) + slashes then Http(e) else Https(e), slashes);
  }

  lemma NoEndpoint(e: Endpoint)
    ensures TrimSlashes("") == "" && Http(e) != "" && Https(e) != ""
  {
  }

  lemma PlainEnds(url: string)
    requires PlainUrl(url)
    ensures url != "" && url[|url| - 1] != '/'
  {
  }

  lemma {:induction false} RepoPartsExactlyWhen(t: Tools, e: Endpoint, allowed: set<string>, site: Site, d: Disk,
                                                n: nat)
    requires n <= |site.repos|
    ensures RepoParts(t, e, allowed, site, d, n).Some? <==> forall i :: 0 <= i < n ==>
      site.repos[i].0 in d && RepoPart(t, e, allowed, site.repos[i].1, d[site.repos[i].0]).Some?
    ensures RepoParts(t, e, allowed, site, d, n).Some? ==>
      && |RepoParts(t, e, allowed, site, d, n).value.0| == n
      && forall i :: 0 <= i < n ==>
           RepoParts(t, e, allowed, site, d, n).value.0[i] ==
           RepoPart(t, e, allowed, site.repos[i].1, d[site.repos[i].0]).value.info
  {
    hide RepoPart;
    if n > 0 { RepoPartsExactlyWhen(t, e, allowed, site, d, n - 1); }
  }

  lemma {:induction false} StatePartsExactlyWhen(t: Tools, e: Endpoint, projects: seq<string>, site: Site, d: Disk,
                                                 n: nat)
    requires n <= |site.states|
    ensures StateParts(t, e, projects, site, d, n).Some? <==> forall i :: 0 <= i < n ==>
      site.states[i] in d && StatePart(t, e, projects, site.states[i], d[site.states[i]]).Some?
  {
    hide StatePart;
    if n > 0 { StatePartsExactlyWhen(t, e, projects, site, d, n - 1); }
  }

  ghost predicate RepoFitsAt(t: Tools, e: Endpoint, allowed: set<string>, site: Site, d: Disk, i: nat, p: string)
    requires i < |site.repos|
  {
    site.repos[i].0 in d && RepoFits(t, e, allowed, site.repos[i].1, d[site.repos[i].0], p)
  }

  ghost predicate RepoHasFit(t: Tools, e: Endpoint, allowed: set<string>, site: Site, d: Disk, i: nat)
    requires i < |site.repos|
  {
    exists p :: RepoFitsAt(t, e, allowed, site, d, i, p)
  }

  // Some repository fits the project.
  ghost predicate Cached(t: Tools, e: Endpoint, allowed: set<string>, site: Site, d: Disk, p: string) {
    exists j :: 0 <= j < |site.repos| && RepoFitsAt(t, e, allowed, site, d, j, p)
  }

  // The workspace fits a project that is cached.
  ghost predicate StateHasFit(t: Tools, e: Endpoint, allowed: set<string>, site: Site, d: Disk, i: nat)
    requires i < |site.states|
  {
    site.states[i] in d &&
    exists p :: Cached(t, e, allowed, site, d, p) && StateFits(t, e, site.states[i], d[site.states[i]], p)
  }

  ghost predicate AllFit(t: Tools, e: Endpoint, allowed: set<string>, site: Site, d: Disk) {
    && (forall i :: 0 <= i < |site.repos| ==> RepoHasFit(t, e, allowed, site, d, i))
    && (forall i :: 0 <= i < |site.states| ==> StateHasFit(t, e, allowed, site, d, i))
  }

  /** What there is can be planned: not too much of it, a configuration file that allows some projects,
      and everything else fits those. */
  ghost predicate Plannable(t: Tools, e: Endpoint, site: Site, d: Disk) {
    |site.repos| + |site.states| <= MAX_INVENTORY && site.env in d &&
    exists allowed :: EnvAllows(t, e, d[site.env], allowed) && AllFit(t, e, allowed, site, d)
  }

  lemma {:induction false} FitIsUnique(t: Tools, e: Endpoint, allowed: set<string>, site: Site, d: Disk, i: nat,
                                       p: string)
    requires i < |site.repos| && RepoFitsAt(t, e, allowed, site, d, i, p)
    ensures RepoPart(t, e, allowed, site.repos[i].1, d[site.repos[i].0]).Some?
    ensures RepoPart(t, e, allowed, site.repos[i].1, d[site.repos[i].0]).value.info == p
  {
    hide RepoPart, RepoFits;
    FitsRepoPart(t, e, allowed, site.repos[i].1, d[site.repos[i].0], p);
  }

  lemma {:induction false} RepoAt(t: Tools, e: Endpoint, allowed: set<string>, site: Site, d: Disk, i: nat)
    requires i < |site.repos|
    ensures RepoHasFit(t, e, allowed, site, d, i) <==>
      site.repos[i].0 in d && RepoPart(t, e, allowed, site.repos[i].1, d[site.repos[i].0]).Some?
    ensures RepoHasFit(t, e, allowed, site, d, i) ==>
      forall p :: RepoFitsAt(t, e, allowed, site, d, i, p) <==>
        p == RepoPart(t, e, allowed, site.repos[i].1, d[site.repos[i].0]).value.info
  {
    hide RepoPart, RepoFits;
    forall p | RepoFitsAt(t, e, allowed, site, d, i, p)
      ensures RepoPart(t, e, allowed, site.repos[i].1, d[site.repos[i].0]).Some?
      ensures p == RepoPart(t, e, allowed, site.repos[i].1, d[site.repos[i].0]).value.info
    {
      FitIsUnique(t, e, allowed, site, d, i, p);
    }
    if site.repos[i].0 in d && RepoPart(t, e, allowed, site.repos[i].1, d[site.repos[i].0]).Some? {
      RepoPartFits(t, e, allowed, site.repos[i].1, d[site.repos[i].0]);
      assert RepoFitsAt(t, e, allowed, site, d, i,
                        RepoPart(t, e, allowed, site.repos[i].1, d[site.repos[i].0]).value.info);
    }
  }

  lemma {:induction false} ReposExactlyWhen(t: Tools, e: Endpoint, allowed: set<string>, site: Site, d: Disk)
    ensures RepoParts(t, e, allowed, site, d, |site.repos|).Some? <==>
      forall i :: 0 <= i < |site.repos| ==> RepoHasFit(t, e, allowed, site, d, i)
    ensures RepoParts(t, e, allowed, site, d, |site.repos|).Some? ==>
      forall p :: p in RepoParts(t, e, allowed, site, d, |site.repos|).value.0 <==> Cached(t, e, allowed, site, d, p)
  {
    RepoPartsExactlyWhen(t, e, allowed, site, d, |site.repos|);
    hide RepoPart, RepoFits, RepoParts, RepoFitsAt, RepoHasFit;
    forall i | 0 <= i < |site.repos|
      ensures RepoHasFit(t, e, allowed, site, d, i) <==>
        site.repos[i].0 in d && RepoPart(t, e, allowed, site.repos[i].1, d[site.repos[i].0]).Some?
      ensures RepoHasFit(t, e, allowed, site, d, i) ==>
        forall p :: RepoFitsAt(t, e, allowed, site, d, i, p) <==>
          p == RepoPart(t, e, allowed, site.repos[i].1, d[site.repos[i].0]).value.info
    {
      RepoAt(t, e, allowed, site, d, i);
    }
    if RepoParts(t, e, allowed, site, d, |site.repos|).Some? {
      var projects := RepoParts(t, e, allowed, site, d, |site.repos|).value.0;
      forall i | 0 <= i < |site.repos| ensures RepoFitsAt(t, e, allowed, site, d, i, projects[i]) { }
      forall p | Cached(t, e, allowed, site, d, p) ensures p in projects {
        var j :| 0 <= j < |site.repos| && RepoFitsAt(t, e, allowed, site, d, j, p);
        assert projects[j] == p;
      }
    }
  }

  lemma {:induction false} StatesExactlyWhen(t: Tools, e: Endpoint, allowed: set<string>, projects: seq<string>,
                                             site: Site, d: Disk)
    requires forall p :: p in projects <==> Cached(t, e, allowed, site, d, p)
    ensures StateParts(t, e, projects, site, d, |site.states|).Some? <==>
      forall i :: 0 <= i < |site.states| ==> StateHasFit(t, e, allowed, site, d, i)
  {
    StatePartsExactlyWhen(t, e, projects, site, d, |site.states|);
    hide StatePart, StateFits, StateParts, Cached;
    forall i | 0 <= i < |site.states|
      ensures StateHasFit(t, e, allowed, site, d, i) <==>
        site.states[i] in d && StatePart(t, e, projects, site.states[i], d[site.states[i]]).Some?
    {
      if site.states[i] in d { StateExactlyWhen(t, e, projects, site.states[i], d[site.states[i]]); }
    }
  }

  lemma ReviewSteps(t: Tools, e: Endpoint, site: Site, d: Disk)
    ensures Review(t, e, site, d).Some? <==>
      |site.repos| + |site.states| <= MAX_INVENTORY && site.env in d && EnvPart(t, e, d[site.env]).Some? &&
      var repos := RepoParts(t, e, EnvPart(t, e, d[site.env]).value.info, site, d, |site.repos|);
      repos.Some? && StateParts(t, e, repos.value.0, site, d, |site.states|).Some?
  {
    hide EnvPart, RepoParts, StateParts;
  }

  /** A plan is built if and only if everything is as it has to be: what is read and what the tools say
      of it decide, in whatever order the files are looked at. */
  lemma {:induction false} PlannedExactlyWhen(t: Tools, e: Endpoint, site: Site, d: Disk, outside: int)
    requires ValidEndpoint(e)
    ensures BuildPlan(t, e, site, d, outside).Some? <==> Plannable(t, e, site, d)
  {
    ReviewSteps(t, e, site, d);
    hide Review, EnvPart, RepoParts, StateParts, EnvAllows, RepoHasFit, StateHasFit, Cached, Collected, Contents, Paths;
    if site.env in d { EnvExactlyWhen(t, e, d[site.env]); }
    if site.env in d && EnvPart(t, e, d[site.env]).Some? {
      var allowed := EnvPart(t, e, d[site.env]).value.info;
      ReposExactlyWhen(t, e, allowed, site, d);
      if RepoParts(t, e, allowed, site, d, |site.repos|).Some? {
        StatesExactlyWhen(t, e, allowed, RepoParts(t, e, allowed, site, d, |site.repos|).value.0, site, d);
      }
    }
    if Review(t, e, site, d).Some? { ReviewedOnDisk(t, e, site, d); }
  }

  lemma {:induction false} ReviewedOnDisk(t: Tools, e: Endpoint, site: Site, d: Disk)
    requires Review(t, e, site, d).Some?
    ensures OnDisk(site, d)
  {
    ReviewIs(t, e, site, d);
    PathsAre(site);
    hide Review, EnvPart, RepoParts, StateParts, Paths;
    var allowed := EnvPart(t, e, d[site.env]).value.info;
    var projects := RepoParts(t, e, allowed, site, d, |site.repos|).value.0;
    RepoPartsExactlyWhen(t, e, allowed, site, d, |site.repos|);
    StatePartsExactlyWhen(t, e, projects, site, d, |site.states|);
    forall k | 0 <= k < |Paths(site)| ensures Paths(site)[k] in d {
      if 0 < k <= |site.repos| { assert Paths(site)[1 + (k - 1)] == site.repos[k - 1].0; }
      if k > |site.repos| {
        assert Paths(site)[1 + |site.repos| + (k - 1 - |site.repos|)] == site.states[k - 1 - |site.repos|];
      }
    }
  }

  // ---------- A file that grows too long ----------

  function Hashes(n: nat): string { seq(n, i => '#') }

  // The endpoint's line and a comment that fills the file up to the limit.
  function FullEnv(url: string): string
    requires |KEY| + |url| + 4 <= MAX_FILE_BYTES
  {
    KEY + "=" + url + "\n" + (Hashes(MAX_FILE_BYTES - |KEY| - |url| - 3) + "\n")
  }

  predicate IsAscii(s: string) { forall i :: 0 <= i < |s| ==> s[i] < '\U{80}' }

  lemma {:induction false} AsciiLength(s: string)
    requires IsAscii(s)
    ensures |Utf8.Encode(s)| == |s|
  {
    if s != "" { AsciiLength(s[1..]); }
  }

  lemma {:induction false} CommentLine(n: nat)
    requires n > 0
    ensures var l := Hashes(n) + "\n"; EnvEntry(l) == None && !Matches(l) && SplitLines(l) == [l] && Terminated(l)
  {
    var h := Hashes(n);
    var l := h + "\n";
    StripPlain(h, "\n");
    SplitOneLine(h, "\n");
    SplitIsLine(l);
    assert l[0] == '#' && KEY[0] == 'G';
  }

  lemma {:induction false} KeyLine(url: string)
    requires PlainUrl(url)
    ensures var one := KEY + "=" + url + "\n";
      && EnvEntry(one) == Some((KEY, url)) && SplitLines(one) == [one] && Terminated(one)
      && one[|one| - 1] == '\n' && LineFeed(one) == "\n" && EndsWith(one, "\n")
  {
    var one := KEY + "=" + url + "\n";
    UrlPlain(url);
    RewrittenReads(url, "\n");
    hide EnvEntry, SplitLines;
    SplitOneLine(KEY + "=" + url, "\n");
    assert one[|one| - 2] == url[|url| - 1] != '\r';
  }

  lemma {:induction false} FullEnvLines(url: string)
    requires PlainUrl(url) && |KEY| + |url| + 4 <= MAX_FILE_BYTES
    ensures var one, two := KEY + "=" + url + "\n", Hashes(MAX_FILE_BYTES - |KEY| - |url| - 3) + "\n";
      && SplitLines(FullEnv(url)) == [one, two] && Matches(one) && !Matches(two)
      && EnvEntry(one) == Some((KEY, url)) && EnvEntry(two) == None && LineFeed(one) == "\n"
      && EndsWith(one, "\n") && EndsWith(two, "\n")
  {
    var n := MAX_FILE_BYTES - |KEY| - |url| - 3;
    var one, two := KEY + "=" + url + "\n", Hashes(n) + "\n";
    CommentLine(n);
    KeyLine(url);
    hide EnvEntry, Matches, SplitLines, LineFeed, Hashes;
    ReadIsMatched(one);
    SplitAppend(one, two);
  }

  lemma {:induction false} FullEnvReads(url: string)
    requires PlainUrl(url) && |KEY| + |url| + 4 <= MAX_FILE_BYTES
    ensures EnvData(FullEnv(url)) == Some(map[KEY := url])
    ensures FeedsOnly(SplitLines(FullEnv(url))) && OneMatch(SplitLines(FullEnv(url)))
  {
    hide EnvEntry, Matches, SplitLines, FullEnv, Hashes, EndsWith, LineFeed;
    FullEnvLines(url);
    var one, two := SplitLines(FullEnv(url))[0], SplitLines(FullEnv(url))[1];
    OneLinePair(one, two);
  }

  lemma {:induction false} OneLinePair(one: string, two: string)
    requires EnvEntry(one).Some? && EnvEntry(two).None?
    ensures SetupConfig.FromPairs(EnvPairs([one, two])) == Some(map[EnvEntry(one).value.0 := EnvEntry(one).value.1])
  {
    hide EnvEntry;
    var e := EnvEntry(one).value;
    assert EnvEntries([one, two]) == [EnvEntry(one)] + [EnvEntry(two)];
    SetupConfig.ListedAppend([EnvEntry(one)], [EnvEntry(two)]);
    SetupConfig.ListedOne(EnvEntry(one));
    SetupConfig.ListedOne(EnvEntry(two));
    assert EnvPairs([one, two]) == [] + [e];
    SetupConfig.EmptyPairs();
    SetupConfig.FromPairsOne([], e);
  }

  lemma {:induction false} FullEnvRewritten(https: string, url: string)
    requires PlainUrl(https) && PlainUrl(url) && |KEY| + |url| + 4 <= MAX_FILE_BYTES
    ensures RewriteEnv(https, FullEnv(url)) ==
      KEY + "=" + https + "\n" + (Hashes(MAX_FILE_BYTES - |KEY| - |url| - 3) + "\n")
  {
    FullEnvLines(url);
    hide EnvEntry, Matches, SplitLines, FullEnv, Hashes, LineFeed, EndsWith;
    var lines := SplitLines(FullEnv(url));
    var first := KEY + "=" + https + "\n";
    assert EnvLines(https, lines) == [first, lines[1]];
    JoinTwo(first, lines[1]);
  }

  lemma JoinTwo(a: string, b: string)
    ensures Join([a, b]) == a + b
  {
    SetupConfig.JoinOne(b);
    assert [a, b][1..] == [b];
  }

  lemma {:induction false} FilledLength(url: string, n: nat)
    requires PlainUrl(url)
    ensures |Utf8.Encode(KEY + "=" + url + "\n" + (Hashes(n) + "\n"))| == |KEY| + |url| + n + 3
  {
    hide Utf8.Encode;
    var a, b := KEY + "=" + url + "\n", Hashes(n) + "\n";
    assert IsAscii(KEY) && IsAscii(a) && IsAscii(b) && IsAscii(a + b);
    AsciiLength(a + b);
  }

  lemma {:induction false} FullEnvSizes(https: string, url: string)
    requires PlainUrl(https) && PlainUrl(url) && |KEY| + |url| + 4 <= MAX_FILE_BYTES
    ensures |Utf8.Encode(FullEnv(url))| == MAX_FILE_BYTES
    ensures |Utf8.Encode(RewriteEnv(https, FullEnv(url)))| == MAX_FILE_BYTES + |https| - |url|
  {
    FullEnvRewritten(https, url);
    hide Utf8.Encode, RewriteEnv, Hashes, PlainUrl;
    FilledLength(url, MAX_FILE_BYTES - |KEY| - |url| - 3);
    FilledLength(https, MAX_FILE_BYTES - |KEY| - |url| - 3);
  }

  /** Such a change exists: a configuration file of exactly the size limit, LF only and with one line to
      rewrite, becomes one byte too long to be read again. */
  lemma {:induction false} OneByteOver(t: Tools, e: Endpoint) returns (raw: File)
    requires ValidEndpoint(e) && !e.httpPort && !e.httpsPort && |Http(e)| <= 1000
    requires t.policy(map[]).Some? && t.policy(map[]).value != {}
    ensures |raw| == MAX_FILE_BYTES && EnvOne(raw) && EnvFeeds(t, e, raw)
    ensures EnvPart(t, e, raw).Some? && EnvPart(t, e, raw).value.after.Some?
    ensures |EnvPart(t, e, raw).value.after.value| == MAX_FILE_BYTES + 1
  {
    hide FullEnv, RewriteEnv, EnvData, SplitLines, FeedsOnly, OneMatch, Utf8.Encode, TrimSlashes;
    var url := Http(e);
    HttpsPlain(e);
    raw := Utf8.Encode(FullEnv(url));
    EnvTextBack(FullEnv(url));
    FullEnvReads(url);
    FullEnvSizes(Https(e), url);
    TrimPlain(url);
    SchemesDiffer(e, "", "");
    assert Http(e) + "" == Http(e) && Https(e) + "" == Https(e);
    assert map[KEY := url] - {KEY} == map[];
  }
}
