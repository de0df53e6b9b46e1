/** The `.env` reader and the in-place editor of selected assignments. */
module SetupConfig {
  import opened Wrappers
  import opened PyText

  datatype ConfigError = NotSingleLine(key: string) | EdgeSpace(key: string) | Duplicate(key: string)

  // ---------- One line ----------

  predicate IdentStart(c: char) { 'A' <= c <= 'Z' || 'a' <= c <= 'z' || c == '_' }

  predicate IdentPart(c: char) { IdentStart(c) || '0' <= c <= '9' }

  function PartLength(s: string): (n: nat)
    ensures n <= |s|
  {
    if s != "" && IdentPart(s[0]) then 1 + PartLength(s[1..]) else 0
  }

  // Length of the longest `[A-Za-z_][A-Za-z0-9_]*` at the front; 0 when there is none.
  function IdentLength(s: string): (n: nat)
    ensures n <= |s|
  {
    if s != "" && IdentStart(s[0]) then 1 + PartLength(s[1..]) else 0
  }

  predicate IsIdentifier(s: string) { s != "" && IdentLength(s) == |s| }

  // `key\s*=value`
  function KeyEquals(s: string): Option<(string, string)> {
    var n := IdentLength(s);
    var r := LStrip(s[n..]);
    if n > 0 && r != "" && r[0] == '=' then Some((s[..n], r[1..])) else None
  }

  predicate Exported(s: string) { "export" <= s && |s| > 6 && IsSpace(s[6]) }

  // The assignment pattern: optional indent, optional `export`, key, `=`, raw value.
  function ParseAssignment(line: string): Option<(string, string)> {
    var s := LStrip(line);
    if Exported(s) && KeyEquals(LStrip(s[6..])).Some? then KeyEquals(LStrip(s[6..])) else KeyEquals(s)
  }

  predicate Wrapped(v: string) {
    |v| >= 2 && v[0] == v[|v| - 1] && v[0] in {'\'', '"'}
  }

  // `_decode_value`
  function DecodeValue(raw: string): string {
    var v := Strip(raw);
    if Wrapped(v) then v[1..|v| - 1] else v
  }

  // The key a line assigns and the value it is read as.
  function Entry(line: string): Option<(string, string)> {
    match ParseAssignment(line)
    case None => None
    case Some((key, raw)) => Some((key, DecodeValue(raw)))
  }

  // `line` without its terminator, as `splitlines()` yields it.
  function Chop(line: string): string {
    if |line| >= 2 && line[|line| - 2..] == "\r\n" then line[..|line| - 2]
    else if Terminated(line) then line[..|line| - 1] else line
  }

  lemma {:induction false} PartLengthSpace(s: string, w: char)
    requires IsSpace(w)
    ensures PartLength(s + [w]) == PartLength(s)
  {
    if s == "" {
      assert s + [w] == [w];
    } else if IdentPart(s[0]) {
      PartLengthSpace(s[1..], w);
      assert (s + [w])[1..] == s[1..] + [w];
    }
  }

  lemma {:induction false} KeyEqualsSpace(s: string, w: char)
    requires IsSpace(w)
    ensures match KeyEquals(s)
      case None => KeyEquals(s + [w]) == None
      case Some((key, raw)) => KeyEquals(s + [w]) == Some((key, raw + [w]))
  {
    var n := IdentLength(s);
    if s == "" {
      assert s + [w] == [w];
    } else {
      assert (s + [w])[1..] == s[1..] + [w];
      PartLengthSpace(s[1..], w);
    }
    assert IdentLength(s + [w]) == n;
    assert (s + [w])[n..] == s[n..] + [w] && (s + [w])[..n] == s[..n];
    LStripSpace(s[n..], w);
    var r := LStrip(s[n..]);
    if r != "" { assert (r + [w])[1..] == r[1..] + [w]; }
  }

  lemma {:induction false} ParseSpace(line: string, w: char)
    requires IsSpace(w)
    ensures match ParseAssignment(line)
      case None => ParseAssignment(line + [w]) == None
      case Some((key, raw)) => ParseAssignment(line + [w]) == Some((key, raw + [w]))
  {
    hide KeyEquals;
    var s := LStrip(line);
    LStripSpace(line, w);
    KeyEqualsSpace("", w);
    KeyEqualsSpace(s, w);
    EmptyHasNoKey();
    if s != "" {
      if Exported(s) {
        assert (s + [w])[6..] == s[6..] + [w];
        LStripSpace(s[6..], w);
        KeyEqualsSpace(LStrip(s[6..]), w);
      } else if Exported(s + [w]) {
        assert s == "export" && (s + [w])[6..] == [w];
        assert LStrip([w]) == "" by { assert [w][1..] == ""; }
      }
    }
  }

  lemma EmptyHasNoKey()
    ensures KeyEquals("") == None
  {
  }

  /** Trailing whitespace, a line terminator included, does not change what a line assigns. */
  lemma {:induction false} EntrySpace(line: string, w: char)
    requires IsSpace(w)
    ensures Entry(line + [w]) == Entry(line)
  {
    hide ParseAssignment, Strip;
    ParseSpace(line, w);
    if ParseAssignment(line).Some? { StripSpace(ParseAssignment(line).value.1, w); }
  }

  lemma {:induction false} EntryTail(line: string, tail: string)
    requires forall i :: 0 <= i < |tail| ==> IsSpace(tail[i])
    ensures Entry(line + tail) == Entry(line)
  {
    hide Entry;
    if tail == "" {
      assert line + tail == line;
    } else {
      var n := |tail| - 1;
      EntryTail(line, tail[..n]);
      EntrySpace(line + tail[..n], tail[n]);
      assert line + tail == (line + tail[..n]) + [tail[n]];
    }
  }

  lemma {:induction false} ContentTail(line: string)
    ensures forall i :: |Content(line)| <= i < |line| ==> line[i] in {'\r', '\n'}
    ensures Content(line) == line[..|Content(line)|]
  {
    if line != "" && (line[|line| - 1] == '\n' || line[|line| - 1] == '\r') { ContentTail(line[..|line| - 1]); }
  }

  lemma {:induction false} ChopTail(line: string)
    ensures Chop(line) <= line && forall i :: |Chop(line)| <= i < |line| ==> IsSpace(line[i])
  {
  }

  lemma {:induction false} EntryPrefix(c: string, line: string)
    requires c <= line && forall i :: |c| <= i < |line| ==> IsSpace(line[i])
    ensures Entry(c) == Entry(line)
  {
    hide Entry, IsSpace;
    assert line == c + line[|c|..];
    EntryTail(c, line[|c|..]);
  }

  lemma {:induction false} SameEntry(line: string)
    ensures Entry(Chop(line)) == Entry(line) && Entry(Content(line)) == Entry(line)
  {
    hide Entry, Content, Chop;
    ChopTail(line);
    EntryPrefix(Chop(line), line);
    ContentTail(line);
    EntryPrefix(Content(line), line);
  }

  // ---------- What a line assigns ----------

  // `[A-Za-z_][A-Za-z0-9_]*`
  predicate IsKey(key: string) {
    key != "" && IdentStart(key[0]) && forall i :: 0 <= i < |key| ==> IdentPart(key[i])
  }

  // `(export\s+)?`
  predicate IsExport(prefix: string) { prefix == "" || ("export" <= prefix && |prefix| > 6 && AllSpace(prefix[6..])) }

  /** The line is whitespace, `export` or not, the key, whitespace, `=` and the raw value. */
  ghost predicate Assigns(line: string, key: string, raw: string) {
    exists indent, prefix, w ::
      AllSpace(indent) && IsExport(prefix) && IsKey(key) && AllSpace(w) &&
      line == indent + prefix + key + w + "=" + raw
  }

  lemma AssignsIt(indent: string, prefix: string, key: string, w: string, raw: string)
    requires AllSpace(indent) && IsExport(prefix) && IsKey(key) && AllSpace(w)
    ensures Assigns(indent + prefix + key + w + "=" + raw, key, raw)
  {
  }

  lemma {:induction false} PartLengthAll(s: string)
    ensures PartLength(s) == |s| <==> forall i :: 0 <= i < |s| ==> IdentPart(s[i])
  {
    if s != "" {
      PartLengthAll(s[1..]);
      assert s == [s[0]] + s[1..];
    }
  }

  lemma {:induction false} KeyIs(key: string)
    ensures IsIdentifier(key) <==> IsKey(key)
  {
    if key != "" {
      PartLengthAll(key[1..]);
      assert key == [key[0]] + key[1..];
    }
  }

  lemma {:induction false} KeyEqualsReads(key: string, w: string, raw: string)
    requires IsKey(key) && AllSpace(w)
    ensures KeyEquals(key + w + "=" + raw) == Some((key, raw))
  {
    var tail := w + "=" + raw;
    var s := key + tail;
    assert s == key + w + "=" + raw && s[|key|..] == tail && s[..|key|] == key && s[1..] == key[1..] + tail;
    PartLengthAll(key[1..]);
    assert tail[0] == if w == "" then '=' else w[0];
    PartLengthStop(key[1..], tail);
    LStripSpaces(w, "=" + raw);
    assert tail == w + ("=" + raw);
  }

  lemma {:induction false} KeyEqualsOnly(s: string) returns (w: string)
    requires KeyEquals(s).Some?
    ensures var (key, raw) := KeyEquals(s).value; AllSpace(w) && IsKey(key) && s == key + w + "=" + raw
  {
    var n := IdentLength(s);
    KeyIsIdentifier(s);
    KeyIs(KeyEquals(s).value.0);
    LStripSuffix(s[n..]);
    hide IdentLength, LStrip, IsKey, IsIdentifier;
    var k := |s| - |LStrip(s[n..])|;
    w := s[n..k];
    assert LStrip(s[n..]) == s[k..] by { assert s[n..][k - n..] == s[k..]; }
    forall i | 0 <= i < |w| ensures IsSpace(w[i]) { assert w[i] == s[n..][i]; }
    ThreeParts(s, n, k);
  }

  lemma ThreeParts(s: string, n: nat, k: nat)
    requires n <= k < |s| && s[k] == '='
    ensures s == s[..n] + s[n..k] + "=" + s[k..][1..]
  {
  }

  // A key that is followed by `=` is not taken for the word before a key.
  lemma {:induction false} NotExport(key: string, w: string, raw: string)
    requires IsKey(key) && AllSpace(w)
    ensures var s := key + w + "=" + raw; Exported(s) ==> KeyEquals(LStrip(s[6..])) == None
  {
    var tail := w + "=" + raw;
    var s := key + w + "=" + raw;
    assert s == key + tail && s[|key|] == tail[0];
    assert tail[0] == if w == "" then '=' else w[0];
    assert forall i :: 0 <= i < |key| ==> s[i] == key[i];
    if key == "export" {
      assert s[6..] == w + ("=" + raw);
      LStripSpaces(w, "=" + raw);
    } else {
      OnlyExport(s, key);
    }
  }

  lemma OnlyExport(s: string, key: string)
    requires key < s && key != "export" && forall i :: 0 <= i < |key| ==> IdentPart(key[i])
    requires s[|key|] == '=' || IsSpace(s[|key|])
    ensures !Exported(s)
  {
    if |key| < 6 {
      var c := "export"[|key|];
      assert c != '=' && !IsSpace(c);
    }
    if |key| == 6 { assert "export" <= s ==> key == "export"; }
  }

  lemma {:induction false} ParsesAs(indent: string, prefix: string, key: string, w: string, raw: string)
    requires AllSpace(indent) && IsExport(prefix) && IsKey(key) && AllSpace(w)
    ensures ParseAssignment(indent + prefix + key + w + "=" + raw) == Some((key, raw))
  {
    var body := key + w + "=" + raw;
    var s := prefix + body;
    assert indent + prefix + key + w + "=" + raw == indent + s;
    LStripSpaces(indent, s);
    KeyEqualsReads(key, w, raw);
    if prefix == "" {
      assert s == body;
      hide KeyEquals;
      NotExport(key, w, raw);
    } else {
      assert s[..6] == prefix[..6] && s[6] == prefix[6..][0] && s[6..] == prefix[6..] + body;
      LStripSpaces(prefix[6..], body);
    }
  }

  lemma {:induction false} ParsesOnly(line: string)
    requires ParseAssignment(line).Some?
    ensures Assigns(line, ParseAssignment(line).value.0, ParseAssignment(line).value.1)
  {
    hide KeyEquals, IsKey;
    var s := LStrip(line);
    LStripSuffix(line);
    hide LStrip;
    var indent := line[..|line| - |s|];
    assert line == indent + s && AllSpace(indent);
    if Exported(s) && KeyEquals(LStrip(s[6..])).Some? {
      var spaces := ExportSpaces(s);
      var w := KeyEqualsOnly(LStrip(s[6..]));
      hide AllSpace, Exported, IsExport;
      AssignsParts(line, indent, "export" + spaces, LStrip(s[6..]), w);
    } else {
      var w := KeyEqualsOnly(s);
      AssignsParts(line, indent, "", s, w);
    }
  }

  lemma AssignsParts(line: string, indent: string, prefix: string, body: string, w: string)
    requires KeyEquals(body).Some? && IsKey(KeyEquals(body).value.0)
    requires AllSpace(w) && AllSpace(indent) && IsExport(prefix)
    requires line == indent + (prefix + body)
    requires var (key, raw) := KeyEquals(body).value; body == key + w + "=" + raw
    ensures Assigns(line, KeyEquals(body).value.0, KeyEquals(body).value.1)
  {
    hide KeyEquals, IsKey, AllSpace, IsExport;
    var (key, raw) := KeyEquals(body).value;
    assert line == indent + prefix + key + w + "=" + raw;
    AssignsIt(indent, prefix, key, w, raw);
  }

  lemma {:induction false} ExportSpaces(s: string) returns (spaces: string)
    requires Exported(s)
    ensures AllSpace(spaces) && spaces != "" && s == "export" + spaces + LStrip(s[6..])
    ensures IsExport("export" + spaces)
  {
    LStripSuffix(s[6..]);
    spaces := s[6..][..|s| - 6 - |LStrip(s[6..])|];
    assert s == s[..6] + s[6..] && s[6..] == spaces + LStrip(s[6..]);
    assert ("export" + spaces)[6..] == spaces;
    assert s[6..][0] == s[6];
  }

  /** A line is read as the key and the decoded value exactly when it assigns them; every other line,
      a comment, one without `=` or one whose key is no identifier, is read as nothing. */
  lemma {:induction false} EntryIs(line: string)
    ensures forall key, raw :: Assigns(line, key, raw) ==> Entry(line) == Some((key, DecodeValue(raw)))
    ensures Entry(line).Some? ==>
      exists raw :: Assigns(line, Entry(line).value.0, raw) && Entry(line).value.1 == DecodeValue(raw)
  {
    hide ParseAssignment, DecodeValue, IsKey, IsExport;
    forall key, raw | Assigns(line, key, raw) ensures Entry(line) == Some((key, DecodeValue(raw))) {
      var indent, prefix, w :|
        AllSpace(indent) && IsExport(prefix) && IsKey(key) && AllSpace(w) &&
        line == indent + prefix + key + w + "=" + raw;
      ParsesAs(indent, prefix, key, w, raw);
    }
    hide Assigns;
    if Entry(line).Some? {
      ParsesOnly(line);
      assert Assigns(line, Entry(line).value.0, ParseAssignment(line).value.1);
    }
  }

  /** The value is the text without whitespace around it, and without the quotes it may wear. */
  lemma {:induction false} ValueIs(before: string, v: string, after: string)
    requires AllSpace(before) && AllSpace(after) && Trim(v)
    ensures !Wrapped(v) ==> DecodeValue(before + v + after) == v
    ensures forall q, body :: q in {'\'', '"'} && v == [q] + body + [q] ==> DecodeValue(before + v + after) == body
    ensures Wrapped(v) ==> exists body :: v == [v[0]] + body + [v[0]]
  {
    StripIs(before, v, after);
    forall q, body | q in {'\'', '"'} && v == [q] + body + [q] ensures DecodeValue(before + v + after) == body {
      assert v[1..|v| - 1] == body;
    }
    if Wrapped(v) { assert v == [v[0]] + v[1..|v| - 1] + [v[0]]; }
  }

  // ---------- Reading ----------

  type Assignment = (string, string)

  function Given(entry: Option<Assignment>): seq<Assignment> {
    match entry
    case None => []
    case Some(e) => [e]
  }

  // The assignments among what some lines are read as.
  function Listed(entries: seq<Option<Assignment>>): seq<Assignment> {
    if entries == [] then [] else Given(entries[0]) + Listed(entries[1..])
  }

  function Entries(lines: seq<string>): seq<Option<Assignment>> {
    seq(|lines|, i requires 0 <= i < |lines| => Entry(lines[i]))
  }

  function PairsOf(line: string): seq<Assignment> { Given(Entry(line)) }

  function Pairs(lines: seq<string>): seq<Assignment> { Listed(Entries(lines)) }

  lemma PairsCons(lines: seq<string>)
    requires lines != []
    ensures Pairs(lines) == PairsOf(lines[0]) + Pairs(lines[1..])
  {
    hide Entry, Given;
    assert Entries(lines)[1..] == Entries(lines[1..]);
  }

  lemma LinePairs(line: string)
    ensures Pairs([line]) == PairsOf(line)
  {
    hide Entry, Given;
    PairsCons([line]);
    assert [line][1..] == [] && Entries([]) == [];
  }

  lemma {:induction false} ListedAppend(a: seq<Option<Assignment>>, b: seq<Option<Assignment>>)
    ensures Listed(a + b) == Listed(a) + Listed(b)
  {
    hide Given;
    if a == [] {
      assert a + b == b;
    } else {
      assert (a + b)[1..] == a[1..] + b;
      ListedAppend(a[1..], b);
    }
  }

  lemma {:induction false} ListedHas(entries: seq<Option<Assignment>>, i: nat)
    requires i < |entries| && entries[i].Some?
    ensures entries[i].value in Listed(entries)
  {
    if i > 0 { ListedHas(entries[1..], i - 1); }
  }

  lemma {:induction false} ListedFrom(entries: seq<Option<Assignment>>, e: Assignment) returns (i: nat)
    requires e in Listed(entries)
    ensures i < |entries| && entries[i] == Some(e)
  {
    if e in Given(entries[0]) {
      i := 0;
    } else {
      var j := ListedFrom(entries[1..], e);
      i := j + 1;
    }
  }

  lemma ListedOne(entry: Option<Assignment>)
    ensures Listed([entry]) == Given(entry)
  {
    hide Given;
    assert [entry][1..] == [];
    assert Listed([]) == [];
  }

  // A key given twice makes no dictionary.
  lemma {:induction false} ListedTwice(entries: seq<Option<Assignment>>, i: nat, j: nat)
    requires i < j < |entries| && entries[i].Some? && entries[j].Some? && entries[i].value.0 == entries[j].value.0
    ensures FromPairs(Listed(entries)) == None
  {
    hide FromPairs, Listed;
    var before, e, after := Listed(entries[..j]), entries[j].value, Listed(entries[j + 1..]);
    assert entries == entries[..j] + ([entries[j]] + entries[j + 1..]);
    ListedAppend(entries[..j], [entries[j]] + entries[j + 1..]);
    ListedAppend([entries[j]], entries[j + 1..]);
    ListedOne(entries[j]);
    ListedHas(entries[..j], i);
    FromPairsOne(before, e);
    if FromPairs(before).Some? { PairInMap(before, FromPairs(before).value, entries[i].value); }
    FromPairsStays(before + [e], after);
    assert before + ([e] + after) == before + [e] + after;
  }

  // The dictionary of some assignments, unless a key repeats.
  function FromPairs(ps: seq<Assignment>): Option<map<string, string>> {
    if ps == [] then Some(map[]) else
      var m := FromPairs(ps[..|ps| - 1]);
      var (k, v) := ps[|ps| - 1];
      if m.None? || k in m.value then None else Some(m.value[k := v])
  }

  function TextPairs(text: string): seq<Assignment> { Pairs(SplitLines(text)) }

  function ReadText(text: string): Option<map<string, string>> { FromPairs(TextPairs(text)) }

  lemma {:induction false} PairsAppend(a: seq<string>, b: seq<string>)
    ensures Pairs(a + b) == Pairs(a) + Pairs(b)
  {
    hide Entry, Listed;
    assert Entries(a + b) == Entries(a) + Entries(b);
    ListedAppend(Entries(a), Entries(b));
  }

  lemma {:induction false} TextPairsAppend(a: string, b: string)
    requires Separates(a, b)
    ensures TextPairs(a + b) == TextPairs(a) + TextPairs(b)
  {
    SplitAppend(a, b);
    PairsAppend(SplitLines(a), SplitLines(b));
  }

  lemma {:induction false} FromPairsStays(ps: seq<Assignment>, more: seq<Assignment>)
    requires FromPairs(ps) == None
    ensures FromPairs(ps + more) == None
  {
    if more == [] {
      assert ps + more == ps;
    } else {
      FromPairsStays(ps, more[..|more| - 1]);
      assert (ps + more)[..|ps + more| - 1] == ps + more[..|more| - 1];
    }
  }

  lemma {:induction false} FromPairsOne(ps: seq<Assignment>, e: Assignment)
    ensures FromPairs(ps + [e]) ==
      if FromPairs(ps).None? || e.0 in FromPairs(ps).value then None else Some(FromPairs(ps).value[e.0 := e.1])
  {
    assert (ps + [e])[..|ps|] == ps;
  }

  lemma {:induction false} PairsFrom(lines: seq<string>, i: nat)
    requires i < |lines|
    ensures Pairs(lines[i..]) == PairsOf(lines[i]) + Pairs(lines[i + 1..])
  {
    hide Pairs, PairsOf;
    PairsCons(lines[i..]);
    assert lines[i..][1..] == lines[i + 1..];
  }

  /** The i-th line of the text gives the key this value. */
  ghost predicate LineGives(text: string, i: int, key: string, value: string) {
    0 <= i < |SplitLines(text)| &&
    exists raw :: Assigns(Chop(SplitLines(text)[i]), key, raw) && value == DecodeValue(raw)
  }

  lemma {:induction false} LineIs(text: string, i: int)
    requires 0 <= i < |SplitLines(text)|
    ensures forall k, v :: LineGives(text, i, k, v) <==> Entry(SplitLines(text)[i]) == Some((k, v))
  {
    var line := SplitLines(text)[i];
    SameEntry(line);
    hide Entry, Chop, Assigns, DecodeValue, SplitLines;
    EntryIs(Chop(line));
  }

  ghost predicate KeyTwice(entries: seq<Option<Assignment>>) {
    exists i, j :: 0 <= i < j < |entries| && entries[i].Some? && entries[j].Some? &&
      entries[i].value.0 == entries[j].value.0
  }

  /** Entries make a dictionary unless two have the same key, and it holds exactly the entries. */
  lemma {:induction false} DictOf(entries: seq<Option<Assignment>>)
    ensures FromPairs(Listed(entries)).None? <==> KeyTwice(entries)
    ensures FromPairs(Listed(entries)).Some? ==> forall key, v ::
      Some((key, v)) in entries <==>
      key in FromPairs(Listed(entries)).value && FromPairs(Listed(entries)).value[key] == v
  {
    hide FromPairs, Listed;
    if KeyTwice(entries) {
      var i, j :| 0 <= i < j < |entries| && entries[i].Some? && entries[j].Some? &&
        entries[i].value.0 == entries[j].value.0;
      ListedTwice(entries, i, j);
    } else {
      DictMade(entries);
    }
  }

  lemma {:induction false} DictMade(entries: seq<Option<Assignment>>)
    requires !KeyTwice(entries)
    ensures FromPairs(Listed(entries)).Some?
    ensures var m := FromPairs(Listed(entries)).value;
      forall key, v :: Some((key, v)) in entries <==> key in m && m[key] == v
    decreases |entries|
  {
    if entries == [] {
      EmptyPairs();
    } else {
      var n := |entries| - 1;
      var before := Listed(entries[..n]);
      assert entries == entries[..n] + [entries[n]];
      assert !KeyTwice(entries[..n]);
      DictMade(entries[..n]);
      ListedAppend(entries[..n], [entries[n]]);
      ListedOne(entries[n]);
      hide FromPairs, Listed;
      if entries[n].None? {
        assert before + [] == before;
      } else {
        FromPairsOne(before, entries[n].value);
        NewKey(entries, FromPairs(before).value);
      }
    }
  }

  lemma {:induction false} NewKey(entries: seq<Option<Assignment>>, m: map<string, string>)
    requires entries != [] && entries[|entries| - 1].Some?
    requires forall key, v :: Some((key, v)) in entries[..|entries| - 1] <==> key in m && m[key] == v
    ensures entries[|entries| - 1].value.0 in m ==> KeyTwice(entries)
  {
    var n, key := |entries| - 1, entries[|entries| - 1].value.0;
    if key in m {
      assert Some((key, m[key])) in entries[..n];
      var i :| 0 <= i < n && entries[..n][i] == Some((key, m[key]));
      assert entries[i] == Some((key, m[key]));
    }
  }

  ghost predicate Gives(text: string, key: string, value: string) { exists i :: LineGives(text, i, key, value) }

  ghost predicate GivesTwice(text: string) {
    exists i, j, key, v, v' :: i < j && LineGives(text, i, key, v) && LineGives(text, j, key, v')
  }

  /** The dictionary holds exactly what the lines give, and there is none exactly when two lines give
      the same key. */
  lemma {:induction false} DictionaryIs(text: string)
    ensures ReadText(text).None? <==> GivesTwice(text)
    ensures ReadText(text).Some? ==>
      forall key, v :: Gives(text, key, v) <==> key in ReadText(text).value && ReadText(text).value[key] == v
  {
    DictOf(Entries(SplitLines(text)));
    hide FromPairs, Listed, Entry, SplitLines, LineGives;
    forall i | 0 <= i < |SplitLines(text)|
      ensures forall k, v :: LineGives(text, i, k, v) <==> Entries(SplitLines(text))[i] == Some((k, v))
    {
      LineIs(text, i);
    }
    LineInText(text);
    hide Gives, GivesTwice;
    GivesEntry(text);
    TwiceEntry(text);
  }

  lemma LineInText(text: string)
    ensures forall i, k, v :: LineGives(text, i, k, v) ==> 0 <= i < |SplitLines(text)|
  {
  }

  lemma LineIn(text: string, i: int, key: string, v: string)
    requires LineGives(text, i, key, v)
    ensures 0 <= i < |SplitLines(text)| && Entry(SplitLines(text)[i]) == Some((key, v))
  {
    LineIs(text, i);
  }

  lemma {:induction false} GivesEntry(text: string)
    ensures forall k, v :: Gives(text, k, v) <==> Some((k, v)) in Entries(SplitLines(text))
  {
    var entries := Entries(SplitLines(text));
    hide Entry, LineGives, SplitLines;
    forall k, v ensures Gives(text, k, v) <==> Some((k, v)) in entries {
      if Gives(text, k, v) {
        var i :| LineGives(text, i, k, v);
        LineIn(text, i, k, v);
        assert entries[i] == Some((k, v));
      }
      if Some((k, v)) in entries {
        var i :| 0 <= i < |entries| && entries[i] == Some((k, v));
        LineIs(text, i);
      }
    }
  }

  lemma {:induction false} TwiceEntry(text: string)
    ensures GivesTwice(text) <==> KeyTwice(Entries(SplitLines(text)))
  {
    var entries := Entries(SplitLines(text));
    hide Entry, LineGives, SplitLines;
    if GivesTwice(text) {
      var i, j, key, v, v' :| i < j && LineGives(text, i, key, v) && LineGives(text, j, key, v');
      LineIn(text, i, key, v);
      LineIn(text, j, key, v');
      assert entries[i] == Some((key, v)) && entries[j] == Some((key, v'));
    }
    if KeyTwice(entries) {
      var i, j :| 0 <= i < j < |entries| && entries[i].Some? && entries[j].Some? &&
        entries[i].value.0 == entries[j].value.0;
      LineIs(text, i);
      LineIs(text, j);
      assert LineGives(text, i, entries[i].value.0, entries[i].value.1);
      assert LineGives(text, j, entries[j].value.0, entries[j].value.1);
    }
  }

  /** `read_env_assignments` on the file's text. */
  method ReadEnvAssignments(text: string) returns (r: Result<map<string, string>, ConfigError>)
    ensures r.Ok? ==> forall key, v :: Gives(text, key, v) <==> key in r.value && r.value[key] == v
    ensures r.Err? <==> GivesTwice(text)
    ensures r.Ok? ==> Some(r.value) == ReadText(text)
    ensures r.Err? <==> ReadText(text).None?
    ensures r.Err? ==> r.error.Duplicate?
  {
    var values: map<string, string> := map[];
    var lines := SplitLines(text);
    ghost var done: seq<Assignment> := [];
    var i := 0;
    assert lines[0..] == lines;
    EmptyPairs();
    hide *;
    while i < |lines|
      invariant i <= |lines| && FromPairs(done) == Some(values)
      invariant Pairs(lines) == done + Pairs(lines[i..])
    {
      SameEntry(lines[i]);
      PairsFrom(lines, i);
      ReadOne(done, values, lines[i], Pairs(lines[i + 1..]));
      var entry := Entry(Chop(lines[i]));
      if entry.Some? {
        var (key, value) := entry.value;
        if key in values {
          ReadAll(text, lines);
          return Err(Duplicate(key));
        }
        values := values[key := value];
      }
      done := done + PairsOf(lines[i]);
      i := i + 1;
    }
    assert lines[i..] == [];
    assert done + [] == done;
    ReadAll(text, lines);
    r := Ok(values);
  }

  lemma {:induction false} ReadAll(text: string, lines: seq<string>)
    requires lines == SplitLines(text)
    ensures ReadText(text) == FromPairs(Pairs(lines))
    ensures ReadText(text).None? <==> GivesTwice(text)
    ensures ReadText(text).Some? ==>
      forall key, v :: Gives(text, key, v) <==> key in ReadText(text).value && ReadText(text).value[key] == v
  {
    DictionaryIs(text);
  }

  lemma {:induction false} ReadOne(done: seq<Assignment>, values: map<string, string>, line: string,
                                   rest: seq<Assignment>)
    requires FromPairs(done) == Some(values)
    ensures done + (PairsOf(line) + rest) == done + PairsOf(line) + rest
    ensures Entry(line).None? ==> FromPairs(done + PairsOf(line)) == Some(values)
    ensures Entry(line).Some? ==> var (k, v) := Entry(line).value;
      if k in values then FromPairs(done + (PairsOf(line) + rest)) == None
      else FromPairs(done + PairsOf(line)) == Some(values[k := v])
  {
    hide Entry;
    if Entry(line).Some? {
      FromPairsOne(done, Entry(line).value);
      if Entry(line).value.0 in values { FromPairsStays(done + PairsOf(line), rest); }
    } else {
      assert done + [] == done;
    }
    assert done + (PairsOf(line) + rest) == done + PairsOf(line) + rest;
  }

  lemma EmptyPairs()
    ensures Pairs([]) == [] && FromPairs([]) == Some(map[])
  {
  }

  // ---------- Rendering ----------

  /** A Python dictionary of updates: its keys in order, and its values. */
  datatype Updates = Updates(keys: seq<string>, values: map<string, string>)

  ghost predicate IsDict(u: Updates) {
    && (forall k :: k in u.keys <==> k in u.values)
    && (forall i, j :: 0 <= i < j < |u.keys| ==> u.keys[i] != u.keys[j])
  }

  predicate SingleLine(v: string) { '\U{0}' !in v && '\r' !in v && '\n' !in v }

  // `_validate_value`, none when the value is accepted.
  function ValueError(key: string, v: string): Option<ConfigError> {
    if !SingleLine(v) then Some(NotSingleLine(key))
    else if v != Strip(v) then Some(EdgeSpace(key)) else None
  }

  predicate ValidValue(v: string) { SingleLine(v) && v == Strip(v) }

  ghost predicate ValidValues(u: Updates) {
    forall k :: k in u.values ==> ValidValue(u.values[k])
  }

  function KeyOf(line: string): Option<string> {
    match Entry(line)
    case None => None
    case Some((k, _)) => Some(k)
  }

  // The updated key a line assigns, if any.
  function Target(u: map<string, string>, line: string): Option<string> {
    if KeyOf(line).Some? && KeyOf(line).value in u then KeyOf(line) else None
  }

  // No two of the first `n` lines assign the same updated key.
  ghost predicate RepeatFree(u: map<string, string>, lines: seq<string>, n: nat)
    requires n <= |lines|
  {
    forall i, j :: 0 <= i < j < n && Target(u, lines[i]).Some? ==> Target(u, lines[i]) != Target(u, lines[j])
  }

  // The first line that assigns an updated key again assigns `key`.
  ghost predicate Repeats(u: map<string, string>, lines: seq<string>, key: string) {
    exists i, j :: 0 <= i < j < |lines| && RepeatFree(u, lines, j) &&
      Target(u, lines[i]) == Some(key) && Target(u, lines[j]) == Some(key)
  }

  predicate UsesCrLf(text: string) {
    exists i :: 0 <= i < |text| - 1 && text[i] == '\r' && text[i + 1] == '\n'
  }

  function Newline(text: string): string { if UsesCrLf(text) then "\r\n" else "\n" }

  function Eol(line: string): string { line[|Content(line)|..] }

  function Written(key: string, value: string, eol: string): string { key + "=" + value + eol }

  function Rewritten(u: map<string, string>, newline: string, line: string): string {
    var e := Entry(line);
    if e.None? || e.value.0 !in u || e.value.1 == u[e.value.0] then line
    else Written(e.value.0, u[e.value.0], if Eol(line) == "" then newline else Eol(line))
  }

  function RewriteLines(u: map<string, string>, newline: string, lines: seq<string>): seq<string> {
    seq(|lines|, i requires 0 <= i < |lines| => Rewritten(u, newline, lines[i]))
  }

  function Targets(u: map<string, string>, lines: seq<string>): set<string> {
    set i | 0 <= i < |lines| && Target(u, lines[i]).Some? :: Target(u, lines[i]).value
  }

  function Missing(keys: seq<string>, seen: set<string>): seq<string> {
    if keys == [] then [] else (if keys[0] in seen then [] else [keys[0]]) + Missing(keys[1..], seen)
  }

  function Appended(keys: seq<string>, values: map<string, string>, newline: string): seq<string>
    requires forall i :: 0 <= i < |keys| ==> keys[i] in values
  {
    seq(|keys|, i requires 0 <= i < |keys| => Written(keys[i], values[keys[i]], newline))
  }

  // The last line gains a newline unless it ends in one.
  function Close(lines: seq<string>, newline: string): seq<string> {
    if lines == [] || EndsLine(lines[|lines| - 1]) then lines
    else lines[..|lines| - 1] + [lines[|lines| - 1] + newline]
  }

  predicate EndsLine(line: string) {
    line != "" && line[|line| - 1] in {'\n', '\r'}
  }

  lemma {:induction false} MissingAre(keys: seq<string>, seen: set<string>)
    ensures forall k :: k in Missing(keys, seen) <==> k in keys && k !in seen
  {
    if keys != [] { MissingAre(keys[1..], seen); }
  }

  // The lines of the edited text, in order.
  ghost function RenderLines(u: Updates, text: string): seq<string>
    requires IsDict(u)
  {
    var newline, lines := Newline(text), SplitLines(text);
    var body := RewriteLines(u.values, newline, lines);
    var missing := Missing(u.keys, Targets(u.values, lines));
    MissingAre(u.keys, Targets(u.values, lines));
    if missing == [] then body else Close(body, newline) + Appended(missing, u.values, newline)
  }

  ghost function Rendered(u: Updates, text: string): string
    requires IsDict(u)
  {
    Join(RenderLines(u, text))
  }

  // ---------- How the edited text splits ----------

  lemma {:induction false} ContentCons(c: char, r: string)
    requires c != '\r' && c != '\n'
    ensures Content([c] + r) == [c] + Content(r)
  {
    if r != "" && (r[|r| - 1] == '\n' || r[|r| - 1] == '\r') {
      ContentCons(c, r[..|r| - 1]);
      assert ([c] + r)[..|r|] == [c] + r[..|r| - 1];
    } else if r == "" {
      assert [c] + r == [c];
    }
  }

  lemma {:induction false} EolOfLine(line: string)
    requires IsLine(line)
    ensures Eol(line) in {"", "\n", "\r\n", "\r"}
    ensures line[|line| - 1] == '\r' <==> Eol(line) == "\r"
  {
    if IsBreak(line[0]) || |line| == 1 {
      if |line| == 2 {
        assert line[..1] == "\r" && line[..1][..0] == "";
        assert line[0..] == line == "\r\n";
      } else {
        assert line[..0] == "" && line[0..] == line == [line[0]] && line[1..] == "";
      }
    } else {
      var c, r := line[0], line[1..];
      EolOfLine(r);
      ContentCons(c, r);
      assert line == [c] + r;
    }
  }

  lemma {:induction false} UnbrokenParts(key: string, value: string)
    requires IsIdentifier(key) && NoBreaks(value)
    ensures NoBreaks(key + "=" + value)
  {
    IdentUnbroken(key);
  }

  lemma {:induction false} PartUnbroken(s: string)
    requires PartLength(s) == |s|
    ensures forall i :: 0 <= i < |s| ==> IdentPart(s[i]) && !IsSpace(s[i])
  {
    if s != "" { PartUnbroken(s[1..]); }
  }

  lemma {:induction false} IdentUnbroken(key: string)
    requires IsIdentifier(key)
    ensures NoBreaks(key) && forall i :: 0 <= i < |key| ==> IdentPart(key[i]) && !IsSpace(key[i])
  {
    PartUnbroken(key[1..]);
  }

  lemma {:induction false} PartLengthPrefix(s: string)
    ensures PartLength(s[..PartLength(s)]) == PartLength(s)
  {
    if s != "" && IdentPart(s[0]) {
      PartLengthPrefix(s[1..]);
      assert s[..PartLength(s)][1..] == s[1..][..PartLength(s[1..])];
    }
  }

  lemma {:induction false} KeyIsIdentifier(s: string)
    requires KeyEquals(s).Some?
    ensures IsIdentifier(KeyEquals(s).value.0)
  {
    var n := IdentLength(s);
    PartLengthPrefix(s[1..]);
    assert s[..n][1..] == s[1..][..n - 1];
  }

  /** Every key that is read is an identifier. */
  lemma {:induction false} EntryKey(line: string)
    requires Entry(line).Some?
    ensures IsIdentifier(Entry(line).value.0)
  {
    hide Entry, IsKey;
    EntryIs(line);
    KeyIs(Entry(line).value.0);
  }

  lemma {:induction false} PartLengthStop(s: string, rest: string)
    requires PartLength(s) == |s| && rest != "" && !IdentPart(rest[0])
    ensures PartLength(s + rest) == |s|
  {
    if s == "" {
      assert s + rest == rest;
    } else {
      PartLengthStop(s[1..], rest);
      assert (s + rest)[1..] == s[1..] + rest;
    }
  }

  /** A line `key=raw` assigns exactly that. */
  lemma {:induction false} WrittenEntry(key: string, raw: string)
    requires IsIdentifier(key)
    ensures Entry(key + "=" + raw) == Some((key, DecodeValue(raw)))
  {
    hide Entry, DecodeValue;
    KeyIs(key);
    EntryIs(key + "=" + raw);
    AssignsIt("", "", key, "", raw);
    assert key + "=" + raw == "" + "" + key + "" + "=" + raw;
  }

  predicate Changed(u: map<string, string>, line: string) {
    Entry(line).Some? && Entry(line).value.0 in u && Entry(line).value.1 != u[Entry(line).value.0]
  }

  // A line is not rewritten with a value that holds a line boundary.
  predicate SafeLine(u: map<string, string>, line: string) {
    Changed(u, line) ==> NoBreaks(u[Entry(line).value.0])
  }

  ghost predicate SafeChanges(u: map<string, string>, lines: seq<string>) {
    forall i :: 0 <= i < |lines| ==> SafeLine(u, lines[i])
  }

  predicate IsNewline(s: string) { s == "\n" || s == "\r\n" }

  ghost function RewriteText(u: map<string, string>, newline: string, t: string): string {
    Join(RewriteLines(u, newline, SplitLines(t)))
  }

  lemma {:induction false} RewriteFirst(u: map<string, string>, newline: string, t: string)
    requires t != ""
    ensures var n := LineLength(t);
      && RewriteText(u, newline, t) == Rewritten(u, newline, t[..n]) + RewriteText(u, newline, t[n..])
      && RewriteLines(u, newline, SplitLines(t)) ==
           [Rewritten(u, newline, t[..n])] + RewriteLines(u, newline, SplitLines(t[n..]))
  {
    hide Rewritten;
    var n := LineLength(t);
    var rest := RewriteLines(u, newline, SplitLines(t[n..]));
    var all := RewriteLines(u, newline, SplitLines(t));
    assert all == [Rewritten(u, newline, t[..n])] + rest;
    assert all[1..] == rest;
  }

  // What rewriting keeps of a line's shape.
  ghost predicate KeepsShape(line: string, line': string) {
    && line' != ""
    && (Terminated(line) ==> Terminated(line'))
    && (line'[|line'| - 1] == '\r' ==> line != "" && line[|line| - 1] == '\r')
    && (line'[0] == '\n' ==> line != "" && line[0] == '\n')
  }

  lemma {:induction false} RewrittenShape(u: map<string, string>, newline: string, line: string)
    requires IsLine(line) && IsNewline(newline)
    ensures KeepsShape(line, Rewritten(u, newline, line))
    ensures Changed(u, line) ==> Terminated(Rewritten(u, newline, line))
  {
    hide Entry, Content, IsIdentifier;
    if Changed(u, line) {
      EolOfLine(line);
      EntryKey(line);
      var k := Entry(line).value.0;
      assert k != "" && k[0] != '\n' by { IdentStartsPlain(k); }
    }
  }

  lemma {:induction false} IdentStartsPlain(k: string)
    requires IsIdentifier(k)
    ensures k != "" && k[0] != '\n'
  {
  }

  lemma {:induction false} RewrittenIsLine(u: map<string, string>, newline: string, line: string)
    requires IsLine(line) && IsNewline(newline) && SafeLine(u, line)
    ensures IsLine(Rewritten(u, newline, line))
  {
    hide Entry, Content, IsIdentifier;
    if Changed(u, line) {
      var k := Entry(line).value.0;
      EolOfLine(line);
      EntryKey(line);
      UnbrokenParts(k, u[k]);
      SplitOneLine(k + "=" + u[k], if Eol(line) == "" then newline else Eol(line));
    }
  }

  // Rewriting starts a text as the original does, or with a key.
  lemma {:induction false} RewriteStart(u: map<string, string>, newline: string, t: string)
    requires t != "" && IsNewline(newline)
    ensures RewriteText(u, newline, t) != ""
    ensures RewriteText(u, newline, t)[0] == '\n' ==> t[0] == '\n'
  {
    hide Rewritten, RewriteText;
    FirstLineIsLine(t);
    RewriteFirst(u, newline, t);
    RewrittenShape(u, newline, t[..LineLength(t)]);
  }

  // A rewritten line is separated from the rewritten rest, whatever follows that.
  lemma {:induction false} RewriteSeparates(u: map<string, string>, newline: string, t: string, after: string)
    requires t != "" && IsNewline(newline) && LineLength(t) < |t|
    ensures Separates(Rewritten(u, newline, t[..LineLength(t)]), RewriteText(u, newline, t[LineLength(t)..]) + after)
  {
    hide Rewritten, RewriteText;
    var n := LineLength(t);
    FirstLineIsLine(t);
    RewrittenShape(u, newline, t[..n]);
    RewriteStart(u, newline, t[n..]);
  }

  /** The rewritten text splits into the rewritten lines. */
  lemma {:induction false} SplitRewrite(u: map<string, string>, newline: string, t: string)
    requires IsNewline(newline) && SafeChanges(u, SplitLines(t))
    ensures SplitLines(RewriteText(u, newline, t)) == RewriteLines(u, newline, SplitLines(t))
    decreases |t|
  {
    hide Rewritten, RewriteText, SafeLine;
    if t == "" {
      assert RewriteText(u, newline, t) == "" by { EmptyRewrite(u, newline); }
    } else {
      var n := LineLength(t);
      var first, rest := Rewritten(u, newline, t[..n]), t[n..];
      FirstLineIsLine(t);
      RewriteFirst(u, newline, t);
      assert SplitLines(t)[0] == t[..n];
      RewrittenIsLine(u, newline, t[..n]);
      SplitIsLine(first);
      forall i | 0 <= i < |SplitLines(rest)| ensures SafeLine(u, SplitLines(rest)[i]) {
        assert SplitLines(t)[i + 1] == SplitLines(rest)[i];
      }
      SplitRewrite(u, newline, rest);
      if rest == "" {
        EmptyRewrite(u, newline);
        assert first + "" == first;
      } else {
        RewriteSeparates(u, newline, t, "");
        assert RewriteText(u, newline, rest) + "" == RewriteText(u, newline, rest);
        SplitAppend(first, RewriteText(u, newline, rest));
      }
    }
  }

  lemma EmptyRewrite(u: map<string, string>, newline: string)
    ensures RewriteText(u, newline, "") == "" && SplitLines("") == []
    ensures RewriteLines(u, newline, []) == []
  {
  }

  // ---------- What the edited text reads as ----------

  function Override(u: map<string, string>, ps: seq<Assignment>): seq<Assignment> {
    seq(|ps|, i requires 0 <= i < |ps| => if ps[i].0 in u then (ps[i].0, u[ps[i].0]) else ps[i])
  }

  // A changed line gets a value that reads back as itself.
  predicate PlainLine(u: map<string, string>, line: string) {
    Changed(u, line) ==> NoBreaks(u[Entry(line).value.0]) && !Wrapped(u[Entry(line).value.0])
  }

  lemma {:induction false} EntryOfWritten(key: string, v: string, eol: string)
    requires IsIdentifier(key) && ValidValue(v) && (IsNewline(eol) || eol == "\r")
    ensures Entry(Written(key, v, eol)) == Some((key, if Wrapped(v) then v[1..|v| - 1] else v))
  {
    hide Entry, Strip, IsIdentifier;
    EntryTail(key + "=" + v, eol);
    WrittenEntry(key, v);
  }

  lemma {:induction false} PairsOfRewritten(u: map<string, string>, newline: string, line: string)
    requires IsLine(line) && IsNewline(newline) && PlainLine(u, line)
    requires forall k :: k in u ==> ValidValue(u[k])
    ensures PairsOf(Rewritten(u, newline, line)) == Override(u, PairsOf(line))
  {
    hide Entry, Content, ValidValue, Written;
    if Changed(u, line) {
      EolOfLine(line);
      EntryKey(line);
      var k := Entry(line).value.0;
      EntryOfWritten(k, u[k], if Eol(line) == "" then newline else Eol(line));
    }
  }

  lemma {:induction false} RewriteCons(u: map<string, string>, newline: string, lines: seq<string>)
    requires lines != []
    ensures RewriteLines(u, newline, lines)[0] == Rewritten(u, newline, lines[0])
    ensures RewriteLines(u, newline, lines)[1..] == RewriteLines(u, newline, lines[1..])
  {
    hide Rewritten;
  }

  lemma {:induction false} OverrideAppend(u: map<string, string>, a: seq<Assignment>, b: seq<Assignment>)
    ensures Override(u, a + b) == Override(u, a) + Override(u, b)
  {
  }

  lemma {:induction false} PairsOfLines(u: map<string, string>, newline: string, lines: seq<string>)
    requires IsNewline(newline) && forall k :: k in u ==> ValidValue(u[k])
    requires forall i :: 0 <= i < |lines| ==> IsLine(lines[i]) && PlainLine(u, lines[i])
    ensures Pairs(RewriteLines(u, newline, lines)) == Override(u, Pairs(lines))
  {
    hide PairsOf, Rewritten, PlainLine, ValidValue, IsLine;
    if lines != [] {
      PairsCons(lines);
      PairsCons(RewriteLines(u, newline, lines));
      PairsOfRewritten(u, newline, lines[0]);
      PairsOfLines(u, newline, lines[1..]);
      RewriteCons(u, newline, lines);
      OverrideAppend(u, PairsOf(lines[0]), Pairs(lines[1..]));
    }
  }

  function OverrideMap(u: map<string, string>, m: map<string, string>): map<string, string> {
    map k | k in m :: if k in u then u[k] else m[k]
  }

  lemma {:induction false} FromOverride(u: map<string, string>, ps: seq<Assignment>)
    ensures FromPairs(ps).None? ==> FromPairs(Override(u, ps)).None?
    ensures FromPairs(ps).Some? ==> FromPairs(Override(u, ps)) == Some(OverrideMap(u, FromPairs(ps).value))
  {
    if ps != [] {
      var n := |ps| - 1;
      var (k, v) := ps[n];
      FromOverride(u, ps[..n]);
      assert Override(u, ps)[..n] == Override(u, ps[..n]);
      if FromPairs(ps[..n]).Some? {
        var m := FromPairs(ps[..n]).value;
        assert OverrideMap(u, m[k := v]) == OverrideMap(u, m)[k := if k in u then u[k] else v];
      }
    }
  }

  // Terminating a text's last line changes nothing it reads as.
  lemma {:induction false} CloseText(t: string, newline: string)
    requires IsNewline(newline) && (t == "" || t[|t| - 1] != '\r')
    ensures TextPairs(t + newline) == TextPairs(t)
    decreases |t|
  {
    hide Entry;
    BlankPairs(newline);
    if t == "" {
      assert t + newline == newline;
    } else {
      var n := LineLength(t);
      var l, rest := t[..n], t[n..];
      FirstLineIsLine(t);
      assert t == l + rest && t + newline == l + (rest + newline);
      if rest != "" {
        CloseText(rest, newline);
        TextPairsAppend(l, rest + newline);
        TextPairsAppend(l, rest);
      } else if Terminated(t) {
        TextPairsAppend(t, newline);
        assert TextPairs(t) + [] == TextPairs(t);
      } else {
        OpenLine(t, newline);
      }
    }
  }

  lemma {:induction false} BlankPairs(newline: string)
    requires IsNewline(newline)
    ensures TextPairs(newline) == [] && TextPairs("") == []
  {
    assert "" + newline == newline;
    SplitOneLine("", newline);
    EntryTail("", newline);
    LinePairs(newline);
  }

  lemma {:induction false} OpenLine(t: string, newline: string)
    requires t != "" && LineLength(t) == |t| && !Terminated(t) && IsNewline(newline)
    ensures TextPairs(t + newline) == TextPairs(t)
  {
    hide Entry;
    SplitIsLine(t);
    UnterminatedPlain(t);
    SplitOneLine(t, newline);
    EntryTail(t, newline);
    LinePairs(t + newline);
    LinePairs(t);
  }

  lemma {:induction false} UnterminatedPlain(t: string)
    requires t != "" && LineLength(t) == |t| && !Terminated(t)
    ensures NoBreaks(t)
  {
    if |t| > 1 {
      assert t[1..][|t| - 2] == t[|t| - 1];
      UnterminatedPlain(t[1..]);
    }
  }

  // The pairs that appended lines are read as.
  function Added(keys: seq<string>, values: map<string, string>): seq<Assignment>
    requires forall i :: 0 <= i < |keys| ==> keys[i] in values
  {
    seq(|keys|, i requires 0 <= i < |keys| => (keys[i], values[keys[i]]))
  }

  predicate PlainValue(v: string) { NoBreaks(v) && !Wrapped(v) && ValidValue(v) }

  lemma {:induction false} PairsOfAppended(keys: seq<string>, values: map<string, string>, newline: string)
    requires IsNewline(newline)
    requires forall i :: 0 <= i < |keys| ==> keys[i] in values && IsIdentifier(keys[i]) && PlainValue(values[keys[i]])
    ensures TextPairs(Join(Appended(keys, values, newline))) == Added(keys, values)
  {
    hide IsIdentifier, PlainValue, Written, TextPairs;
    if keys == [] {
      BlankPairs(newline);
    } else {
      var first := Written(keys[0], values[keys[0]], newline);
      var rest := Appended(keys[1..], values, newline);
      assert Appended(keys, values, newline)[1..] == rest;
      PairsOfAppended(keys[1..], values, newline);
      AppendedLine(keys[0], values[keys[0]], newline);
      TextPairsAppend(first, Join(rest));
    }
  }

  lemma {:induction false} AppendedLine(key: string, v: string, newline: string)
    requires IsNewline(newline) && IsIdentifier(key) && PlainValue(v)
    ensures TextPairs(Written(key, v, newline)) == [(key, v)]
    ensures forall b :: Separates(Written(key, v, newline), b)
  {
    hide Entry, IsIdentifier;
    UnbrokenParts(key, v);
    SplitOneLine(key + "=" + v, newline);
    EntryOfWritten(key, v, newline);
    var l := Written(key, v, newline);
    LinePairs(l);
  }

  // Fresh distinct keys extend the dictionary.
  ghost predicate Extends(big: map<string, string>, m: map<string, string>, keys: seq<string>,
                          values: map<string, string>) {
    && (forall k :: k in big <==> k in m || k in keys)
    && (forall k :: k in m ==> k in big && big[k] == m[k])
    && (forall k :: k in keys ==> k in values && k in big && big[k] == values[k])
  }

  lemma {:induction false} ExtendOne(big: map<string, string>, m: map<string, string>, keys: seq<string>,
                                     values: map<string, string>, key: string)
    requires Extends(big, m, keys, values) && key in values && key !in m && key !in keys
    ensures key !in big && Extends(big[key := values[key]], m, keys + [key], values)
  {
  }

  lemma {:induction false} FromAdded(ps: seq<Assignment>, m: map<string, string>, keys: seq<string>,
                                     values: map<string, string>)
    requires FromPairs(ps) == Some(m)
    requires forall i :: 0 <= i < |keys| ==> keys[i] in values && keys[i] !in m
    requires forall i, j :: 0 <= i < j < |keys| ==> keys[i] != keys[j]
    ensures FromPairs(ps + Added(keys, values)).Some?
    ensures Extends(FromPairs(ps + Added(keys, values)).value, m, keys, values)
  {
    hide FromPairs, Extends;
    if keys == [] {
      assert ps + Added(keys, values) == ps;
      ExtendNone(m, values);
    } else {
      var n := |keys| - 1;
      FromAdded(ps, m, keys[..n], values);
      FromPairsOne(ps + Added(keys[..n], values), (keys[n], values[keys[n]]));
      assert ps + Added(keys, values) == ps + Added(keys[..n], values) + [(keys[n], values[keys[n]])];
      ExtendOne(FromPairs(ps + Added(keys[..n], values)).value, m, keys[..n], values, keys[n]);
      assert keys == keys[..n] + [keys[n]];
    }
  }

  lemma ExtendNone(m: map<string, string>, values: map<string, string>)
    ensures Extends(m, m, [], values)
  {
  }

  /** The condition under which an update takes effect as asked: its key is an identifier, and
      either it is already read as the new value, or the value survives quoting and splitting. */
  predicate Settles(m: map<string, string>, u: Updates, k: string)
    requires k in u.values
  {
    IsIdentifier(k) &&
    ((k in m && m[k] == u.values[k]) || (NoBreaks(u.values[k]) && !Wrapped(u.values[k])))
  }

  lemma {:induction false} PairInMap(ps: seq<Assignment>, m: map<string, string>, e: Assignment)
    requires FromPairs(ps) == Some(m) && e in ps
    ensures e.0 in m && m[e.0] == e.1
  {
    var n := |ps| - 1;
    assert ps == ps[..n] + [ps[n]];
    if e in ps[..n] { PairInMap(ps[..n], FromPairs(ps[..n]).value, e); }
  }

  lemma {:induction false} MapFromPairs(ps: seq<Assignment>, m: map<string, string>, k: string)
    requires FromPairs(ps) == Some(m) && k in m
    ensures (k, m[k]) in ps
  {
    var n := |ps| - 1;
    assert ps == ps[..n] + [ps[n]];
    if ps[n].0 != k { MapFromPairs(ps[..n], FromPairs(ps[..n]).value, k); }
  }

  lemma {:induction false} PairOfLine(lines: seq<string>, i: nat)
    requires i < |lines| && Entry(lines[i]).Some?
    ensures Entry(lines[i]).value in Pairs(lines)
  {
    hide Entry;
    ListedHas(Entries(lines), i);
  }

  lemma {:induction false} LineOfPair(lines: seq<string>, e: Assignment) returns (i: nat)
    requires e in Pairs(lines)
    ensures i < |lines| && Entry(lines[i]) == Some(e)
  {
    hide Entry;
    i := ListedFrom(Entries(lines), e);
  }

  // The updated keys found in the text are those it is read to assign.
  lemma {:induction false} TargetsAre(u: map<string, string>, lines: seq<string>, m: map<string, string>)
    requires FromPairs(Pairs(lines)) == Some(m)
    ensures forall k :: k in Targets(u, lines) <==> k in u && k in m
  {
    hide Entry, FromPairs, Pairs;
    forall i | 0 <= i < |lines| && Target(u, lines[i]).Some? ensures Target(u, lines[i]).value in m {
      PairOfLine(lines, i);
      PairInMap(Pairs(lines), m, Entry(lines[i]).value);
    }
    forall k | k in u && k in m ensures k in Targets(u, lines) {
      MapFromPairs(Pairs(lines), m, k);
      var i := LineOfPair(lines, (k, m[k]));
      assert Target(u, lines[i]) == Some(k);
    }
  }

  lemma {:induction false} ChangesArePlain(u: Updates, text: string, m: map<string, string>, i: nat)
    requires i < |SplitLines(text)| && ReadText(text) == Some(m)
    requires forall k :: k in u.values ==> Settles(m, u, k)
    ensures PlainLine(u.values, SplitLines(text)[i]) && SafeLine(u.values, SplitLines(text)[i])
  {
    hide Entry, FromPairs, Pairs, IsIdentifier;
    var line := SplitLines(text)[i];
    if Changed(u.values, line) {
      PairOfLine(SplitLines(text), i);
      PairInMap(TextPairs(text), m, Entry(line).value);
      assert Settles(m, u, Entry(line).value.0);
    }
  }

  lemma {:induction false} RewriteReads(u: Updates, text: string, newline: string, m: map<string, string>)
    requires ValidValues(u) && ReadText(text) == Some(m) && IsNewline(newline)
    requires forall k :: k in u.values ==> Settles(m, u, k)
    ensures ReadText(RewriteText(u.values, newline, text)) == Some(OverrideMap(u.values, m))
  {
    hide RewriteText, RewriteLines, PlainLine, SafeLine, Settles, Pairs, FromPairs, ValidValue, IsLine;
    var lines := SplitLines(text);
    forall i | 0 <= i < |lines|
      ensures IsLine(lines[i]) && PlainLine(u.values, lines[i]) && SafeLine(u.values, lines[i])
    {
      SplitGivesLines(text, i);
      ChangesArePlain(u, text, m, i);
    }
    SplitRewrite(u.values, newline, text);
    PairsOfLines(u.values, newline, lines);
    FromOverride(u.values, Pairs(lines));
  }

  lemma {:induction false} JoinLast(lines: seq<string>)
    requires lines != [] && lines[|lines| - 1] != ""
    ensures Join(lines) != "" && Join(lines)[|Join(lines)| - 1] == lines[|lines| - 1][|lines[|lines| - 1]| - 1]
  {
    hide Join;
    var n := |lines| - 1;
    assert lines == lines[..n] + [lines[n]];
    JoinAppend(lines[..n], [lines[n]]);
    JoinOne(lines[n]);
  }

  // Closing the last line: the joined text may gain the newline, and reads the same.
  lemma {:induction false} CloseJoin(lines: seq<string>, newline: string) returns (extra: string)
    requires IsNewline(newline) && forall i :: 0 <= i < |lines| ==> lines[i] != ""
    ensures extra in {"", newline} && Join(Close(lines, newline)) == Join(lines) + extra
    ensures TextPairs(Join(lines) + extra) == TextPairs(Join(lines))
    ensures Join(lines) + extra == "" || Terminated(Join(lines) + extra)
    ensures extra == newline <==> Join(lines) != "" && !EndsLine(Join(lines))
  {
    hide TextPairs;
    if lines == [] {
      extra := "";
    } else {
      hide Join;
      JoinLast(lines);
      var n := |lines| - 1;
      if EndsLine(lines[n]) {
        extra := "";
        assert Join(lines) + "" == Join(lines);
      } else {
        extra := newline;
        assert lines == lines[..n] + [lines[n]];
        JoinEnded(lines[..n], lines[n], newline);
        CloseText(Join(lines), newline);
      }
    }
  }

  lemma {:induction false} JoinEnded(before: seq<string>, last: string, newline: string)
    ensures Join(before + [last + newline]) == Join(before + [last]) + newline
  {
    hide Join;
    JoinAppend(before, [last + newline]);
    JoinAppend(before, [last]);
    JoinOne(last + newline);
    JoinOne(last);
  }

  lemma JoinOne(l: string)
    ensures Join([l]) == l
  {
    assert l + "" == l;
  }

  lemma {:induction false} MissingDistinct(u: Updates, seen: set<string>)
    requires IsDict(u)
    ensures var ks := Missing(u.keys, seen);
      forall i, j :: 0 <= i < j < |ks| ==> ks[i] != ks[j]
  {
    MissingFrom(u.keys, seen);
  }

  lemma {:induction false} MissingFrom(keys: seq<string>, seen: set<string>)
    requires forall i, j :: 0 <= i < j < |keys| ==> keys[i] != keys[j]
    ensures var ks := Missing(keys, seen);
      forall i, j :: 0 <= i < j < |ks| ==> ks[i] != ks[j]
  {
    if keys != [] {
      var r := Missing(keys[1..], seen);
      MissingFrom(keys[1..], seen);
      MissingAre(keys[1..], seen);
      if keys[0] !in seen {
        MissingStep(keys, seen);
        forall i | 0 <= i < |r| ensures r[i] != keys[0] {
          assert r[i] in r && r[i] in keys[1..];
        }
        Prepended(keys[0], r);
      } else {
        assert [] + r == r;
      }
    }
  }

  lemma MissingStep(keys: seq<string>, seen: set<string>)
    requires keys != [] && keys[0] !in seen
    ensures Missing(keys, seen) == [keys[0]] + Missing(keys[1..], seen)
  {
  }

  lemma Prepended(k: string, r: seq<string>)
    requires forall i, j :: 0 <= i < j < |r| ==> r[i] != r[j]
    requires forall i :: 0 <= i < |r| ==> r[i] != k
    ensures var ks := [k] + r; forall i, j :: 0 <= i < j < |ks| ==> ks[i] != ks[j]
  {
  }

  // The edited text in pieces: rewritten lines, a newline when the last line had none, new lines.
  lemma {:induction false} RenderedParts(u: Updates, text: string) returns (extra: string)
    requires IsDict(u)
    ensures var newline := Newline(text);
      var body := RewriteText(u.values, newline, text);
      var missing := Missing(u.keys, Targets(u.values, SplitLines(text)));
      && (forall i :: 0 <= i < |missing| ==> missing[i] in u.values)
      && (if missing == [] then extra == "" && Rendered(u, text) == body else
          && extra == (if body == "" || EndsLine(body) then "" else newline)
          && Rendered(u, text) == body + extra + Join(Appended(missing, u.values, newline))
          && TextPairs(body + extra) == TextPairs(body)
          && (body + extra == "" || Terminated(body + extra)))
  {
    hide TextPairs, Rewritten, Targets;
    var newline, lines := Newline(text), SplitLines(text);
    var body, missing := RewriteLines(u.values, newline, lines), Missing(u.keys, Targets(u.values, lines));
    MissingAre(u.keys, Targets(u.values, lines));
    extra := "";
    if missing != [] {
      forall i | 0 <= i < |lines| ensures body[i] != "" {
        SplitGivesLines(text, i);
        RewrittenShape(u.values, newline, lines[i]);
      }
      extra := CloseJoin(body, newline);
      JoinAppend(Close(body, newline), Appended(missing, u.values, newline));
    }
  }

  lemma {:induction false} AppendedStart(keys: seq<string>, values: map<string, string>, newline: string)
    requires keys != [] && forall i :: 0 <= i < |keys| ==> keys[i] in values && IsIdentifier(keys[i])
    ensures Join(Appended(keys, values, newline)) != "" && Join(Appended(keys, values, newline))[0] != '\n'
  {
    IdentStartsPlain(keys[0]);
    hide IsIdentifier;
  }

  /** When every update settles, the edited file reads as the old assignments overridden. */
  lemma {:induction false} ReadsBack(u: Updates, text: string, m: map<string, string>)
    requires IsDict(u) && ValidValues(u) && ReadText(text) == Some(m)
    requires forall k :: k in u.values ==> Settles(m, u, k)
    ensures ReadText(Rendered(u, text)) == Some(m + u.values)
  {
    hide TextPairs, FromPairs, RewriteText, Targets, Rendered, IsIdentifier;
    var newline, lines := Newline(text), SplitLines(text);
    var body, missing := RewriteText(u.values, newline, text), Missing(u.keys, Targets(u.values, lines));
    var extra := RenderedParts(u, text);
    RewriteReads(u, text, newline, m);
    ReadTextIs(text);
    ReadTextIs(body);
    ReadTextIs(Rendered(u, text));
    TargetsAre(u.values, lines, m);
    MissingAre(u.keys, Targets(u.values, lines));
    if missing == [] {
      forall k | k in u.values ensures k in m { assert k in u.keys; assert k !in missing; }
      assert OverrideMap(u.values, m) == m + u.values;
    } else {
      MissingDistinct(u, Targets(u.values, lines));
      forall i | 0 <= i < |missing|
        ensures missing[i] in u.values && missing[i] !in m && IsIdentifier(missing[i]) &&
          PlainValue(u.values[missing[i]])
      {
        assert missing[i] in missing;
        assert Settles(m, u, missing[i]);
      }
      var tail := Join(Appended(missing, u.values, newline));
      AppendedStart(missing, u.values, newline);
      TextPairsAppend(body + extra, tail);
      PairsOfAppended(missing, u.values, newline);
      FromAdded(TextPairs(body), OverrideMap(u.values, m), missing, u.values);
      Overridden(FromPairs(TextPairs(body) + Added(missing, u.values)).value, m, u, missing);
    }
  }

  lemma ReadTextIs(text: string)
    ensures ReadText(text) == FromPairs(TextPairs(text))
    ensures TextPairs(text) == Pairs(SplitLines(text))
  {
  }

  lemma {:induction false} Overridden(big: map<string, string>, m: map<string, string>, u: Updates,
                                      missing: seq<string>)
    requires IsDict(u) && Extends(big, OverrideMap(u.values, m), missing, u.values)
    requires forall k :: k in missing <==> k in u.keys && k !in m
    ensures big == m + u.values
  {
  }

  // ---------- When an update does not settle ----------

  lemma {:induction false} DecodeShort(raw: string)
    ensures |DecodeValue(raw)| <= |raw|
  {
    LStripSuffix(raw);
    RStripPrefix(LStrip(raw));
  }

  lemma {:induction false} FirstBreak(v: string) returns (j: nat)
    requires !NoBreaks(v)
    ensures j < |v| && IsBreak(v[j]) && NoBreaks(v[..j])
  {
    if IsBreak(v[0]) {
      j := 0;
    } else {
      assert !NoBreaks(v[1..]) by {
        var i :| 0 <= i < |v| && IsBreak(v[i]);
        assert v[1..][i - 1] == v[i];
      }
      j := FirstBreak(v[1..]);
      assert v[..j + 1] == [v[0]] + v[1..][..j];
      j := j + 1;
    }
  }

  lemma {:induction false} FirstPair(s: string, first: string, e: Assignment)
    requires s != "" && first == s[..LineLength(s)] && Entry(first) == Some(e)
    ensures e in TextPairs(s)
  {
  }

  /** A value that wears quotes or holds a line boundary is not what its line is read as. */
  lemma {:induction false} Misread(key: string, v: string, eol: string, after: string) returns (w: string)
    requires IsIdentifier(key) && ValidValue(v) && (IsNewline(eol) || eol == "\r")
    requires !NoBreaks(v) || Wrapped(v)
    ensures w != v && (key, w) in TextPairs(Written(key, v, eol) + after)
  {
    hide Entry, IsIdentifier, Strip, TextPairs;
    var s := Written(key, v, eol) + after;
    if NoBreaks(v) {
      var body := key + "=" + v;
      UnbrokenParts(key, v);
      w := v[1..|v| - 1];
      var end, rest := eol, after;
      if eol == "\r" && after != "" && after[0] == '\n' {
        end, rest := "\r\n", after[1..];
        assert after == "\n" + rest;
      }
      assert s == body + end + rest;
      OneLineLength(body, end, rest);
      EntryOfWritten(key, v, end);
      assert s[..|body| + |end|] == body + end;
      FirstPair(s, body + end, (key, w));
    } else {
      var j := FirstBreak(v);
      var body, rest := key + "=" + v[..j], v[j + 1..] + eol + after;
      UnbrokenParts(key, v[..j]);
      w := DecodeValue(v[..j]);
      DecodeShort(v[..j]);
      assert v == v[..j] + [v[j]] + v[j + 1..];
      assert s == body + [v[j]] + rest;
      assert v[j] != '\r' by { assert v[j] in v; }
      BreakLength(body, v[j], rest);
      WrittenEntry(key, v[..j]);
      EntrySpace(body, v[j]);
      assert s[..|body| + 1] == body + [v[j]];
      FirstPair(s, body + [v[j]], (key, w));
    }
  }

  lemma {:induction false} MisreadLine(u: map<string, string>, newline: string, t: string, after: string, key: string,
                                       old_: string)
    returns (w: string)
    requires IsNewline(newline) && key in u && IsIdentifier(key) && ValidValue(u[key])
    requires !NoBreaks(u[key]) || Wrapped(u[key])
    requires (key, old_) in TextPairs(t) && old_ != u[key]
    ensures w != u[key] && (key, w) in TextPairs(RewriteText(u, newline, t) + after)
    decreases |t|
  {
    hide Entry, RewriteText, IsIdentifier, ValidValue, Content;
    var n := LineLength(t);
    var l, rest := t[..n], t[n..];
    FirstLineIsLine(t);
    RewriteFirst(u, newline, t);
    var l' := Rewritten(u, newline, l);
    assert RewriteText(u, newline, t) + after == l' + (RewriteText(u, newline, rest) + after);
    if Entry(l) == Some((key, old_)) {
      EolOfLine(l);
      w := Misread(key, u[key], if Eol(l) == "" then newline else Eol(l), RewriteText(u, newline, rest) + after);
    } else {
      PairsCons(SplitLines(t));
      assert (key, old_) in TextPairs(rest);
      w := MisreadLine(u, newline, rest, after, key, old_);
      RewriteSeparates(u, newline, t, after);
      TextPairsAppend(l', RewriteText(u, newline, rest) + after);
    }
  }

  lemma {:induction false} MisreadAppended(before: string, keys: seq<string>, values: map<string, string>,
                                           newline: string, i: nat)
    returns (w: string)
    requires i < |keys| && IsNewline(newline) && (before == "" || Terminated(before))
    requires forall j :: 0 <= j < |keys| ==> keys[j] in values && IsIdentifier(keys[j])
    requires ValidValue(values[keys[i]]) && (!NoBreaks(values[keys[i]]) || Wrapped(values[keys[i]]))
    ensures w != values[keys[i]] && (keys[i], w) in TextPairs(before + Join(Appended(keys, values, newline)))
    decreases i
  {
    hide IsIdentifier, ValidValue, TextPairs;
    var all, rest := Appended(keys, values, newline), Appended(keys[1..], values, newline);
    var first := Written(keys[0], values[keys[0]], newline);
    assert all[1..] == rest && all[0] == first;
    if i == 0 {
      w := Misread(keys[0], values[keys[0]], newline, Join(rest));
      AppendedStart(keys, values, newline);
      TextPairsAppend(before, first + Join(rest));
    } else {
      w := MisreadAppended(before + first, keys[1..], values, newline, i - 1);
      assert before + Join(all) == before + first + Join(rest);
    }
  }

  lemma {:induction false} ReadKeys(text: string, m: map<string, string>, k: string)
    requires ReadText(text) == Some(m) && k in m
    ensures IsIdentifier(k)
  {
    hide Entry, IsIdentifier;
    MapFromPairs(TextPairs(text), m, k);
    var i := LineOfPair(SplitLines(text), (k, m[k]));
    EntryKey(SplitLines(text)[i]);
  }

  // What follows the rewritten lines.
  ghost function TailText(u: Updates, text: string, extra: string): string
    requires IsDict(u)
  {
    var newline := Newline(text);
    var missing := Missing(u.keys, Targets(u.values, SplitLines(text)));
    MissingAre(u.keys, Targets(u.values, SplitLines(text)));
    if missing == [] then "" else extra + Join(Appended(missing, u.values, newline))
  }

  lemma {:induction false} RenderedTail(u: Updates, text: string) returns (extra: string)
    requires IsDict(u)
    ensures Rendered(u, text) == RewriteText(u.values, Newline(text), text) + TailText(u, text, extra)
  {
    hide RewriteText, Rendered, Targets, Missing, Appended, TextPairs;
    var newline, body := Newline(text), RewriteText(u.values, Newline(text), text);
    var missing := Missing(u.keys, Targets(u.values, SplitLines(text)));
    extra := RenderedParts(u, text);
    if missing == [] {
      assert body + "" == body;
    } else {
      var rest := Join(Appended(missing, u.values, newline));
      assert body + extra + rest == body + (extra + rest);
    }
  }

  lemma {:induction false} KeptIsMisread(u: Updates, text: string, m: map<string, string>, k: string)
    returns (w: string)
    requires IsDict(u) && ValidValues(u) && ReadText(text) == Some(m)
    requires k in u.values && k in m && IsIdentifier(k) && !Settles(m, u, k)
    ensures w != u.values[k] && (k, w) in TextPairs(Rendered(u, text))
  {
    hide TextPairs, FromPairs, RewriteText, Rendered, TailText, IsIdentifier, ValidValue;
    var extra := RenderedTail(u, text);
    ReadTextIs(text);
    MapFromPairs(TextPairs(text), m, k);
    w := MisreadLine(u.values, Newline(text), text, TailText(u, text, extra), k, m[k]);
  }

  lemma {:induction false} AddedIsMisread(u: Updates, text: string, m: map<string, string>, k: string)
    returns (w: string)
    requires IsDict(u) && ValidValues(u) && ReadText(text) == Some(m)
    requires k in u.values && k !in m && !Settles(m, u, k)
    requires forall j :: j in u.values ==> IsIdentifier(j)
    ensures w != u.values[k] && (k, w) in TextPairs(Rendered(u, text))
  {
    hide TextPairs, FromPairs, RewriteText, Targets, Rendered, IsIdentifier, ValidValue, Missing, Appended;
    var newline, lines := Newline(text), SplitLines(text);
    var missing := Missing(u.keys, Targets(u.values, lines));
    var extra := RenderedParts(u, text);
    ReadTextIs(text);
    TargetsAre(u.values, lines, m);
    MissingAre(u.keys, Targets(u.values, lines));
    assert k in u.keys && k in missing;
    var i :| 0 <= i < |missing| && missing[i] == k;
    w := MisreadAppended(RewriteText(u.values, newline, text) + extra, missing, u.values, newline, i);
  }

  /** Conversely, an update that does not settle is not read back. */
  lemma {:induction false} UnsettledIsMisread(u: Updates, text: string, m: map<string, string>, k: string)
    requires IsDict(u) && ValidValues(u) && ReadText(text) == Some(m)
    requires k in u.values && !Settles(m, u, k)
    ensures ReadText(Rendered(u, text)) != Some(m + u.values)
  {
    hide ReadText, TextPairs, FromPairs, Rendered, IsIdentifier, ValidValue, Settles;
    var out := Rendered(u, text);
    if ReadText(out) == Some(m + u.values) {
      forall j | j in u.values ensures IsIdentifier(j) { ReadKeys(out, m + u.values, j); }
      var w: string;
      if k in m {
        w := KeptIsMisread(u, text, m, k);
      } else {
        w := AddedIsMisread(u, text, m, k);
      }
      ReadTextIs(out);
      PairInMap(TextPairs(out), m + u.values, (k, w));
    }
  }

  /** The edit takes effect exactly when every update settles. */
  lemma {:induction false} ReadsBackExactlyWhen(u: Updates, text: string, m: map<string, string>)
    requires IsDict(u) && ValidValues(u) && ReadText(text) == Some(m)
    ensures ReadText(Rendered(u, text)) == Some(m + u.values) <==> forall k :: k in u.values ==> Settles(m, u, k)
  {
    hide ReadText, Rendered, Settles, ValidValues;
    if forall k :: k in u.values ==> Settles(m, u, k) {
      ReadsBack(u, text, m);
    } else {
      var k :| k in u.values && !Settles(m, u, k);
      UnsettledIsMisread(u, text, m, k);
    }
  }

  // ---------- The lines of the edited text ----------

  // Ending the last line; a boundary other than CR or LF leaves the newline on a line of its own.
  function ClosedLines(lines: seq<string>, newline: string): seq<string> {
    if lines == [] || EndsLine(lines[|lines| - 1]) then lines
    else if Terminated(lines[|lines| - 1]) then lines + [newline]
    else lines[..|lines| - 1] + [lines[|lines| - 1] + newline]
  }

  lemma {:induction false} LastLine(t: string)
    requires t != ""
    ensures var ls := SplitLines(t);
      (ls != [] && ls[|ls| - 1] != "" && ls[|ls| - 1][|ls[|ls| - 1]| - 1] == t[|t| - 1])
  {
    var ls := SplitLines(t);
    SplitGivesLines(t, |ls| - 1);
    JoinLast(ls);
    JoinSplit(t);
  }

  lemma {:induction false} SplitOpen(t: string, newline: string)
    requires t != "" && !EndsLine(t) && IsNewline(newline)
    ensures SplitLines(t + newline) == ClosedLines(SplitLines(t), newline)
    decreases |t|
  {
    hide SplitLines;
    var n := LineLength(t);
    var l, rest := t[..n], t[n..];
    FirstLineIsLine(t);
    SplitFirst(t);
    LastLine(t);
    SplitNewline(newline);
    if rest != "" {
      assert t + newline == l + (rest + newline);
      SplitOpen(rest, newline);
      LastLine(rest);
      FirstLineIsLine(t);
      SplitIsLine(l);
      SplitAppend(l, rest + newline);
      assert [l] + ClosedLines(SplitLines(rest), newline) == ClosedLines([l] + SplitLines(rest), newline);
    } else if Terminated(t) {
      SplitAppend(t, newline);
    } else {
      SplitIsLine(t);
      UnterminatedPlain(t);
      SplitOneLine(t, newline);
    }
  }

  lemma SplitFirst(t: string)
    requires t != ""
    ensures SplitLines(t) == [t[..LineLength(t)]] + SplitLines(t[LineLength(t)..])
  {
  }

  lemma {:induction false} SplitNewline(newline: string)
    requires IsNewline(newline)
    ensures SplitLines(newline) == [newline]
  {
    assert "" + newline == newline;
    SplitOneLine("", newline);
  }

  lemma {:induction false} SplitAppended(keys: seq<string>, values: map<string, string>, newline: string)
    requires IsNewline(newline)
    requires forall i :: 0 <= i < |keys| ==> keys[i] in values && IsIdentifier(keys[i]) && NoBreaks(values[keys[i]])
    ensures SplitLines(Join(Appended(keys, values, newline))) == Appended(keys, values, newline)
  {
    hide IsIdentifier, NoBreaks;
    var all := Appended(keys, values, newline);
    if keys != [] {
      var rest := Appended(keys[1..], values, newline);
      assert all[1..] == rest;
      SplitAppended(keys[1..], values, newline);
      UnbrokenParts(keys[0], values[keys[0]]);
      SplitOneLine(keys[0] + "=" + values[keys[0]], newline);
      SplitAppend(all[0], Join(rest));
      assert all == [all[0]] + rest;
    }
  }

  // What the edits require of a caller to be repeatable: names and values that stay on their line.
  ghost predicate Unbroken(u: Updates) {
    forall k :: k in u.values ==> IsIdentifier(k) && NoBreaks(u.values[k])
  }

  ghost function MissingFromText(u: Updates, text: string): (ks: seq<string>)
    requires IsDict(u)
    ensures forall i :: 0 <= i < |ks| ==> ks[i] in u.values
  {
    MissingAre(u.keys, Targets(u.values, SplitLines(text)));
    Missing(u.keys, Targets(u.values, SplitLines(text)))
  }

  ghost function BodyLines(u: Updates, text: string): seq<string> {
    RewriteLines(u.values, Newline(text), SplitLines(text))
  }

  lemma {:induction false} RenderedKeysPlain(u: Updates, text: string)
    requires IsDict(u) && Unbroken(u)
    ensures forall i :: 0 <= i < |MissingFromText(u, text)| ==>
      MissingFromText(u, text)[i] in u.values && IsIdentifier(MissingFromText(u, text)[i]) &&
      NoBreaks(u.values[MissingFromText(u, text)[i]])
    ensures SafeChanges(u.values, SplitLines(text))
  {
    hide MissingFromText, IsIdentifier, Entry, SplitLines;
  }

  /** The edited text splits into the rewritten lines, closed if needed, and the added lines. */
  lemma {:induction false} RenderedSplits(u: Updates, text: string)
    requires IsDict(u) && Unbroken(u)
    ensures SplitLines(Rendered(u, text)) ==
      if MissingFromText(u, text) == [] then BodyLines(u, text)
      else ClosedLines(BodyLines(u, text), Newline(text)) +
           Appended(MissingFromText(u, text), u.values, Newline(text))
  {
    hide TextPairs, RewriteText, RewriteLines, Targets, Rendered, IsIdentifier, Missing, SafeChanges, NoBreaks;
    var newline, body := Newline(text), RewriteText(u.values, Newline(text), text);
    var missing := MissingFromText(u, text);
    var extra := RenderedParts(u, text);
    RenderedKeysPlain(u, text);
    SplitRewrite(u.values, newline, text);
    if missing != [] {
      AppendedStart(missing, u.values, newline);
      SplitAppend(body + extra, Join(Appended(missing, u.values, newline)));
      SplitAppended(missing, u.values, newline);
      ClosedSplit(body, newline, extra);
    }
  }

  lemma {:induction false} ClosedSplit(body: string, newline: string, extra: string)
    requires IsNewline(newline) && extra == (if body == "" || EndsLine(body) then "" else newline)
    ensures SplitLines(body + extra) == ClosedLines(SplitLines(body), newline)
  {
    hide SplitLines;
    if body == "" || EndsLine(body) {
      assert body + extra == body;
      if body != "" { LastLine(body); } else { EmptyRewrite(map[], newline); }
    } else {
      SplitOpen(body, newline);
    }
  }

  // ---------- Editing twice ----------

  lemma {:induction false} ContentStrip(body: string, eol: string)
    requires body != "" && !EndsLine(body) && (IsNewline(eol) || eol == "\r")
    ensures Content(body + eol) == body && Eol(body + eol) == eol
  {
    var s := body + eol;
    var s1 := s[..|s| - 1];
    if eol == "\r\n" {
      assert s1 == body + "\r" && s1[..|s1| - 1] == body;
      assert Content(s1) == body;
    } else {
      assert s1 == body;
    }
  }

  lemma {:induction false} WrittenEnds(key: string, v: string)
    requires ValidValue(v)
    ensures key + "=" + v != "" && !EndsLine(key + "=" + v)
  {
    var s := key + "=" + v;
    if v != "" {
      assert s[|s| - 1] == v[|v| - 1] && v[|v| - 1] in v;
    } else {
      assert s[|s| - 1] == '=';
    }
  }

  // A line written for an update is left alone by the next edit.
  lemma {:induction false} WrittenStays(u: map<string, string>, newline: string, k: string, eol: string)
    requires k in u && IsIdentifier(k) && ValidValue(u[k]) && (IsNewline(eol) || eol == "\r")
    ensures Rewritten(u, newline, Written(k, u[k], eol)) == Written(k, u[k], eol)
    ensures Target(u, Written(k, u[k], eol)) == Some(k)
  {
    hide Entry, Content, IsIdentifier, ValidValue, EndsLine;
    EntryOfWritten(k, u[k], eol);
    WrittenEnds(k, u[k]);
    ContentStrip(k + "=" + u[k], eol);
  }

  lemma {:induction false} RewrittenStays(u: map<string, string>, newline: string, newline': string, line: string)
    requires IsLine(line) && IsNewline(newline)
    requires forall k :: k in u ==> ValidValue(u[k])
    ensures Rewritten(u, newline', Rewritten(u, newline, line)) == Rewritten(u, newline, line)
    ensures Target(u, Rewritten(u, newline, line)) == Target(u, line)
  {
    hide Entry, Content, IsIdentifier, ValidValue, Written;
    if Changed(u, line) {
      EolOfLine(line);
      EntryKey(line);
      WrittenStays(u, newline', Entry(line).value.0, if Eol(line) == "" then newline else Eol(line));
    }
  }

  // Ending a line does not make it change.
  lemma {:induction false} EndedStays(u: map<string, string>, newline: string, newline': string, line: string)
    requires IsLine(line) && IsNewline(newline) && !EndsLine(Rewritten(u, newline, line))
    ensures var l := Rewritten(u, newline, line) + newline;
      Rewritten(u, newline', l) == l && Target(u, l) == Target(u, line)
  {
    hide Entry, Content, IsIdentifier, Written, EndsLine;
    if Changed(u, line) {
      EolOfLine(line);
      WrittenEndsLine(Entry(line).value.0, u[Entry(line).value.0], if Eol(line) == "" then newline else Eol(line));
    } else {
      EntryTail(line, newline);
    }
  }

  lemma WrittenEndsLine(key: string, v: string, eol: string)
    requires IsNewline(eol) || eol == "\r"
    ensures EndsLine(Written(key, v, eol))
  {
  }

  lemma {:induction false} NewlineStays(u: map<string, string>, newline: string, newline': string)
    requires IsNewline(newline)
    ensures Rewritten(u, newline', newline) == newline && Target(u, newline) == None
  {
    hide Entry;
    assert "" + newline == newline;
    EntryTail("", newline);
    BlankEntry();
  }

  lemma BlankEntry()
    ensures Entry("") == None
  {
  }

  // Every line stays as it is under a further edit.
  ghost predicate Stay(u: map<string, string>, newline: string, lines: seq<string>) {
    forall i :: 0 <= i < |lines| ==> Rewritten(u, newline, lines[i]) == lines[i]
  }

  lemma {:induction false} BodyStays(u: Updates, text: string, newline': string)
    requires ValidValues(u)
    ensures Stay(u.values, newline', BodyLines(u, text))
    ensures Stay(u.values, newline', ClosedLines(BodyLines(u, text), Newline(text)))
    ensures Targets(u.values, BodyLines(u, text)) == Targets(u.values, SplitLines(text))
    ensures Targets(u.values, ClosedLines(BodyLines(u, text), Newline(text))) == Targets(u.values, SplitLines(text))
  {
    hide Rewritten, Target, IsLine, ValidValue, EndsLine, Terminated, SplitLines;
    var newline, lines, body := Newline(text), SplitLines(text), BodyLines(u, text);
    forall i | 0 <= i < |lines|
      ensures Rewritten(u.values, newline', body[i]) == body[i] &&
        Target(u.values, body[i]) == Target(u.values, lines[i])
    {
      SplitGivesLines(text, i);
      RewrittenStays(u.values, newline, newline', lines[i]);
    }
    SameTargets(u.values, body, lines);
    var closed := ClosedLines(body, newline);
    if lines != [] && !EndsLine(body[|body| - 1]) {
      var n := |lines| - 1;
      SplitGivesLines(text, n);
      if Terminated(body[n]) {
        NewlineStays(u.values, newline, newline');
        MoreTargets(u.values, body, newline);
      } else {
        EndedStays(u.values, newline, newline', lines[n]);
        SameTargets(u.values, closed, lines);
      }
    }
  }

  lemma {:induction false} SameTargets(u: map<string, string>, a: seq<string>, b: seq<string>)
    requires |a| == |b| && forall i :: 0 <= i < |a| ==> Target(u, a[i]) == Target(u, b[i])
    ensures Targets(u, a) == Targets(u, b)
  {
    hide Target;
    forall k | k in Targets(u, b) ensures k in Targets(u, a) {
      var i :| 0 <= i < |b| && Target(u, b[i]) == Some(k);
      assert Target(u, a[i]) == Some(k);
    }
  }

  lemma {:induction false} MoreTargets(u: map<string, string>, a: seq<string>, line: string)
    ensures Targets(u, a + [line]) == Targets(u, a) + if Target(u, line).Some? then {Target(u, line).value} else {}
  {
    hide Target;
    var b := a + [line];
    assert b[|a|] == line;
    forall k | k in Targets(u, a) ensures k in Targets(u, b) {
      var i :| 0 <= i < |a| && Target(u, a[i]) == Some(k);
      assert b[i] == a[i];
    }
  }

  lemma {:induction false} AppendTargets(u: map<string, string>, a: seq<string>, b: seq<string>)
    ensures Targets(u, a + b) == Targets(u, a) + Targets(u, b)
  {
    hide Target;
    var c := a + b;
    forall k | k in Targets(u, a) ensures k in Targets(u, c) {
      var i :| 0 <= i < |a| && Target(u, a[i]) == Some(k);
      assert c[i] == a[i];
    }
    forall k | k in Targets(u, b) ensures k in Targets(u, c) {
      var i :| 0 <= i < |b| && Target(u, b[i]) == Some(k);
      assert c[|a| + i] == b[i];
    }
  }

  lemma {:induction false} AppendedStays(u: Updates, keys: seq<string>, newline: string, newline': string)
    requires ValidValues(u) && IsNewline(newline)
    requires forall i :: 0 <= i < |keys| ==> keys[i] in u.values && IsIdentifier(keys[i])
    ensures Stay(u.values, newline', Appended(keys, u.values, newline))
    ensures forall k :: k in keys ==> k in Targets(u.values, Appended(keys, u.values, newline))
  {
    hide Rewritten, Target, ValidValue, IsIdentifier, Written;
    var added := Appended(keys, u.values, newline);
    forall i | 0 <= i < |keys|
      ensures Rewritten(u.values, newline', added[i]) == added[i] && Target(u.values, added[i]) == Some(keys[i])
    {
      WrittenStays(u.values, newline', keys[i], newline);
    }
    forall k | k in keys ensures k in Targets(u.values, added) {
      var i :| 0 <= i < |keys| && keys[i] == k;
      assert Target(u.values, added[i]) == Some(k);
    }
  }

  // A text whose lines all stay and hold every updated key is a fixed point.
  lemma {:induction false} FixedPoint(u: Updates, text: string)
    requires IsDict(u) && Stay(u.values, Newline(text), SplitLines(text))
    requires forall k :: k in u.values ==> k in Targets(u.values, SplitLines(text))
    ensures Rendered(u, text) == text
  {
    hide Rewritten, Targets, SplitLines;
    NoneMissing(u.keys, Targets(u.values, SplitLines(text)));
    assert BodyLines(u, text) == SplitLines(text);
    JoinSplit(text);
  }

  lemma {:induction false} NoneMissing(keys: seq<string>, seen: set<string>)
    requires forall k :: k in keys ==> k in seen
    ensures Missing(keys, seen) == []
  {
    if keys != [] { NoneMissing(keys[1..], seen); }
  }

  /** Editing twice is editing once, for names and values that stay on their own line. */
  lemma {:induction false} RenderTwice(u: Updates, text: string)
    requires IsDict(u) && ValidValues(u) && Unbroken(u)
    ensures Rendered(u, Rendered(u, text)) == Rendered(u, text)
  {
    hide Rendered, Rewritten, Targets, BodyLines, IsIdentifier, ValidValues, Appended, ClosedLines;
    var out, newline := Rendered(u, text), Newline(text);
    var missing := MissingFromText(u, text);
    RenderedSplits(u, text);
    RenderedKeysPlain(u, text);
    BodyStays(u, text, Newline(out));
    MissingAre(u.keys, Targets(u.values, SplitLines(text)));
    if missing == [] {
      forall k | k in u.values ensures k in Targets(u.values, SplitLines(text)) {
        assert k in u.keys && k !in missing;
      }
    } else {
      AppendedStays(u, missing, newline, Newline(out));
      AppendTargets(u.values, ClosedLines(BodyLines(u, text), newline), Appended(missing, u.values, newline));
      forall k | k in u.values ensures k in Targets(u.values, SplitLines(out)) {
        assert k in u.keys;
      }
    }
    FixedPoint(u, out);
  }

  // ---------- Editing that never settles ----------

  function Breaks(s: string): nat {
    if s == "" then 0 else (if IsBreak(s[0]) then 1 else 0) + Breaks(s[1..])
  }

  lemma {:induction false} BreaksAppend(a: string, b: string)
    ensures Breaks(a + b) == Breaks(a) + Breaks(b)
  {
    if a == "" {
      assert a + b == b;
    } else {
      assert (a + b)[1..] == a[1..] + b;
      BreaksAppend(a[1..], b);
    }
  }

  lemma {:induction false} SomeBreak(s: string)
    ensures !NoBreaks(s) ==> Breaks(s) > 0
  {
    if s != "" {
      SomeBreak(s[1..]);
      if NoBreaks(s[1..]) && !IsBreak(s[0]) { assert forall i :: 0 < i < |s| ==> s[i] == s[1..][i - 1]; }
    }
  }

  lemma BreaksOfEnd(eol: string)
    requires IsNewline(eol) || eol == "\r"
    ensures Breaks(eol) == |eol|
  {
    assert eol[1..] == "" || eol[1..] == "\n";
    assert Breaks("\n") == 1 by { assert "\n"[1..] == ""; }
  }

  // A line has no breaks but those that end it.
  lemma {:induction false} LineBreaks(line: string) returns (body: string)
    requires IsLine(line)
    ensures Breaks(line) <= if Eol(line) == "" then 1 else |Eol(line)|
    ensures body <= line && NoBreaks(body) && forall i :: |body| <= i < |line| ==> IsBreak(line[i])
  {
    if IsBreak(line[0]) || |line| == 1 {
      StartBreaks(line);
      body := if IsBreak(line[0]) then "" else line;
    } else {
      hide Content;
      var c, r := line[0], line[1..];
      var rest := LineBreaks(r);
      ContentCons(c, r);
      assert line == [c] + r;
      assert Eol(line) == Eol(r);
      body := [c] + rest;
    }
  }

  lemma {:induction false} StartBreaks(line: string)
    requires IsLine(line) && (IsBreak(line[0]) || |line| == 1)
    ensures Breaks(line) <= if Eol(line) == "" then 1 else |Eol(line)|
  {
    if |line| == 1 {
      assert line[1..] == "";
    } else {
      assert line == "\r\n";
      BreaksOfEnd(line);
      ContentStripAll();
    }
  }

  lemma ContentStripAll()
    ensures Content("\r\n") == "" && Eol("\r\n") == "\r\n"
  {
    assert "\r\n"[..1] == "\r" && "\r"[..0] == "";
    assert Content("\r") == "" && Content("\r\n") == Content("\r");
  }

  lemma {:induction false} ParsedFrom(line: string)
    requires ParseAssignment(line).Some?
    ensures forall x :: x in ParseAssignment(line).value.1 ==> x in line
  {
    hide ParseAssignment;
    ParsesOnly(line);
  }

  lemma {:induction false} DecodedFrom(raw: string)
    ensures forall x :: x in DecodeValue(raw) ==> x in raw
  {
    LStripSuffix(raw);
    RStripPrefix(LStrip(raw));
  }

  /** No value that is read holds a line boundary. */
  lemma {:induction false} ReadUnbroken(line: string)
    requires IsLine(line) && Entry(line).Some?
    ensures NoBreaks(Entry(line).value.1)
  {
    var c := LineBreaks(line);
    EntryPrefix(c, line);
    hide ParseAssignment, DecodeValue;
    ParsedFrom(c);
    DecodedFrom(ParseAssignment(c).value.1);
    forall i | 0 <= i < |Entry(line).value.1| ensures !IsBreak(Entry(line).value.1[i]) {
      assert Entry(line).value.1[i] in c;
    }
  }

  lemma {:induction false} RewrittenBreaks(u: map<string, string>, newline: string, line: string)
    requires IsLine(line) && IsNewline(newline)
    ensures Breaks(Rewritten(u, newline, line)) >=
      Breaks(line) + if Changed(u, line) && !NoBreaks(u[Entry(line).value.0]) then 1 else 0
  {
    hide Entry, Content, Breaks, NoBreaks, IsLine;
    if Changed(u, line) {
      var k := Entry(line).value.0;
      var eol := if Eol(line) == "" then newline else Eol(line);
      var _ := LineBreaks(line);
      EolOfLine(line);
      BreaksOfEnd(eol);
      BreaksAppend(k + "=" + u[k], eol);
      BreaksAppend(k + "=", u[k]);
      SomeBreak(u[k]);
    }
  }

  lemma {:induction false} BodyBreaks(u: map<string, string>, newline: string, lines: seq<string>, i: nat)
    requires IsNewline(newline) && forall j :: 0 <= j < |lines| ==> IsLine(lines[j])
    ensures Breaks(Join(RewriteLines(u, newline, lines))) >= Breaks(Join(lines)) +
      if i < |lines| && Changed(u, lines[i]) && !NoBreaks(u[Entry(lines[i]).value.0]) then 1 else 0
  {
    hide Rewritten, Changed, Breaks, IsLine, Entry, NoBreaks;
    if lines != [] {
      RewriteCons(u, newline, lines);
      RewrittenBreaks(u, newline, lines[0]);
      BreaksAppend(lines[0], Join(lines[1..]));
      BreaksAppend(Rewritten(u, newline, lines[0]), Join(RewriteLines(u, newline, lines[1..])));
      BodyBreaks(u, newline, lines[1..], if i > 0 then i - 1 else |lines|);
      assert i > 0 && i < |lines| ==> lines[1..][i - 1] == lines[i];
    }
  }

  lemma {:induction false} AppendedBreaks(keys: seq<string>, values: map<string, string>, newline: string)
    requires IsNewline(newline) && keys != [] && forall i :: 0 <= i < |keys| ==> keys[i] in values
    ensures Breaks(Join(Appended(keys, values, newline))) > 0
  {
    hide Breaks;
    var all := Appended(keys, values, newline);
    BreaksAppend(all[0], Join(all[1..]));
    BreaksAppend(keys[0] + "=" + values[keys[0]], newline);
    BreaksOfEnd(newline);
  }

  /** With a key that is no identifier, or a value with a line boundary, every edit of any text adds a
      line boundary to it. */
  lemma {:induction false} EditGrows(u: Updates, text: string)
    requires IsDict(u) && !Unbroken(u)
    ensures Breaks(Rendered(u, text)) > Breaks(text)
  {
    hide Rendered, RewriteText, Breaks, Entry, IsIdentifier, NoBreaks, TextPairs, Appended, IsLine, Rewritten, Targets,
      Changed;
    var newline, lines := Newline(text), SplitLines(text);
    var missing, body := MissingFromText(u, text), RewriteText(u.values, newline, text);
    var k :| k in u.values && !(IsIdentifier(k) && NoBreaks(u.values[k]));
    forall j | 0 <= j < |lines| ensures IsLine(lines[j]) { SplitGivesLines(text, j); }
    JoinSplit(text);
    MissingAre(u.keys, Targets(u.values, lines));
    var extra := RenderedParts(u, text);
    RewriteTextIs(u.values, newline, text);
    if missing == [] {
      assert k in u.keys && k !in missing;
      var i := BrokenLine(u, lines, k);
      BodyBreaks(u.values, newline, lines, i);
    } else {
      BodyBreaks(u.values, newline, lines, |lines|);
      AppendedBreaks(missing, u.values, newline);
      BreaksAppend(body + extra, Join(Appended(missing, u.values, newline)));
      BreaksAppend(body, extra);
    }
  }

  lemma RewriteTextIs(u: map<string, string>, newline: string, text: string)
    ensures RewriteText(u, newline, text) == Join(RewriteLines(u, newline, SplitLines(text)))
  {
  }

  // The line that assigns such a key is rewritten, with a value that was not read.
  lemma {:induction false} BrokenLine(u: Updates, lines: seq<string>, k: string) returns (i: nat)
    requires k in Targets(u.values, lines) && k in u.values && !(IsIdentifier(k) && NoBreaks(u.values[k]))
    requires forall j :: 0 <= j < |lines| ==> IsLine(lines[j])
    ensures i < |lines| && Changed(u.values, lines[i]) && !NoBreaks(u.values[Entry(lines[i]).value.0])
  {
    hide Entry, IsIdentifier, NoBreaks, IsLine;
    i :| 0 <= i < |lines| && Target(u.values, lines[i]).Some? && Target(u.values, lines[i]).value == k;
    EntryKey(lines[i]);
    ReadUnbroken(lines[i]);
  }

  /** Editing twice is editing once if and only if every key is an identifier and no value holds a line
      boundary. */
  lemma {:induction false} RenderTwiceExactlyWhen(u: Updates, text: string)
    requires IsDict(u) && ValidValues(u)
    ensures Rendered(u, Rendered(u, text)) == Rendered(u, text) <==> Unbroken(u)
  {
    hide Rendered, Unbroken, Breaks, ValidValues;
    if Unbroken(u) { RenderTwice(u, text); } else { EditGrows(u, Rendered(u, text)); }
  }

  // ---------- What an edit keeps ----------

  // The lines that assign no updated key, in order.
  function Others(u: map<string, string>, lines: seq<string>): seq<string> {
    if lines == [] then [] else
      (if Target(u, lines[0]).None? then [lines[0]] else []) + Others(u, lines[1..])
  }

  lemma {:induction false} OthersAppend(u: map<string, string>, a: seq<string>, b: seq<string>)
    ensures Others(u, a + b) == Others(u, a) + Others(u, b)
  {
    hide Target;
    if a == [] {
      assert a + b == b;
    } else {
      assert (a + b)[1..] == a[1..] + b;
      OthersAppend(u, a[1..], b);
    }
  }

  lemma {:induction false} OthersOne(u: map<string, string>, line: string)
    ensures Others(u, [line]) == if Target(u, line).None? then [line] else []
  {
    hide Target;
    assert [line][1..] == [];
  }

  lemma {:induction false} NoOthers(u: map<string, string>, lines: seq<string>)
    requires forall i :: 0 <= i < |lines| ==> Target(u, lines[i]).Some?
    ensures Others(u, lines) == []
  {
    hide Target;
    if lines != [] { NoOthers(u, lines[1..]); }
  }

  lemma {:induction false} OthersRewritten(u: map<string, string>, newline: string, lines: seq<string>)
    requires IsNewline(newline) && forall k :: k in u ==> ValidValue(u[k])
    requires forall i :: 0 <= i < |lines| ==> IsLine(lines[i])
    ensures Others(u, RewriteLines(u, newline, lines)) == Others(u, lines)
  {
    hide Target, Rewritten, IsLine, ValidValue;
    if lines != [] {
      RewriteCons(u, newline, lines);
      OthersRewritten(u, newline, lines[1..]);
      RewrittenStays(u, newline, newline, lines[0]);
      KeptUntargeted(u, newline, lines[0]);
    }
  }

  lemma KeptUntargeted(u: map<string, string>, newline: string, line: string)
    ensures Target(u, line).None? ==> Rewritten(u, newline, line) == line
  {
    hide Entry, Content;
  }

  lemma {:induction false} OthersAdded(u: Updates, keys: seq<string>, newline: string)
    requires ValidValues(u) && IsNewline(newline)
    requires forall i :: 0 <= i < |keys| ==> keys[i] in u.values && IsIdentifier(keys[i])
    ensures Others(u.values, Appended(keys, u.values, newline)) == []
  {
    hide Target, ValidValue, IsIdentifier, Written;
    var added := Appended(keys, u.values, newline);
    forall i | 0 <= i < |keys| ensures Target(u.values, added[i]).Some? {
      WrittenStays(u.values, newline, keys[i], newline);
    }
    NoOthers(u.values, added);
  }

  // The last of the kept lines gains the newline, or the newline follows them.
  ghost predicate GainsNewline(before: seq<string>, after: seq<string>, newline: string) {
    || after == before
    || after == before + [newline]
    || (before != [] && after == before[..|before| - 1] + [before[|before| - 1] + newline])
  }

  lemma {:induction false} OthersClosed(u: Updates, text: string)
    requires ValidValues(u)
    ensures GainsNewline(Others(u.values, BodyLines(u, text)),
                         Others(u.values, ClosedLines(BodyLines(u, text), Newline(text))), Newline(text))
  {
    hide Target, Rewritten, IsLine, ValidValue, EndsLine, Terminated, SplitLines, Others;
    var newline, lines, body := Newline(text), SplitLines(text), BodyLines(u, text);
    if lines != [] && !EndsLine(body[|body| - 1]) {
      var n := |lines| - 1;
      SplitGivesLines(text, n);
      if Terminated(body[n]) {
        NewlineStays(u.values, newline, newline);
        OthersAppend(u.values, body, [newline]);
        OthersOne(u.values, newline);
      } else {
        EndedStays(u.values, newline, newline, lines[n]);
        RewrittenStays(u.values, newline, newline, lines[n]);
        assert body == body[..n] + [body[n]];
        OthersAppend(u.values, body[..n], [body[n]]);
        OthersAppend(u.values, body[..n], [body[n] + newline]);
        OthersOne(u.values, body[n]);
        OthersOne(u.values, body[n] + newline);
        var first := Others(u.values, body[..n]);
        assert (first + [body[n]])[..|first|] == first;
      }
    }
  }

  /** Lines that assign no updated key are kept byte for byte and in order; only when keys are
      added to a text whose last line has no newline is one inserted before them. */
  lemma {:induction false} OthersKept(u: Updates, text: string)
    requires IsDict(u) && ValidValues(u) && Unbroken(u)
    ensures GainsNewline(Others(u.values, SplitLines(text)), Others(u.values, SplitLines(Rendered(u, text))),
      Newline(text))
    ensures MissingFromText(u, text) == [] ==>
      Others(u.values, SplitLines(Rendered(u, text))) == Others(u.values, SplitLines(text))
  {
    hide Rendered, Others, ClosedLines, Appended, ValidValue, IsIdentifier, IsLine, RewriteLines, GainsNewline;
    var newline, lines := Newline(text), SplitLines(text);
    var missing := MissingFromText(u, text);
    RenderedSplits(u, text);
    RenderedKeysPlain(u, text);
    forall i | 0 <= i < |lines| ensures IsLine(lines[i]) { SplitGivesLines(text, i); }
    OthersRewritten(u.values, newline, lines);
    if missing == [] {
      GainsNothing(Others(u.values, lines), newline);
    } else {
      OthersClosed(u, text);
      OthersAdded(u, missing, newline);
      var closed := ClosedLines(BodyLines(u, text), newline);
      OthersAppend(u.values, closed, Appended(missing, u.values, newline));
      assert Others(u.values, closed) + [] == Others(u.values, closed);
    }
  }

  // A line's own end, or else that of Windows exactly when the text has one anywhere.
  function NewEnd(eol: string, text: string): string {
    if eol != "" then eol else if UsesCrLf(text) then "\r\n" else "\n"
  }

  /** Line by line: one that assigns an updated key another value becomes `key=value` with its own line
      end, or the text's if it has none; every other line stays as it is, and only the last gains a line
      end, when it has none and lines follow. */
  lemma {:induction false} EditedLine(u: Updates, text: string, i: nat)
    requires IsDict(u) && Unbroken(u) && i < |SplitLines(text)|
    ensures var lines, out := SplitLines(text), SplitLines(Rendered(u, text));
      && i < |out|
      && (forall k, raw :: Assigns(Content(lines[i]), k, raw) && k in u.values && DecodeValue(raw) != u.values[k] ==>
           out[i] == k + "=" + u.values[k] + NewEnd(Eol(lines[i]), text))
      && ((forall k, raw :: Assigns(Content(lines[i]), k, raw) && k in u.values ==> DecodeValue(raw) == u.values[k]) ==>
           out[i] == lines[i] ||
           (i == |lines| - 1 && |out| > |lines| && !Terminated(lines[i]) && out[i] == lines[i] + NewEnd("", text)))
  {
    var lines := SplitLines(text);
    SplitGivesLines(text, i);
    LineAfter(u.values, Newline(text), lines[i]);
    ChangedEnds(u.values, Newline(text), lines[i]);
    RenderedLine(u, text, i);
    hide *;
  }

  // The edited text has the rewritten lines, the last one ended if lines follow.
  lemma {:induction false} RenderedLine(u: Updates, text: string, i: nat)
    requires IsDict(u) && Unbroken(u) && i < |SplitLines(text)|
    ensures var lines, out := SplitLines(text), SplitLines(Rendered(u, text));
      var l := Rewritten(u.values, Newline(text), lines[i]);
      && i < |out|
      && (out[i] == l ||
          (i == |lines| - 1 && |out| > |lines| && !Terminated(l) && out[i] == l + Newline(text)))
  {
    RenderedSplits(u, text);
    hide SplitLines, Rendered, Rewritten, Unbroken, Newline, MissingFromText, Terminated, EndsLine, Written;
    var body := BodyLines(u, text);
    assert body[i] == Rewritten(u.values, Newline(text), SplitLines(text)[i]);
    if MissingFromText(u, text) != [] {
      EndsTerminated(body[|body| - 1]);
      var added := Appended(MissingFromText(u, text), u.values, Newline(text));
      assert |added| > 0;
    }
  }

  lemma EndsTerminated(line: string)
    ensures EndsLine(line) ==> Terminated(line)
  {
  }

  lemma {:induction false} ChangedEnds(u: map<string, string>, newline: string, line: string)
    requires IsLine(line) && IsNewline(newline)
    ensures Changed(u, line) ==> Terminated(Rewritten(u, newline, line))
    ensures !Changed(u, line) ==> Rewritten(u, newline, line) == line
    ensures Changed(u, line) <==> exists k, raw :: Assigns(Content(line), k, raw) && k in u && DecodeValue(raw) != u[k]
  {
    RewrittenShape(u, newline, line);
    SameEntry(line);
    EntryIs(Content(line));
    hide Entry, Content, Assigns, DecodeValue, Terminated, Written;
  }

  ghost predicate Before(keys: seq<string>, x: string, y: string) {
    exists a, b :: 0 <= a < b < |keys| && keys[a] == x && keys[b] == y
  }

  // Some of the keys, in the order they have there.
  ghost predicate InOrder(some: seq<string>, keys: seq<string>) {
    forall i, j :: 0 <= i < j < |some| ==> Before(keys, some[i], some[j])
  }

  lemma {:induction false} MissingInOrder(keys: seq<string>, seen: set<string>)
    ensures InOrder(Missing(keys, seen), keys)
  {
    if keys != [] {
      MissingInOrder(keys[1..], seen);
      MissingAre(keys[1..], seen);
      hide InOrder;
      InOrderAfter(keys[0], Missing(keys[1..], seen), keys[1..]);
      assert keys == [keys[0]] + keys[1..];
      assert [] + Missing(keys[1..], seen) == Missing(keys[1..], seen);
    } else {
      assert Missing(keys, seen) == [];
    }
  }

  lemma {:induction false} InOrderAfter(k: string, some: seq<string>, keys: seq<string>)
    requires InOrder(some, keys) && forall i :: 0 <= i < |some| ==> some[i] in keys
    ensures InOrder(some, [k] + keys) && InOrder([k] + some, [k] + keys)
  {
    hide Before;
    forall i, j | 0 <= i < j < |some| ensures Before([k] + keys, some[i], some[j]) {
      BeforeStays(k, keys, some[i], some[j]);
    }
    forall j | 0 <= j < |some| ensures Before([k] + keys, k, some[j]) { BeforeAll(k, keys, some[j]); }
    assert forall j :: 0 <= j < |some| ==> ([k] + some)[j + 1] == some[j];
    forall i, j | 0 <= i < j < |some| + 1 ensures Before([k] + keys, ([k] + some)[i], ([k] + some)[j]) {
      if i > 0 { assert Before([k] + keys, some[i - 1], some[j - 1]); }
    }
  }

  lemma {:induction false} BeforeStays(k: string, keys: seq<string>, x: string, y: string)
    requires Before(keys, x, y)
    ensures Before([k] + keys, x, y)
  {
    var a, b :| 0 <= a < b < |keys| && keys[a] == x && keys[b] == y;
    assert ([k] + keys)[a + 1] == x && ([k] + keys)[b + 1] == y;
  }

  lemma {:induction false} BeforeAll(k: string, keys: seq<string>, y: string)
    requires y in keys
    ensures Before([k] + keys, k, y)
  {
    var b :| 0 <= b < |keys| && keys[b] == y;
    assert ([k] + keys)[0] == k && ([k] + keys)[b + 1] == y;
  }

  // The lines end in `key=value` for these keys in turn.
  ghost predicate EndsIn(lines: seq<string>, keys: seq<string>, values: map<string, string>, eol: string)
    requires forall j :: 0 <= j < |keys| ==> keys[j] in values
  {
    |keys| <= |lines| && forall j :: 0 <= j < |keys| ==>
      lines[|lines| - |keys| + j] == keys[j] + "=" + values[keys[j]] + eol
  }

  /** The lines after those are `key=value` for the updated keys that no line assigns, in their order. */
  lemma {:induction false} AddedLines(u: Updates, text: string)
    requires IsDict(u) && Unbroken(u)
    ensures var lines, out, added := SplitLines(text), SplitLines(Rendered(u, text)), MissingFromText(u, text);
      && (forall k :: k in added <==> k in u.keys && forall v :: !Gives(text, k, v)) && InOrder(added, u.keys)
      && (|out| - |lines| == |added| || (added != [] && |out| - |lines| == |added| + 1))
      && EndsIn(out, added, u.values, NewEnd("", text))
  {
    AddedAre(u, text);
    RenderedSplits(u, text);
    NewEndIs(text);
    SameLength(u.values, Newline(text), SplitLines(text));
    hide *;
    BodyIs(u, text);
    AppendedEnds(BodyLines(u, text), MissingFromText(u, text), u.values, Newline(text));
  }

  lemma BodyIs(u: Updates, text: string)
    ensures BodyLines(u, text) == RewriteLines(u.values, Newline(text), SplitLines(text))
  {
  }

  lemma NewEndIs(text: string)
    ensures NewEnd("", text) == Newline(text)
  {
  }

  lemma {:induction false} AppendedEnds(body: seq<string>, keys: seq<string>, values: map<string, string>,
                                        newline: string)
    requires forall i :: 0 <= i < |keys| ==> keys[i] in values
    ensures var out := if keys == [] then body else ClosedLines(body, newline) + Appended(keys, values, newline);
      && EndsIn(out, keys, values, newline)
      && (|out| - |body| == |keys| || (keys != [] && |out| - |body| == |keys| + 1))
  {
    hide EndsLine, Terminated;
    var closed, added := ClosedLines(body, newline), Appended(keys, values, newline);
    forall j | 0 <= j < |keys| ensures (closed + added)[|closed| + j] == keys[j] + "=" + values[keys[j]] + newline {
      assert added[j] == Written(keys[j], values[keys[j]], newline);
    }
  }

  lemma SameLength(u: map<string, string>, newline: string, lines: seq<string>)
    ensures |RewriteLines(u, newline, lines)| == |lines|
  {
  }

  lemma {:induction false} AddedAre(u: Updates, text: string)
    requires IsDict(u)
    ensures var added := MissingFromText(u, text);
      (forall k :: k in added <==> k in u.keys && forall v :: !Gives(text, k, v)) && InOrder(added, u.keys)
  {
    var targets := Targets(u.values, SplitLines(text));
    MissingInOrder(u.keys, targets);
    MissingAre(u.keys, targets);
    hide Targets, InOrder, Gives, SplitLines, Missing;
    forall k | k in u.keys ensures k in targets <==> exists v :: Gives(text, k, v) { TargetGiven(u.values, text, k); }
  }

  lemma {:induction false} TargetGiven(u: map<string, string>, text: string, k: string)
    requires k in u
    ensures k in Targets(u, SplitLines(text)) <==> exists v :: Gives(text, k, v)
  {
    var lines := SplitLines(text);
    hide Entry, LineGives, SplitLines;
    if k in Targets(u, lines) {
      var i :| 0 <= i < |lines| && Target(u, lines[i]) == Some(k);
      LineIs(text, i);
      assert LineGives(text, i, k, Entry(lines[i]).value.1);
      assert Gives(text, k, Entry(lines[i]).value.1);
    }
    if v :| Gives(text, k, v) {
      var i :| LineGives(text, i, k, v);
      LineIn(text, i, k, v);
      assert Target(u, lines[i]) == Some(k);
    }
  }

  // What rewriting makes of one line.
  lemma {:induction false} LineAfter(u: map<string, string>, newline: string, line: string)
    ensures forall k, raw :: Assigns(Content(line), k, raw) && k in u && DecodeValue(raw) != u[k] ==>
      Rewritten(u, newline, line) == k + "=" + u[k] + if Eol(line) != "" then Eol(line) else newline
    ensures (forall k, raw :: Assigns(Content(line), k, raw) && k in u ==> DecodeValue(raw) == u[k]) ==>
      Rewritten(u, newline, line) == line
  {
    SameEntry(line);
    EntryIs(Content(line));
    hide Entry, Content, Assigns, DecodeValue;
  }
  lemma GainsNothing(a: seq<string>, newline: string)
    ensures GainsNewline(a, a, newline)
  {
  }

  // ---------- The editor ----------

  // The first update with a value that is not accepted, and why.
  ghost predicate Refuses(u: Updates, e: ConfigError)
    requires IsDict(u)
  {
    exists i :: 0 <= i < |u.keys| && u.keys[i] in u.values && ValueError(u.keys[i], u.values[u.keys[i]]) == Some(e) &&
      forall j :: 0 <= j < i ==> u.keys[j] in u.values && ValueError(u.keys[j], u.values[u.keys[j]]) == None
  }

  lemma {:induction false} StepTargets(u: map<string, string>, lines: seq<string>, i: nat)
    requires i < |lines| && RepeatFree(u, lines, i)
    ensures Target(u, lines[i]).None? ==>
      RepeatFree(u, lines, i + 1) && Targets(u, lines[..i + 1]) == Targets(u, lines[..i])
    ensures Target(u, lines[i]).Some? ==> var k := Target(u, lines[i]).value;
      if k in Targets(u, lines[..i]) then Repeats(u, lines, k)
      else RepeatFree(u, lines, i + 1) && Targets(u, lines[..i + 1]) == Targets(u, lines[..i]) + {k}
  {
    hide Target;
    assert lines[..i + 1] == lines[..i] + [lines[i]];
    MoreTargets(u, lines[..i], lines[i]);
    if Target(u, lines[i]).Some? {
      var k := Target(u, lines[i]).value;
      if k in Targets(u, lines[..i]) {
        var j :| 0 <= j < i && Target(u, lines[..i][j]).Some? && Target(u, lines[..i][j]).value == k;
        assert Target(u, lines[j]) == Some(k);
      } else {
        forall j | 0 <= j < i ensures Target(u, lines[j]) != Target(u, lines[i]) {
          assert lines[..i][j] == lines[j];
        }
      }
    }
  }

  lemma {:induction false} StepRewrite(u: map<string, string>, newline: string, lines: seq<string>, i: nat)
    requires i < |lines|
    ensures RewriteLines(u, newline, lines[..i + 1]) ==
      RewriteLines(u, newline, lines[..i]) + [Rewritten(u, newline, lines[i])]
  {
    hide Rewritten;
  }

  lemma {:induction false} StepMissing(keys: seq<string>, seen: set<string>, i: nat)
    requires i < |keys|
    ensures Missing(keys[..i + 1], seen) == Missing(keys[..i], seen) + if keys[i] in seen then [] else [keys[i]]
  {
    if i == 0 {
      assert keys[..1][1..] == [] && keys[..0] == [];
      assert Missing(keys[..1], seen) == (if keys[0] in seen then [] else [keys[0]]) + [];
    } else {
      StepMissing(keys[1..], seen, i - 1);
      assert keys[..i + 1][1..] == keys[1..][..i] && keys[..i][1..] == keys[1..][..i - 1];
      var first := if keys[0] in seen then [] else [keys[0]];
      assert Missing(keys[..i + 1], seen) == first + Missing(keys[1..][..i], seen);
      assert Missing(keys[..i], seen) == first + Missing(keys[1..][..i - 1], seen);
    }
  }

  method ValidateUpdates(u: Updates) returns (e: Option<ConfigError>)
    requires IsDict(u)
    ensures e == None <==> ValidValues(u)
    ensures e.Some? ==> Refuses(u, e.value)
  {
    hide Strip, SingleLine;
    var i := 0;
    while i < |u.keys|
      invariant i <= |u.keys|
      invariant forall j :: 0 <= j < i ==> u.keys[j] in u.values && ValueError(u.keys[j], u.values[u.keys[j]]) == None
    {
      assert u.keys[i] in u.keys;
      e := ValueError(u.keys[i], u.values[u.keys[i]]);
      if e.Some? { return; }
      i := i + 1;
    }
    e := None;
    forall k | k in u.values ensures ValidValue(u.values[k]) {
      assert k in u.keys;
    }
  }

  // The scan over the old lines: rewritten lines and how often each updated key was seen.
  method RewriteAll(u: Updates, newline: string, lines: seq<string>)
    returns (output: seq<string>, seen: map<string, nat>, again: Option<string>)
    ensures again == None ==> output == RewriteLines(u.values, newline, lines) && seen.Keys == Targets(u.values, lines)
    ensures again == None ==> RepeatFree(u.values, lines, |lines|)
    ensures again.Some? ==> Repeats(u.values, lines, again.value)
  {
    output, seen, again := [], map[], None;
    var i := 0;
    NothingScanned(u.values, newline, lines);
    hide *;
    while i < |lines|
      invariant i <= |lines| && Scanned(u.values, newline, lines, i, output, seen)
    {
      StepScan(u.values, newline, lines, i, output, seen);
      RewriteByContent(u.values, newline, lines[i]);
      var content := Content(lines[i]);
      var eol := lines[i][|content|..];
      var found := Entry(content);
      var next := lines[i];
      if found.Some? && found.value.0 in u.values {
        var (key, current) := found.value;
        var times := (if key in seen then seen[key] else 0) + 1;
        seen := seen[key := times];
        if times > 1 {
          again := Some(key);
          return;
        }
        var desired := u.values[key];
        if current != desired { next := Written(key, desired, if eol != "" then eol else newline); }
      }
      output := output + [next];
      i := i + 1;
    }
    AllScanned(u.values, newline, lines, output, seen);
  }

  // The first `i` lines are done.
  ghost predicate Scanned(u: map<string, string>, newline: string, lines: seq<string>, i: nat, output: seq<string>,
                          seen: map<string, nat>)
    requires i <= |lines|
  {
    && output == RewriteLines(u, newline, lines[..i]) && RepeatFree(u, lines, i)
    && seen.Keys == Targets(u, lines[..i]) && forall k :: k in seen ==> seen[k] == 1
  }

  lemma NothingScanned(u: map<string, string>, newline: string, lines: seq<string>)
    ensures Scanned(u, newline, lines, 0, [], map[])
  {
  }

  lemma AllScanned(u: map<string, string>, newline: string, lines: seq<string>, output: seq<string>,
                   seen: map<string, nat>)
    requires Scanned(u, newline, lines, |lines|, output, seen)
    ensures output == RewriteLines(u, newline, lines) && seen.Keys == Targets(u, lines)
    ensures RepeatFree(u, lines, |lines|)
  {
    assert lines[..|lines|] == lines;
  }

  lemma {:induction false} StepScan(u: map<string, string>, newline: string, lines: seq<string>, i: nat,
                                    output: seq<string>, seen: map<string, nat>)
    requires i < |lines| && Scanned(u, newline, lines, i, output, seen)
    ensures var next := output + [Rewritten(u, newline, lines[i])];
      match Target(u, lines[i])
      case None => Scanned(u, newline, lines, i + 1, next, seen)
      case Some(key) =>
        if key in seen then seen[key] == 1 && Repeats(u, lines, key)
        else Scanned(u, newline, lines, i + 1, next, seen[key := 1])
  {
    StepTargets(u, lines, i);
    StepRewrite(u, newline, lines, i);
    hide Target, Targets, RepeatFree, RewriteLines, Rewritten, Repeats;
  }

  lemma {:induction false} RewriteByContent(u: map<string, string>, newline: string, line: string)
    ensures var found, eol := Entry(Content(line)), line[|Content(line)|..];
      && Target(u, line) == (if found.Some? && found.value.0 in u then Some(found.value.0) else None)
      && Rewritten(u, newline, line) ==
           if found.None? || found.value.0 !in u || found.value.1 == u[found.value.0] then line
           else Written(found.value.0, u[found.value.0], if eol != "" then eol else newline)
  {
    hide Entry, Content, Written;
    SameEntry(line);
  }

  /** `render_env_updates` on the file's text. */
  method RenderEnvUpdates(u: Updates, text: string) returns (r: Result<string, ConfigError>)
    requires IsDict(u)
    ensures u.keys == [] ==> r == Ok(text)
    ensures u.keys != [] && !ValidValues(u) ==> r.Err? && Refuses(u, r.error)
    ensures u.keys != [] && ValidValues(u) && !RepeatFree(u.values, SplitLines(text), |SplitLines(text)|) ==>
      r.Err? && r.error.Duplicate? && Repeats(u.values, SplitLines(text), r.error.key)
    ensures u.keys != [] && ValidValues(u) && RepeatFree(u.values, SplitLines(text), |SplitLines(text)|) ==>
      r == Ok(Rendered(u, text))
  {
    if u.keys == [] { return Ok(text); }
    hide *;
    var refused := ValidateUpdates(u);
    if refused.Some? { return Err(refused.value); }
    var newline := Newline(text);
    var lines := SplitLines(text);
    var output, seen, again := RewriteAll(u, newline, lines);
    if again.Some? {
      RepeatsNotFree(u.values, lines, again.value);
      return Err(Duplicate(again.value));
    }
    var missing := MissingKeys(u.keys, seen.Keys);
    MissingValues(u, seen.Keys);
    ghost var body := output;
    if missing != [] { output := AddMissing(u.values, missing, newline, output); }
    RenderedIs(u, text, body, missing);
    r := Ok(Join(output));
  }

  method MissingKeys(keys: seq<string>, seen: set<string>) returns (missing: seq<string>)
    ensures missing == Missing(keys, seen)
  {
    missing := [];
    for i := 0 to |keys|
      invariant missing == Missing(keys[..i], seen)
    {
      StepMissing(keys, seen, i);
      if keys[i] !in seen { missing := missing + [keys[i]]; }
    }
    assert keys[..|keys|] == keys;
  }

  method AddMissing(values: map<string, string>, missing: seq<string>, newline: string, body: seq<string>)
    returns (output: seq<string>)
    requires forall i :: 0 <= i < |missing| ==> missing[i] in values
    ensures output == Close(body, newline) + Appended(missing, values, newline)
  {
    hide Appended;
    output := body;
    if output != [] && !EndsLine(output[|output| - 1]) {
      output := output[|output| - 1 := output[|output| - 1] + newline];
    }
    ghost var closed := output;
    AppendedNone(values, newline);
    for i := 0 to |missing|
      invariant output == closed + Appended(missing[..i], values, newline)
    {
      StepAppended(missing, values, newline, i);
      output := output + [missing[i] + "=" + values[missing[i]] + newline];
    }
    assert missing[..|missing|] == missing;
  }

  lemma AppendedNone(values: map<string, string>, newline: string)
    ensures Appended([], values, newline) == []
  {
  }

  lemma {:induction false} RepeatsNotFree(u: map<string, string>, lines: seq<string>, key: string)
    requires Repeats(u, lines, key)
    ensures !RepeatFree(u, lines, |lines|)
  {
    hide Target;
  }

  lemma {:induction false} MissingValues(u: Updates, seen: set<string>)
    requires IsDict(u)
    ensures forall i :: 0 <= i < |Missing(u.keys, seen)| ==> Missing(u.keys, seen)[i] in u.values
  {
    MissingAre(u.keys, seen);
  }

  lemma {:induction false} StepAppended(keys: seq<string>, values: map<string, string>, newline: string, i: nat)
    requires i < |keys| && forall j :: 0 <= j < |keys| ==> keys[j] in values
    ensures Appended(keys[..i + 1], values, newline) ==
      Appended(keys[..i], values, newline) + [keys[i] + "=" + values[keys[i]] + newline]
  {
  }

  lemma {:induction false} RenderedIs(u: Updates, text: string, body: seq<string>, missing: seq<string>)
    requires IsDict(u) && body == RewriteLines(u.values, Newline(text), SplitLines(text))
    requires missing == Missing(u.keys, Targets(u.values, SplitLines(text)))
    requires forall i :: 0 <= i < |missing| ==> missing[i] in u.values
    ensures Rendered(u, text) ==
      Join(if missing == [] then body else Close(body, Newline(text)) + Appended(missing, u.values, Newline(text)))
  {
  }

  /** A file that reads without duplicates never makes the editor report one. */
  lemma {:induction false} ReadableIsRepeatFree(u: map<string, string>, text: string)
    requires ReadText(text).Some?
    ensures RepeatFree(u, SplitLines(text), |SplitLines(text)|)
  {
    hide Entry, FromPairs, Pairs;
    var lines := SplitLines(text);
    forall i, j | 0 <= i < j < |lines| && Target(u, lines[i]).Some? ensures Target(u, lines[i]) != Target(u, lines[j]) {
      if Target(u, lines[i]) == Target(u, lines[j]) { RepeatedKeyUnread(lines, i, j); }
    }
  }

  lemma {:induction false} RepeatedKeyUnread(lines: seq<string>, i: nat, j: nat)
    requires i < j < |lines| && Entry(lines[i]).Some? && Entry(lines[j]).Some?
    requires Entry(lines[i]).value.0 == Entry(lines[j]).value.0
    ensures FromPairs(Pairs(lines)) == None
  {
    hide Entry, FromPairs, Listed;
    ListedTwice(Entries(lines), i, j);
  }
}
