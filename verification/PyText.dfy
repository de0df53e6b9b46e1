/** The parts of Python's `str` that the configuration code relies on: whitespace
    stripping, and `splitlines(keepends=True)` with its full set of line boundaries. */
module PyText {

  // Characters that end a line for `str.splitlines`.
  predicate IsBreak(c: char) {
    c == '\n' || c == '\r' || c == '\U{0B}' || c == '\U{0C}' || c == '\U{1C}' || c == '\U{1D}' ||
    c == '\U{1E}' || c == '\U{85}' || c == '\U{2028}' || c == '\U{2029}'
  }

  // `str.isspace`; the regular expression class `\s` on text agrees with it.
  predicate IsSpace(c: char) {
    IsBreak(c) || c == ' ' || c == '\t' || c == '\U{1F}' || c == '\U{A0}' || c == '\U{1680}' ||
    '\U{2000}' <= c <= '\U{200A}' || c == '\U{202F}' || c == '\U{205F}' || c == '\U{3000}'
  }

  predicate NoBreaks(s: string) {
    forall i :: 0 <= i < |s| ==> !IsBreak(s[i])
  }

  function Join(lines: seq<string>): (text: string) {
    if lines == [] then "" else lines[0] + Join(lines[1..])
  }

  function LStrip(s: string): (r: string) {
    if s != "" && IsSpace(s[0]) then LStrip(s[1..]) else s
  }

  function RStrip(s: string): (r: string) {
    if s != "" && IsSpace(s[|s| - 1]) then RStrip(s[..|s| - 1]) else s
  }

  function Strip(s: string): string {
    RStrip(LStrip(s))
  }

  predicate AllSpace(s: string) { forall i :: 0 <= i < |s| ==> IsSpace(s[i]) }

  // Nothing to strip.
  predicate Trim(s: string) { s != "" ==> !IsSpace(s[0]) && !IsSpace(s[|s| - 1]) }

  // Length of the first line of a nonempty text, its terminator included.
  function LineLength(t: string): (n: nat)
    requires t != ""
    ensures 1 <= n <= |t|
  {
    if t[0] == '\r' && |t| > 1 && t[1] == '\n' then 2
    else if IsBreak(t[0]) || |t| == 1 then 1
    else 1 + LineLength(t[1..])
  }

  // `str.splitlines(keepends=True)`
  function SplitLines(t: string): (lines: seq<string>) {
    if t == "" then [] else [t[..LineLength(t)]] + SplitLines(t[LineLength(t)..])
  }

  // `line.rstrip("\r\n")`
  function Content(line: string): (c: string)
    ensures c <= line
  {
    if line != "" && (line[|line| - 1] == '\n' || line[|line| - 1] == '\r')
    then Content(line[..|line| - 1])
    else line
  }

  predicate Terminated(s: string) {
    s != "" && IsBreak(s[|s| - 1])
  }

  // A break falls between `a` and `b`, so that splitting treats the two texts separately.
  predicate Separates(a: string, b: string) {
    a == "" || (Terminated(a) && !(a[|a| - 1] == '\r' && b != "" && b[0] == '\n'))
  }

  lemma {:induction false} JoinAppend(xs: seq<string>, ys: seq<string>)
    ensures Join(xs + ys) == Join(xs) + Join(ys)
  {
    if xs == [] {
      assert xs + ys == ys;
    } else {
      JoinAppend(xs[1..], ys);
      assert (xs + ys)[1..] == xs[1..] + ys;
    }
  }

  /** Splitting loses nothing. */
  lemma {:induction false} JoinSplit(t: string)
    ensures Join(SplitLines(t)) == t
    decreases |t|
  {
    if t != "" {
      JoinSplit(t[LineLength(t)..]);
      assert SplitLines(t)[1..] == SplitLines(t[LineLength(t)..]);
    }
  }

  lemma {:induction false} LineLengthAppend(a: string, b: string)
    requires a != "" && Separates(a, b)
    ensures LineLength(a + b) == LineLength(a)
  {
    assert (a + b)[0] == a[0];
    if |a| > 1 {
      assert (a + b)[1..] == a[1..] + b;
      assert (a + b)[1] == a[1];
      if !IsBreak(a[0]) {
        assert a[1..][|a[1..]| - 1] == a[|a| - 1];
        LineLengthAppend(a[1..], b);
      }
    } else {
      assert b != "" ==> (a + b)[1] == b[0];
    }
  }

  lemma SplitHead(a: string, b: string)
    requires a != "" && Separates(a, b)
    ensures SplitLines(a + b) == [a[..LineLength(a)]] + SplitLines(a[LineLength(a)..] + b)
    ensures Separates(a[LineLength(a)..], b)
  {
    var n := LineLength(a);
    LineLengthAppend(a, b);
    assert (a + b)[..n] == a[..n];
    assert (a + b)[n..] == a[n..] + b;
    if n < |a| { assert a[n..][|a| - n - 1] == a[|a| - 1]; }
  }

  /** Splitting distributes over a concatenation at a line boundary. */
  lemma {:induction false} SplitAppend(a: string, b: string)
    requires Separates(a, b)
    ensures SplitLines(a + b) == SplitLines(a) + SplitLines(b)
    decreases |a|
  {
    if a == "" {
      assert a + b == b;
    } else {
      SplitHead(a, b);
      SplitAppend(a[LineLength(a)..], b);
    }
  }

  lemma {:induction false} UnbrokenLength(s: string)
    requires s != "" && NoBreaks(s)
    ensures LineLength(s) == |s|
  {
    if |s| > 1 { UnbrokenLength(s[1..]); }
  }

  /** A line with a plain body and a CR, LF or CRLF terminator is one line. */
  lemma {:induction false} SplitOneLine(body: string, eol: string)
    requires NoBreaks(body) && eol in {"\n", "\r\n", "\r"}
    ensures IsLine(body + eol) && SplitLines(body + eol) == [body + eol]
  {
    var t := body + eol;
    OneLineLength(body, eol, "");
    assert t + "" == t;
    assert t[..|t|] == t && t[|t|..] == "";
  }

  // The first break ends the first line.
  lemma {:induction false} OneLineLength(body: string, eol: string, rest: string)
    requires NoBreaks(body) && eol in {"\n", "\r\n", "\r"} && !(eol == "\r" && rest != "" && rest[0] == '\n')
    ensures LineLength(body + eol + rest) == |body| + |eol|
  {
    if body == "" {
      assert body + eol + rest == eol + rest;
    } else {
      assert (body + eol + rest)[1..] == body[1..] + eol + rest;
      OneLineLength(body[1..], eol, rest);
    }
  }

  lemma {:induction false} BreakLength(body: string, c: char, rest: string)
    requires NoBreaks(body) && IsBreak(c) && c != '\r'
    ensures LineLength(body + [c] + rest) == |body| + 1
  {
    if body == "" {
      assert body + [c] + rest == [c] + rest;
    } else {
      assert (body + [c] + rest)[1..] == body[1..] + [c] + rest;
      BreakLength(body[1..], c, rest);
    }
  }

  /** What `splitlines` returns: each line is nonempty and only its terminator holds breaks. */
  ghost predicate IsLine(l: string) {
    l != "" && LineLength(l) == |l|
  }

  lemma {:induction false} SplitIsLine(l: string)
    requires IsLine(l)
    ensures SplitLines(l) == [l]
  {
    assert l[..|l|] == l && l[|l|..] == "";
  }

  lemma {:induction false} FirstLineIsLine(t: string)
    requires t != ""
    ensures IsLine(t[..LineLength(t)])
    ensures LineLength(t) < |t| ==> Separates(t[..LineLength(t)], t[LineLength(t)..])
  {
    var n := LineLength(t);
    if !IsBreak(t[0]) && |t| > 1 {
      FirstLineIsLine(t[1..]);
      var m := LineLength(t[1..]);
      assert t[..n][1..] == t[1..][..m];
      assert t[n..] == t[1..][m..];
      assert t[..n][n - 1] == t[1..][..m][m - 1];
    }
  }

  lemma {:induction false} SplitGivesLines(t: string, i: nat)
    requires i < |SplitLines(t)|
    ensures IsLine(SplitLines(t)[i])
    decreases |t|
  {
    FirstLineIsLine(t);
    if i > 0 { SplitGivesLines(t[LineLength(t)..], i - 1); }
  }

  lemma {:induction false} LStripSpace(s: string, w: char)
    requires IsSpace(w)
    ensures LStrip(s + [w]) == if LStrip(s) == "" then "" else LStrip(s) + [w]
  {
    if s == "" {
      assert s + [w] == [w];
      assert LStrip([w][1..]) == "";
    } else if IsSpace(s[0]) {
      LStripSpace(s[1..], w);
      assert (s + [w])[1..] == s[1..] + [w];
    }
  }

  lemma {:induction false} StripSpace(s: string, w: char)
    requires IsSpace(w)
    ensures Strip(s + [w]) == Strip(s)
  {
    LStripSpace(s, w);
    var l := LStrip(s);
    if l != "" {
      assert (l + [w])[..|l + [w]| - 1] == l;
    }
  }

  lemma {:induction false} LStripSuffix(s: string)
    ensures |LStrip(s)| <= |s| && LStrip(s) == s[|s| - |LStrip(s)|..]
    ensures LStrip(s) != "" ==> !IsSpace(LStrip(s)[0])
    ensures forall i :: 0 <= i < |s| - |LStrip(s)| ==> IsSpace(s[i])
  {
    if s != "" && IsSpace(s[0]) {
      LStripSuffix(s[1..]);
      var k := |s| - |LStrip(s)|;
      assert forall i :: 0 < i < k ==> s[i] == s[1..][i - 1];
    }
  }

  lemma {:induction false} RStripPrefix(s: string)
    ensures |RStrip(s)| <= |s| && RStrip(s) == s[..|RStrip(s)|]
    ensures RStrip(s) != "" ==> !IsSpace(RStrip(s)[|RStrip(s)| - 1])
    ensures forall i :: |RStrip(s)| <= i < |s| ==> IsSpace(s[i])
  {
    if s != "" && IsSpace(s[|s| - 1]) { RStripPrefix(s[..|s| - 1]); }
  }

  /** `strip` leaves no edge whitespace, and leaves a string without any unchanged. */
  lemma {:induction false} StripEdges(s: string)
    ensures Strip(s) != "" ==> !IsSpace(Strip(s)[0]) && !IsSpace(Strip(s)[|Strip(s)| - 1])
    ensures s == "" || (!IsSpace(s[0]) && !IsSpace(s[|s| - 1])) ==> Strip(s) == s
  {
    LStripSuffix(s);
    RStripPrefix(LStrip(s));
  }

  lemma {:induction false} LStripSpaces(w: string, rest: string)
    requires AllSpace(w) && (rest != "" ==> !IsSpace(rest[0]))
    ensures LStrip(w + rest) == rest
  {
    if w == "" {
      assert w + rest == rest;
    } else {
      assert (w + rest)[1..] == w[1..] + rest;
      LStripSpaces(w[1..], rest);
    }
  }

  lemma {:induction false} RStripSpaces(s: string, w: string)
    requires AllSpace(w) && (s != "" ==> !IsSpace(s[|s| - 1]))
    ensures RStrip(s + w) == s
  {
    if w == "" {
      assert s + w == s;
    } else {
      assert (s + w)[..|s + w| - 1] == s + w[..|w| - 1];
      RStripSpaces(s, w[..|w| - 1]);
    }
  }

  /** `strip` takes off exactly the whitespace around a text. */
  lemma {:induction false} StripIs(before: string, s: string, after: string)
    requires AllSpace(before) && AllSpace(after) && Trim(s)
    ensures Strip(before + s + after) == s
  {
    if s == "" {
      LStripSpaces(before + after, "");
      assert before + s + after == (before + after) + "";
    } else {
      LStripSpaces(before, s + after);
      assert before + s + after == before + (s + after);
      RStripSpaces(s, after);
    }
  }

  lemma {:induction false} RStripAfter(s: string, c: char, r: string)
    requires !IsSpace(c)
    ensures RStrip(s + [c] + r) == s + [c] + RStrip(r)
  {
    RStripPrefix(r);
    var l := RStrip(r);
    hide RStrip;
    assert r == l + r[|l|..] && s + [c] + r == (s + [c] + l) + r[|l|..];
    assert (s + [c] + l)[|s + [c] + l| - 1] == if l == "" then c else l[|l| - 1];
    RStripSpaces(s + [c] + l, r[|l|..]);
  }

  lemma {:induction false} LStripBefore(s: string, c: char, r: string)
    requires !IsSpace(c)
    ensures LStrip(s + [c] + r) == LStrip(s) + [c] + r
  {
    LStripSuffix(s);
    var l := LStrip(s);
    hide LStrip;
    var w := s[..|s| - |l|];
    assert s == w + l && s + [c] + r == w + (l + [c] + r);
    assert forall i :: 0 <= i < |w| ==> w[i] == s[i];
    LStripSpaces(w, l + [c] + r);
  }

  // Stripping one side first makes no difference.
  lemma {:induction false} StripHalf(s: string)
    ensures Strip(LStrip(s)) == Strip(s) && Strip(RStrip(s)) == Strip(s)
  {
    var before, after := StripParts(s);
    var m := Strip(s);
    LStripSpaces("", LStrip(s)) by { LStripSuffix(s); }
    assert "" + LStrip(s) == LStrip(s);
    if m == "" {
      RStripSpaces("", s) by { assert s == before + after; }
      assert "" + s == s;
    } else {
      RStripSpaces(before + m, after);
      StripIs(before, m, "");
      assert before + m + "" == before + m;
    }
  }

  lemma {:induction false} StripParts(s: string) returns (before: string, after: string)
    ensures AllSpace(before) && AllSpace(after) && Trim(Strip(s)) && s == before + Strip(s) + after
  {
    var l := LStrip(s);
    LStripSuffix(s);
    RStripPrefix(l);
    StripEdges(s);
    before, after := s[..|s| - |l|], l[|Strip(s)|..];
    assert s == before + l && l == Strip(s) + after;
  }

  // The parts of a path, as `split("/")` gives them.
  function Parts(s: string): (parts: seq<string>)
    ensures parts != []
  {
    if s == "" then [""]
    else if s[0] == '/' then [""] + Parts(s[1..])
    else [[s[0]] + Parts(s[1..])[0]] + Parts(s[1..])[1..]
  }

  lemma PartsHead(s: string)
    requires s != ""
    ensures Parts(s) == Front(s[0], Parts(s[1..]))
  {
  }

  // Putting a character in front of the first of some parts.
  function Front(c: char, parts: seq<string>): seq<string>
    requires parts != []
  {
    if c == '/' then [""] + parts else [[c] + parts[0]] + parts[1..]
  }

  lemma FrontAppend(c: char, r: seq<string>, q: seq<string>)
    requires r != []
    ensures Front(c, r + q) == Front(c, r) + q
  {
    assert (r + q)[0] == r[0] && (r + q)[1..] == r[1..] + q;
  }

  lemma {:induction false} PartsAppend(a: string, b: string)
    ensures Parts(a + "/" + b) == Parts(a) + Parts(b)
  {
    hide Parts, Front;
    var s := a + "/" + b;
    PartsHead(s);
    if a == "" {
      PartsEmpty();
      assert s[0] == '/' && s[1..] == b;
      FrontSlash(Parts(b));
    } else {
      PartsHead(a);
      assert s[0] == a[0] && s[1..] == a[1..] + "/" + b;
      PartsAppend(a[1..], b);
      FrontAppend(a[0], Parts(a[1..]), Parts(b));
    }
  }

  lemma PartsEmpty()
    ensures Parts("") == [""]
  {
  }

  lemma FrontSlash(parts: seq<string>)
    requires parts != []
    ensures Front('/', parts) == [""] + parts
  {
  }

  lemma {:induction false} PartsEqual(a: string, b: string)
    requires Parts(a) == Parts(b)
    ensures a == b
  {
    JoinParts(a);
    JoinParts(b);
  }

  function JoinSlash(parts: seq<string>): string
    requires parts != []
  {
    if |parts| == 1 then parts[0] else parts[0] + "/" + JoinSlash(parts[1..])
  }

  lemma {:induction false} JoinParts(s: string)
    ensures JoinSlash(Parts(s)) == s
  {
    if s != "" {
      JoinParts(s[1..]);
      var rest := Parts(s[1..]);
      if s[0] == '/' {
        assert Parts(s)[1..] == rest;
        assert "" + "/" + s[1..] == s;
      } else {
        assert Parts(s)[1..] == rest[1..];
        assert [s[0]] + s[1..] == s;
      }
    }
  }

  lemma {:induction false} JoinSlashAppend(a: seq<string>, b: seq<string>)
    requires a != [] && b != []
    ensures JoinSlash(a + b) == JoinSlash(a) + "/" + JoinSlash(b)
  {
    if |a| == 1 {
      assert (a + b)[1..] == b;
    } else {
      JoinSlashAppend(a[1..], b);
      assert (a + b)[1..] == a[1..] + b;
    }
  }

  lemma {:induction false} PlainPart(s: string)
    requires '/' !in s
    ensures Parts(s) == [s]
  {
    if s != "" {
      PlainPart(s[1..]);
      assert s == [s[0]] + s[1..] && s[0] != '/';
      assert [s[0]] + s[1..] + "" == s;
    }
  }

  /** Parts joined by slashes are found again. */
  lemma {:induction false} PartsOfJoin(parts: seq<string>)
    requires parts != [] && forall i :: 0 <= i < |parts| ==> '/' !in parts[i]
    ensures Parts(JoinSlash(parts)) == parts
  {
    PlainPart(parts[0]);
    if |parts| > 1 {
      PartsOfJoin(parts[1..]);
      PartsAppend(parts[0], JoinSlash(parts[1..]));
    }
  }

  lemma {:induction false} PartsPlain(s: string)
    ensures forall i :: 0 <= i < |Parts(s)| ==> '/' !in Parts(s)[i] && forall c :: c in Parts(s)[i] ==> c in s
  {
    if s != "" {
      PartsPlain(s[1..]);
      PartsHead(s);
      hide Parts;
      assert s == [s[0]] + s[1..];
    }
  }
}
