/** The streaming trace sanitizer: complete bounded lines are cleaned before a bounded tail
    is kept, so neither chunking nor tail eviction can expose a fragment. Regular expressions
    act on one line at a time and are parameters (`LineRules`). */
module LogEvidence {
  import opened Wrappers
  import opened Utf8

  const MAX_TAIL_BYTES: nat := 80_000
  const MAX_TRACE_BYTES: nat := 16 * 1024 * 1024
  const MAX_LINE_BYTES: nat := 64 * 1024
  const LF: Byte := 10
  const KEY_NOTICE := "[REDACTED:Private key block]\n"
  const KEY_KIND := "Private key block"

  datatype Marker = BeginKey | EndKey

  /** The per-line rules: removal of CSI sequences and of control characters, the private-key
      markers found in a line in order, and the credential redactor with the kinds it hit. */
  datatype LineRules = LineRules(
    stripCsi: string -> string,
    stripControls: string -> string,
    markers: string -> seq<Marker>,
    redact: string -> (string, seq<string>))

  datatype TraceError = InvalidLimits | ProcessorClosed | ByteLimit | LineLimit | NotUtf8 | Escape | Incomplete

  datatype Report = Report(content: string, truncated: bool, originalBytes: nat, sanitizedBytes: nat,
                           returnedBytes: nat, tailBytes: nat, redactions: set<string>)

  function TailCap(tailBytes: int): (cap: nat)
    ensures 1000 <= cap <= MAX_TAIL_BYTES && (1000 <= tailBytes <= MAX_TAIL_BYTES ==> cap == tailBytes)
  {
    if tailBytes < 1000 then 1000 else if tailBytes > MAX_TAIL_BYTES then MAX_TAIL_BYTES else tailBytes
  }

  predicate GoodLimits(maxTrace: int, maxLine: int) {
    1 <= maxTrace <= MAX_TRACE_BYTES && 1 <= maxLine <= MAX_LINE_BYTES
  }

  // ---------- The one-shot specification ----------

  function Concat(parts: seq<seq<Byte>>): seq<Byte> {
    if parts == [] then [] else parts[0] + Concat(parts[1..])
  }

  predicate NoLf(s: seq<Byte>, from: nat, to: nat)
    requires from <= to <= |s|
  {
    forall j :: from <= j < to ==> s[j] != LF
  }

  // Index of the first LF at or after `from`; -1 when there is none (bytes.find).
  function Find(s: seq<Byte>, from: nat): (i: int)
    requires from <= |s|
    ensures i == -1 || from <= i < |s|
    ensures if i < 0 then NoLf(s, from, |s|) else s[i] == LF && NoLf(s, from, i)
    decreases |s| - from
  {
    if from == |s| then -1 else if s[from] == LF then from else Find(s, from + 1)
  }

  datatype Split = Split(lines: seq<seq<Byte>>, rest: seq<Byte>)

  // Complete lines, each with its LF, and the unterminated remainder.
  function SplitLf(s: seq<Byte>): Split
    decreases |s|
  {
    var i := Find(s, 0);
    if i < 0 then Split([], s) else
      var tail := SplitLf(s[i + 1..]);
      Split([s[..i + 1]] + tail.lines, tail.rest)
  }

  function AllLines(s: seq<Byte>): seq<seq<Byte>> {
    SplitLf(s).lines + if SplitLf(s).rest == [] then [] else [SplitLf(s).rest]
  }

  // The visible text of one line, unless it must be refused.
  function Clean(rules: LineRules, line: seq<Byte>): Result<string, TraceError> {
    match Decode(line)
    case None => Err(NotUtf8)
    case Some(text) =>
      var plain := rules.stripCsi(text);
      if '\U{1B}' in plain then Err(Escape) else Ok(rules.stripControls(plain))
  }

  // One more visible text, unless its line or an earlier one must be refused.
  function Push(rules: LineRules, texts: Option<seq<string>>, line: seq<Byte>): Option<seq<string>> {
    match Clean(rules, line)
    case Err(_) => None
    case Ok(text) => if texts.None? then None else Some(texts.value + [text])
  }

  function CleanAll(rules: LineRules, lines: seq<seq<Byte>>): (texts: Option<seq<string>>)
    ensures texts.Some? ==> |texts.value| == |lines|
  {
    if lines == [] then Some([]) else
      Push(rules, CleanAll(rules, lines[..|lines| - 1]), lines[|lines| - 1])
  }

  // Whether a private-key block is open after `texts`: the last marker of all decides.
  predicate KeyOpen(rules: LineRules, texts: seq<string>) {
    if texts == [] then false else
      var marks := rules.markers(texts[|texts| - 1]);
      if marks != [] then marks[|marks| - 1] == BeginKey else KeyOpen(rules, texts[..|texts| - 1])
  }

  // Line `i` lies inside a key block or carries one of its markers.
  predicate Hidden(rules: LineRules, texts: seq<string>, i: nat)
    requires i < |texts|
  {
    KeyOpen(rules, texts[..i]) || rules.markers(texts[i]) != []
  }

  function Contribution(rules: LineRules, texts: seq<string>, i: nat): string
    requires i < |texts|
  {
    if !Hidden(rules, texts, i) then rules.redact(texts[i]).0
    else if KeyOpen(rules, texts[..i]) then "" else KEY_NOTICE
  }

  function Output(rules: LineRules, texts: seq<string>): string {
    if texts == [] then "" else
      Output(rules, texts[..|texts| - 1]) + Contribution(rules, texts, |texts| - 1)
  }

  function Category(kind: string): string {
    if "assignment:" <= kind then "secret assignment" else kind
  }

  function Categories(kinds: seq<string>): set<string> {
    set k | k in kinds :: Category(k)
  }

  function Redactions(rules: LineRules, texts: seq<string>): set<string> {
    if texts == [] then {} else
      var n := |texts| - 1;
      Redactions(rules, texts[..n]) +
      if Hidden(rules, texts, n) then {KEY_KIND} else Categories(rules.redact(texts[n]).1)
  }

  function Last(s: seq<Byte>, cap: nat): seq<Byte> {
    if |s| <= cap then s else s[|s| - cap..]
  }

  function ReportOf(rules: LineRules, cap: nat, texts: seq<string>, total: nat): Report {
    var bytes := Encode(Output(rules, texts));
    var content := DecodeIgnore(Last(bytes, cap));
    Report(content, total > cap || |bytes| > cap, total, |bytes|, |Encode(content)|, cap, Redactions(rules, texts))
  }

  predicate WithinLimits(input: seq<Byte>, maxTrace: nat, maxLine: nat) {
    |input| <= maxTrace && WithinLine(SplitLf(input), maxLine)
  }

  predicate WithinLine(s: Split, maxLine: nat) {
    |s.rest| <= maxLine && forall i :: 0 <= i < |s.lines| ==> |s.lines[i]| <= maxLine
  }

  // What has been received so far may still become a readable trace.
  predicate Acceptable(rules: LineRules, maxTrace: nat, maxLine: nat, input: seq<Byte>) {
    WithinLimits(input, maxTrace, maxLine) && CleanAll(rules, SplitLf(input).lines).Some?
  }

  // The whole trace, processed at once.
  function OneShot(rules: LineRules, cap: nat, maxTrace: nat, maxLine: nat, input: seq<Byte>): Option<Report> {
    if !WithinLimits(input, maxTrace, maxLine) then None else
      Reported(rules, cap, CleanAll(rules, AllLines(input)), |input|)
  }

  function Reported(rules: LineRules, cap: nat, texts: Option<seq<string>>, total: nat): Option<Report> {
    if texts.None? then None else Some(ReportOf(rules, cap, texts.value, total))
  }

  // ---------- Splitting ----------

  lemma FindAppend(s: seq<Byte>, more: seq<Byte>)
    requires Find(s, 0) >= 0
    ensures Find(s + more, 0) == Find(s, 0)
  {
    var i := Find(s, 0);
    assert (s + more)[i] == LF;
  }

  // A line feed found later closes the line begun by bytes that hold none.
  lemma FindAfter(start: seq<Byte>, s: seq<Byte>, i: nat)
    requires NoLf(start, 0, |start|) && i < |s| && s[i] == LF && NoLf(s, 0, i)
    ensures Find(start + s, 0) == |start| + i
  {
    assert (start + s)[|start| + i] == LF;
  }

  lemma SplitFirst(l: seq<Byte>, rest: seq<Byte>)
    requires l != [] && Find(l, 0) == |l| - 1
    ensures SplitLf(l + rest) == Split([l] + SplitLf(rest).lines, SplitLf(rest).rest)
  {
    FindAppend(l, rest);
    assert (l + rest)[..|l|] == l && (l + rest)[|l|..] == rest;
  }

  lemma SplitNone(s: seq<Byte>)
    requires NoLf(s, 0, |s|)
    ensures SplitLf(s) == Split([], s)
  {
  }

  /** Splitting resumes from the unterminated remainder when more bytes arrive. */
  lemma {:induction false} SplitContinue(s: seq<Byte>, more: seq<Byte>)
    ensures Resumes(SplitLf(s + more), SplitLf(s).lines, SplitLf(s).rest + more)
    decreases |s|
  {
    var i := Find(s, 0);
    if i >= 0 {
      var l, tail := s[..i + 1], s[i + 1..];
      SplitContinue(tail, more);
      assert s == l + tail && s + more == l + (tail + more);
      FirstLine(s);
      SplitFirst(l, tail);
      SplitFirst(l, tail + more);
      Regroup([l], SplitLf(tail).lines, SplitLf(SplitLf(tail).rest + more).lines);
    } else {
      Regroup([], [], SplitLf(s + more).lines);
    }
  }

  lemma FirstLine(s: seq<Byte>)
    requires Find(s, 0) >= 0
    ensures Find(s[..Find(s, 0) + 1], 0) == Find(s, 0)
  {
    var l := s[..Find(s, 0) + 1];
    assert l[Find(s, 0)] == LF;
  }

  lemma Regroup<T>(a: seq<T>, b: seq<T>, c: seq<T>)
    ensures a + b + c == a + (b + c) && [] + c == c
  {
  }

  lemma {:induction false} RestHasNoLf(s: seq<Byte>)
    ensures NoLf(SplitLf(s).rest, 0, |SplitLf(s).rest|)
    decreases |s|
  {
    if Find(s, 0) >= 0 { RestHasNoLf(s[Find(s, 0) + 1..]); }
  }

  lemma {:induction false} CleanAllAppend(rules: LineRules, xs: seq<seq<Byte>>, ys: seq<seq<Byte>>)
    ensures CleanAll(rules, xs + ys).Some? <==> CleanAll(rules, xs).Some? && CleanAll(rules, ys).Some?
    decreases |ys|
  {
    if ys == [] {
      assert xs + ys == xs;
    } else {
      var init := ys[..|ys| - 1];
      assert (xs + ys)[..|xs + ys| - 1] == xs + init;
      CleanAllAppend(rules, xs, init);
    }
  }

  lemma LongRest(rest: seq<Byte>, more: seq<Byte>, maxLine: nat)
    requires NoLf(rest, 0, |rest|) && |rest| > maxLine
    ensures !WithinLine(SplitLf(rest + more), maxLine)
  {
    if Find(rest + more, 0) >= 0 {
      assert SplitLf(rest + more).lines[0] == (rest + more)[..Find(rest + more, 0) + 1];
    }
  }

  /** Once what has arrived cannot be accepted, nothing that follows can repair it. */
  lemma RefusalIsFinal(rules: LineRules, cap: nat, maxTrace: nat, maxLine: nat, seen: seq<Byte>, more: seq<Byte>)
    requires !Acceptable(rules, maxTrace, maxLine, seen)
    ensures OneShot(rules, cap, maxTrace, maxLine, seen + more) == None
  {
    var before, all := SplitLf(seen), SplitLf(seen + more);
    var after := SplitLf(before.rest + more);
    SplitContinue(seen, more);
    CleanAllAppend(rules, before.lines, after.lines);
    CleanAllAppend(rules, all.lines, if all.rest == [] then [] else [all.rest]);
    if |before.rest| > maxLine {
      RestHasNoLf(seen);
      LongRest(before.rest, more, maxLine);
    }
    if WithinLine(all, maxLine) { WithinLineParts(before.lines, after, maxLine); }
  }

  lemma WithinLineParts(lines: seq<seq<Byte>>, after: Split, maxLine: nat)
    requires WithinLine(Split(lines + after.lines, after.rest), maxLine)
    ensures WithinLine(Split(lines, []), maxLine) && WithinLine(after, maxLine)
  {
    forall i | 0 <= i < |lines| ensures |lines[i]| <= maxLine {
      assert (lines + after.lines)[i] == lines[i];
    }
    forall i | 0 <= i < |after.lines| ensures |after.lines[i]| <= maxLine {
      assert (lines + after.lines)[|lines| + i] == after.lines[i];
    }
  }

  // The whole input splits into the lines done and the lines of what is still to do.
  ghost predicate Resumes(all: Split, done: seq<seq<Byte>>, todo: seq<Byte>) {
    all == Split(done + SplitLf(todo).lines, SplitLf(todo).rest)
  }

  // The next piece of a chunk either completes the pending line...
  lemma PieceEndsLine(all: Split, done: seq<seq<Byte>>, pending: seq<Byte>, chunk: seq<Byte>, offset: nat)
    requires offset < |chunk| && NoLf(pending, 0, |pending|) && Resumes(all, done, pending + chunk[offset..])
    requires Find(chunk, offset) >= 0
    ensures var stop := Find(chunk, offset) + 1;
      var line := pending + chunk[offset..stop];
      && Resumes(all, done + [line], chunk[stop..])
      && |done| < |all.lines| && all.lines[..|done| + 1] == done + [line] && all.lines[|done|] == line
  {
    var stop := Find(chunk, offset) + 1;
    var line, rest := pending + chunk[offset..stop], chunk[stop..];
    assert pending + chunk[offset..] == line + rest;
    FindAfter(pending, chunk[offset..stop], stop - 1 - offset);
    SplitFirst(line, rest);
    Regroup(done, [line], SplitLf(rest).lines);
  }

  lemma LineEnds(rules: LineRules, all: Split, done: seq<seq<Byte>>, pending: seq<Byte>, chunk: seq<Byte>, offset: nat)
    requires offset < |chunk| && NoLf(pending, 0, |pending|) && Resumes(all, done, pending + chunk[offset..])
    requires Find(chunk, offset) >= 0
    ensures var stop := Find(chunk, offset) + 1;
      var line := pending + chunk[offset..stop];
      && Resumes(all, done + [line], [] + chunk[stop..])
      && CleanAll(rules, done + [line]) == Push(rules, CleanAll(rules, done), line)
      && (CleanAll(rules, done + [line]) == None ==> CleanAll(rules, all.lines) == None)
  {
    var stop := Find(chunk, offset) + 1;
    PieceEndsLine(all, done, pending, chunk, offset);
    OneMore(rules, all, done, pending + chunk[offset..stop]);
    assert [] + chunk[stop..] == chunk[stop..];
  }

  // ...or is all that remains.
  lemma PieceRemains(all: Split, done: seq<seq<Byte>>, pending: seq<Byte>, chunk: seq<Byte>, offset: nat)
    requires offset < |chunk| && NoLf(pending, 0, |pending|) && Resumes(all, done, pending + chunk[offset..])
    requires Find(chunk, offset) < 0
    ensures var rest := pending + chunk[offset..|chunk|];
      NoLf(rest, 0, |rest|) && all.rest == rest && Resumes(all, done, rest + chunk[|chunk|..])
  {
    var rest := pending + chunk[offset..|chunk|];
    assert rest == pending + chunk[offset..] && rest + chunk[|chunk|..] == rest;
    SplitNone(rest);
  }

  lemma {:induction false} TooLong(all: Split, done: seq<seq<Byte>>, pending: seq<Byte>, chunk: seq<Byte>, offset: nat,
                                   maxLine: nat)
    requires offset < |chunk| && NoLf(pending, 0, |pending|) && Resumes(all, done, pending + chunk[offset..])
    requires |pending| + (if Find(chunk, offset) < 0 then |chunk| else Find(chunk, offset) + 1) - offset > maxLine
    ensures !WithinLine(all, maxLine)
  {
    hide SplitLf, Find, Resumes, NoLf;
    if Find(chunk, offset) >= 0 {
      PieceEndsLine(all, done, pending, chunk, offset);
      assert |all.lines[|done|]| > maxLine;
    } else {
      PieceRemains(all, done, pending, chunk, offset);
    }
  }

  lemma OneMore(rules: LineRules, all: Split, done: seq<seq<Byte>>, line: seq<Byte>)
    requires |done| < |all.lines| && all.lines[..|done| + 1] == done + [line]
    ensures CleanAll(rules, done + [line]) == Push(rules, CleanAll(rules, done), line)
    ensures CleanAll(rules, done + [line]) == None ==> CleanAll(rules, all.lines) == None
  {
    assert (done + [line])[..|done|] == done;
    assert all.lines == done + [line] + all.lines[|done| + 1..];
    CleanAllAppend(rules, done + [line], all.lines[|done| + 1..]);
  }

  lemma OneShotOfAccepted(rules: LineRules, cap: nat, maxTrace: nat, maxLine: nat, s: seq<Byte>, texts: seq<string>)
    requires WithinLimits(s, maxTrace, maxLine) && CleanAll(rules, SplitLf(s).lines) == Some(texts)
    ensures OneShot(rules, cap, maxTrace, maxLine, s) ==
      Reported(rules, cap,
               if SplitLf(s).rest == [] then Some(texts) else Push(rules, Some(texts), SplitLf(s).rest), |s|)
  {
    var Split(lines, rest) := SplitLf(s);
    if rest == [] {
      assert AllLines(s) == lines;
    } else {
      assert AllLines(s) == lines + [rest] && (lines + [rest])[..|lines|] == lines;
    }
  }

  lemma LastOfAppend(s: seq<Byte>, more: seq<Byte>, cap: nat)
    ensures Last(s + more, cap) == Last(Last(s, cap) + Last(more, cap), cap)
  {
  }

  // ---------- The processor ----------

  class SafeLogTail {
    const rules: LineRules
    const cap: nat
    const maxTrace: nat
    const maxLine: nat
    var total: nat
    var sanitizedTotal: nat
    var pending: seq<Byte>
    var tail: seq<Byte>
    var redactions: set<string>
    var inKey: bool
    var closed: bool
    ghost var received: seq<Byte>     // everything fed so far
    ghost var texts: seq<string>      // the visible texts of its complete lines

    // The retained state is a function of the texts so far.
    ghost predicate Retained()
      reads this
    {
      && 0 < cap
      && sanitizedTotal == |Encode(Output(rules, texts))|
      && tail == Last(Encode(Output(rules, texts)), cap)
      && inKey == KeyOpen(rules, texts) && redactions == Redactions(rules, texts)
    }

    ghost predicate Valid()
      reads this
    {
      && Retained()
      && Acceptable(rules, maxTrace, maxLine, received)
      && CleanAll(rules, SplitLf(received).lines) == Some(texts)
      && pending == SplitLf(received).rest
      && total == |received|
    }

    constructor (rules: LineRules, tailBytes: int, maxTrace: nat, maxLine: nat)
      requires GoodLimits(maxTrace, maxLine)
      ensures Valid() && !closed && received == []
      ensures this.rules == rules && cap == TailCap(tailBytes) && this.maxTrace == maxTrace && this.maxLine == maxLine
    {
      this.rules, this.cap, this.maxTrace, this.maxLine := rules, TailCap(tailBytes), maxTrace, maxLine;
      total, sanitizedTotal, pending, tail, redactions, inKey, closed := 0, 0, [], [], {}, false, false;
      received, texts := [], [];
    }

    method Feed(chunk: seq<Byte>) returns (error: Option<TraceError>)
      requires Valid()
      modifies this
      ensures old(closed) ==> error == Some(ProcessorClosed) && unchanged(this)
      ensures !old(closed) ==>
        (error.None? <==> Acceptable(rules, maxTrace, maxLine, old(received) + chunk))
      ensures error.None? ==> Valid() && !closed && received == old(received) + chunk
    {
      if closed { return Some(ProcessorClosed); }
      ghost var input := received + chunk;
      total := total + |chunk|;
      if total > maxTrace { return Some(ByteLimit); }
      SplitContinue(received, chunk);
      RestHasNoLf(received);
      error := Consume(chunk, SplitLf(received).lines, SplitLf(input));
      received := input;
    }

    // What the loop of `feed` has achieved when `todo` bytes are still to be looked at.
    ghost predicate Partway(all: Split, done: seq<seq<Byte>>, todo: seq<Byte>)
      reads this
    {
      && Retained() && CleanAll(rules, done) == Some(texts)
      && WithinLine(Split(done, pending), maxLine) && NoLf(pending, 0, |pending|)
      && Resumes(all, done, pending + todo)
    }

    // The loop of `feed`: complete the pending line from the chunk, line after line.
    method Consume(chunk: seq<Byte>, ghost before: seq<seq<Byte>>, ghost all: Split) returns (error: Option<TraceError>)
      requires Partway(all, before, chunk)
      modifies this`inKey, this`redactions, this`tail, this`sanitizedTotal, this`texts, this`pending
      ensures error.None? <==> WithinLine(all, maxLine) && CleanAll(rules, all.lines).Some?
      ensures error.None? ==> Retained() && pending == all.rest && CleanAll(rules, all.lines) == Some(texts)
    {
      var offset := 0;
      ghost var done := before;
      assert chunk[offset..] == chunk;
      while offset < |chunk|
        invariant offset <= |chunk| && Partway(all, done, chunk[offset..])
      {
        var end := Find(chunk, offset);
        var stop := if end < 0 then |chunk| else end + 1;
        if |pending| + stop - offset > maxLine {
          TooLong(all, done, pending, chunk, offset, maxLine);
          return Some(LineLimit);
        }
        done, error := Take(chunk, offset, stop, all, done);
        if error.Some? { return; }
        offset := stop;
      }
      assert pending + chunk[offset..] == pending;
      SplitNone(pending);
      assert done + [] == done;
      error := None;
    }

    // One turn of that loop: extend the pending line, and process it when it is complete.
    method Take(chunk: seq<Byte>, offset: nat, stop: nat, ghost all: Split, ghost done: seq<seq<Byte>>)
      returns (ghost done': seq<seq<Byte>>, error: Option<TraceError>)
      requires offset < |chunk| && Partway(all, done, chunk[offset..])
      requires stop == if Find(chunk, offset) < 0 then |chunk| else Find(chunk, offset) + 1
      requires |pending| + stop - offset <= maxLine
      modifies this`inKey, this`redactions, this`tail, this`sanitizedTotal, this`texts, this`pending
      ensures offset < stop <= |chunk|
      ensures if error.None? then Partway(all, done', chunk[stop..]) else CleanAll(rules, all.lines) == None
    {
      ghost var line := pending + chunk[offset..stop];
      ghost var before := pending;
      pending := pending + chunk[offset..stop];
      if Find(chunk, offset) >= 0 {
        LineEnds(rules, all, done, before, chunk, offset);
        done' := done + [line];
        error := Line(pending);
        pending := [];
      } else {
        PieceRemains(all, done, before, chunk, offset);
        done', error := done, None;
      }
    }

    method Line(raw: seq<Byte>) returns (error: Option<TraceError>)
      requires Retained()
      modifies this`inKey, this`redactions, this`tail, this`sanitizedTotal, this`texts
      ensures error == match Clean(rules, raw) case Ok(_) => None case Err(e) => Some(e)
      ensures error.None? ==> Retained() && texts == old(texts) + [Clean(rules, raw).value]
      ensures error.Some? ==> unchanged(this)
    {
      hide Encode, Decode, Last;
      var decoded := Decode(raw);
      if decoded.None? { return Some(NotUtf8); }
      var text := rules.stripCsi(decoded.value);
      if '\U{1B}' in text { return Some(Escape); }
      text := rules.stripControls(text);
      ghost var now := texts + [text];
      assert now[..|texts|] == texts;
      var markers := rules.markers(text);
      if inKey || markers != [] {
        if !inKey {
          Append(KEY_NOTICE);
        } else {
          assert Output(rules, texts) + "" == Output(rules, texts);
        }
        redactions := redactions + {KEY_KIND};
        if markers != [] {
          inKey := markers[|markers| - 1] == BeginKey;
        }
      } else {
        var (redacted, kinds) := rules.redact(text);
        redactions := redactions + Categories(kinds);
        Append(redacted);
      }
      texts := now;
      error := None;
    }

    method Append(text: string)
      requires 0 < cap && sanitizedTotal == |Encode(Output(rules, texts))|
      requires tail == Last(Encode(Output(rules, texts)), cap)
      modifies this`tail, this`sanitizedTotal
      ensures sanitizedTotal == |Encode(Output(rules, texts) + text)|
      ensures tail == Last(Encode(Output(rules, texts) + text), cap)
    {
      var raw := Encode(text);
      ghost var sofar := Encode(Output(rules, texts));
      EncodeAppend(Output(rules, texts), text);
      LastOfAppend(sofar, raw, cap);
      sanitizedTotal := sanitizedTotal + |raw|;
      tail := tail + if |raw| <= cap then raw else raw[|raw| - cap..];
      if |tail| > cap {
        tail := tail[|tail| - cap..];
      }
    }

    method Finish() returns (r: Result<Report, TraceError>)
      requires Valid()
      modifies this
      ensures old(closed) ==> r == Err(ProcessorClosed) && unchanged(this)
      ensures !old(closed) ==>
        var whole := OneShot(rules, cap, maxTrace, maxLine, old(received));
        if whole.Some? then r == Ok(whole.value) && closed else r.Err?
    {
      hide OneShot, ReportOf, Encode, Output, Last, KeyOpen, Redactions, SplitLf, CleanAll, Push, WithinLimits;
      if closed { return Err(ProcessorClosed); }
      OneShotOfAccepted(rules, cap, maxTrace, maxLine, received, texts);
      var failure := Flush();
      if failure.Some? { return Err(failure.value); }
      closed := true;
      var report := Summary();
      r := Ok(report);
    }

    // An unterminated last line is processed like any other.
    method Flush() returns (error: Option<TraceError>)
      requires Retained()
      modifies this`inKey, this`redactions, this`tail, this`sanitizedTotal, this`texts, this`pending
      ensures var now := if old(pending) == [] then Some(old(texts)) else Push(rules, Some(old(texts)), old(pending));
        if error.None? then now == Some(texts) && Retained() else now == None
    {
      error := None;
      if pending != [] {
        error := Line(pending);
        pending := [];
      }
    }

    method Summary() returns (report: Report)
      requires Retained()
      ensures report == ReportOf(rules, cap, texts, total)
    {
      var content := DecodeIgnore(tail);
      report := Report(content, total > cap || sanitizedTotal > cap, total, sanitizedTotal,
                       |Encode(content)|, cap, redactions);
    }
  }

  /** Reading a trace chunk by chunk gives what one pass over the whole trace gives, however it
      was split; `expected` is the announced length, when there is one. */
  method ReadTrace(rules: LineRules, tailBytes: int, maxTrace: int, maxLine: int,
                   chunks: seq<seq<Byte>>, expected: Option<nat>) returns (r: Result<Report, TraceError>)
    ensures !GoodLimits(maxTrace, maxLine) ==> r == Err(InvalidLimits)
    ensures GoodLimits(maxTrace, maxLine) ==>
      var whole := OneShot(rules, TailCap(tailBytes), maxTrace, maxLine, Concat(chunks));
      if whole.None? then r.Err?
      else if expected.Some? && expected.value != |Concat(chunks)| then r == Err(Incomplete)
      else r == Ok(whole.value)
  {
    hide OneShot, Acceptable, SplitLf, CleanAll;
    if !GoodLimits(maxTrace, maxLine) { return Err(InvalidLimits); }
    var tail := new SafeLogTail(rules, tailBytes, maxTrace, maxLine);
    var i := 0;
    while i < |chunks|
      invariant i <= |chunks| && fresh(tail) && tail.Valid() && !tail.closed
      invariant tail.rules == rules && tail.cap == TailCap(tailBytes) && tail.maxTrace == maxTrace &&
        tail.maxLine == maxLine
      invariant tail.received + Concat(chunks[i..]) == Concat(chunks)
    {
      ghost var seen := tail.received + chunks[i];
      assert tail.received + Concat(chunks[i..]) == seen + Concat(chunks[i + 1..]);
      var failure := tail.Feed(chunks[i]);
      if failure.Some? {
        RefusalIsFinal(rules, TailCap(tailBytes), maxTrace, maxLine, seen, Concat(chunks[i + 1..]));
        return Err(failure.value);
      }
      i := i + 1;
    }
    assert tail.received + [] == tail.received;
    if expected.Some? && expected.value != tail.total {
      return Err(Incomplete);
    }
    r := tail.Finish();
  }

  // ---------- What the report means ----------

  /** A trace is reported exactly when its size and every line are within the limits, all of it
      is valid UTF-8, and no line keeps an escape character once CSI sequences are removed. */
  lemma SucceedsExactlyWhen(rules: LineRules, cap: nat, maxTrace: nat, maxLine: nat, input: seq<Byte>)
    ensures OneShot(rules, cap, maxTrace, maxLine, input).Some? <==>
      WithinLimits(input, maxTrace, maxLine) && WellFormed(input) &&
      forall i :: 0 <= i < |AllLines(input)| ==> NoEscape(rules, AllLines(input)[i])
  {
    CleanExactlyWhen(rules, AllLines(input));
    ValidByLine(input);
  }

  predicate NoEscape(rules: LineRules, line: seq<Byte>) {
    Decode(line).Some? ==> '\U{1B}' !in rules.stripCsi(Decode(line).value)
  }

  lemma {:induction false} CleanExactlyWhen(rules: LineRules, lines: seq<seq<Byte>>)
    ensures CleanAll(rules, lines).Some? <==>
      forall i :: 0 <= i < |lines| ==> WellFormed(lines[i]) && NoEscape(rules, lines[i])
  {
    if lines != [] {
      var n := |lines| - 1;
      CleanExactlyWhen(rules, lines[..n]);
      assert forall i :: 0 <= i < n ==> lines[..n][i] == lines[i];
    }
  }

  ghost predicate AllValid(lines: seq<seq<Byte>>) {
    forall i :: 0 <= i < |lines| ==> WellFormed(lines[i])
  }

  lemma AllValidCons(l: seq<Byte>, lines: seq<seq<Byte>>)
    ensures AllValid([l] + lines) <==> WellFormed(l) && AllValid(lines)
  {
    if AllValid([l] + lines) {
      assert ([l] + lines)[0] == l;
      assert forall i :: 0 <= i < |lines| ==> ([l] + lines)[i + 1] == lines[i];
    }
  }

  lemma AllLinesFirst(l: seq<Byte>, rest: seq<Byte>)
    requires l != [] && Find(l, 0) == |l| - 1
    ensures AllLines(l + rest) == [l] + AllLines(rest)
  {
    SplitFirst(l, rest);
    Regroup([l], SplitLf(rest).lines, if SplitLf(rest).rest == [] then [] else [SplitLf(rest).rest]);
  }

  lemma AllLinesNone(s: seq<Byte>)
    requires Find(s, 0) < 0
    ensures AllLines(s) == if s == [] then [] else [s]
  {
  }

  lemma {:induction false} ValidByLine(input: seq<Byte>)
    ensures WellFormed(input) <==> AllValid(AllLines(input))
    decreases |input|
  {
    var i := Find(input, 0);
    if i < 0 {
      AllLinesNone(input);
      if input != [] { AllValidCons(input, []); assert [input] + [] == [input]; }
    } else {
      var l, rest := input[..i + 1], input[i + 1..];
      assert input == l + rest;
      FirstLine(input);
      AllLinesFirst(l, rest);
      AllValidCons(l, AllLines(rest));
      ValidByLine(rest);
      LineFeedSplits(l, rest);
    }
  }

  /** The lines are the input cut after each LF: together they are all of it, each but the last ends in
      its only LF, and none is empty. */
  lemma {:induction false} LinesAre(input: seq<Byte>)
    ensures var lines := AllLines(input);
      && Concat(lines) == input
      && forall i :: 0 <= i < |lines| ==>
           && lines[i] != [] && NoLf(lines[i], 0, |lines[i]| - 1)
           && (i < |lines| - 1 ==> lines[i][|lines[i]| - 1] == LF)
    decreases |input|
  {
    var n := Find(input, 0);
    if n < 0 {
      AllLinesNone(input);
      if input != [] { ConcatOne(input); }
    } else {
      var l, rest := input[..n + 1], input[n + 1..];
      assert input == l + rest;
      FirstLine(input);
      AllLinesFirst(l, rest);
      LinesAre(rest);
      hide AllLines, Find;
      FirstOfLines(l, AllLines(rest));
    }
  }

  lemma ConcatOne(part: seq<Byte>)
    ensures Concat([part]) == part
  {
    assert [part][1..] == [];
  }

  lemma FirstOfLines(l: seq<Byte>, rest: seq<seq<Byte>>)
    requires l != [] && l[|l| - 1] == LF && NoLf(l, 0, |l| - 1)
    requires forall i :: 0 <= i < |rest| ==>
      && rest[i] != [] && NoLf(rest[i], 0, |rest[i]| - 1)
      && (i < |rest| - 1 ==> rest[i][|rest[i]| - 1] == LF)
    ensures var lines := [l] + rest;
      && Concat(lines) == l + Concat(rest)
      && forall i :: 0 <= i < |lines| ==>
           && lines[i] != [] && NoLf(lines[i], 0, |lines[i]| - 1)
           && (i < |lines| - 1 ==> lines[i][|lines[i]| - 1] == LF)
  {
    assert ([l] + rest)[1..] == rest;
    forall i | 0 < i < |rest| + 1 ensures ([l] + rest)[i] == rest[i - 1] { }
  }

  /** The visible text of a line is what it decodes to without CSI sequences and then without control
      characters. */
  lemma {:induction false} TextsAre(rules: LineRules, lines: seq<seq<Byte>>, i: nat)
    requires i < |lines| && CleanAll(rules, lines).Some?
    ensures Decode(lines[i]).Some?
    ensures CleanAll(rules, lines).value[i] == rules.stripControls(rules.stripCsi(Decode(lines[i]).value))
    decreases |lines|
  {
    hide Decode;
    if i < |lines| - 1 { TextsAre(rules, lines[..|lines| - 1], i); }
  }

  /** The returned content is the longest valid UTF-8 suffix of the retained tail, never exceeds
      the cap, loses at most three bytes of it, and is everything when nothing was truncated. */
  lemma ContentIsLongestSuffix(rules: LineRules, cap: nat, texts: seq<string>, total: nat)
    ensures var r, bytes := ReportOf(rules, cap, texts, total), Encode(Output(rules, texts));
      && LongestSuffix(Encode(r.content), Last(bytes, cap))
      && r.returnedBytes <= cap && (|bytes| >= cap ==> r.returnedBytes + 3 >= cap)
      && (!r.truncated ==> r.content == Output(rules, texts))
  {
    var bytes := Encode(Output(rules, texts));
    DecodeEncode(Output(rules, texts));
    var k := if |bytes| <= cap then 0 else |bytes| - cap;
    assert bytes[k..] == Last(bytes, cap);
    IgnoreSuffix(bytes, k);
  }

  /** Texts with the same key markers that agree wherever a line is not hidden. */
  ghost predicate SameVisible(rules: LineRules, a: seq<string>, b: seq<string>) {
    |a| == |b| && forall i :: 0 <= i < |a| ==>
      rules.markers(a[i]) == rules.markers(b[i]) && (!Hidden(rules, a, i) ==> a[i] == b[i])
  }

  lemma {:induction false} SameKeyState(rules: LineRules, a: seq<string>, b: seq<string>, n: nat)
    requires n <= |a| == |b| && forall i :: 0 <= i < |a| ==> rules.markers(a[i]) == rules.markers(b[i])
    ensures KeyOpen(rules, a[..n]) == KeyOpen(rules, b[..n])
  {
    if n > 0 {
      SameKeyState(rules, a, b, n - 1);
      assert a[..n][..n - 1] == a[..n - 1] && b[..n][..n - 1] == b[..n - 1];
    }
  }

  lemma HiddenInPrefix(rules: LineRules, a: seq<string>, n: nat, i: nat)
    requires i < n <= |a|
    ensures Hidden(rules, a[..n], i) == Hidden(rules, a, i)
  {
    assert a[..n][..i] == a[..i];
  }

  /** Nothing on a key-block line adds text or a redaction: two traces that differ only there, with
      the same markers, have the same sanitized output. */
  lemma {:induction false} KeyBlocksStayHidden(rules: LineRules, a: seq<string>, b: seq<string>)
    requires SameVisible(rules, a, b)
    ensures Output(rules, a) == Output(rules, b) && Redactions(rules, a) == Redactions(rules, b)
  {
    if a != [] {
      var n := |a| - 1;
      SameKeyState(rules, a, b, n);
      forall i | 0 <= i < n ensures Hidden(rules, a[..n], i) == Hidden(rules, a, i) {
        HiddenInPrefix(rules, a, n, i);
      }
      KeyBlocksStayHidden(rules, a[..n], b[..n]);
      LastSame(rules, a, b, n);
    }
  }

  /** So their reports differ at most in the two figures that tell how long the trace was. */
  lemma {:induction false} ReportsHideBlocks(rules: LineRules, cap: nat, a: seq<string>, b: seq<string>, m: nat, n: nat)
    requires SameVisible(rules, a, b)
    ensures var r, r' := ReportOf(rules, cap, a, m), ReportOf(rules, cap, b, n);
      r' == r.(originalBytes := n, truncated := n > cap || r.sanitizedBytes > cap)
    ensures m == n ==> ReportOf(rules, cap, a, m) == ReportOf(rules, cap, b, n)
  {
    KeyBlocksStayHidden(rules, a, b);
  }

  lemma LastSame(rules: LineRules, a: seq<string>, b: seq<string>, n: nat)
    requires |a| == |b| && n < |a| && KeyOpen(rules, a[..n]) == KeyOpen(rules, b[..n])
    requires rules.markers(a[n]) == rules.markers(b[n]) && (!Hidden(rules, a, n) ==> a[n] == b[n])
    ensures Hidden(rules, a, n) == Hidden(rules, b, n) && Contribution(rules, a, n) == Contribution(rules, b, n)
  {
  }

  /** A block's lines are hidden from its opening marker until a later line ends with an END
      marker, however many lines lie between. */
  lemma {:induction false} BlockIsHidden(rules: LineRules, texts: seq<string>, open: nat, i: nat)
    requires open < i < |texts|
    requires rules.markers(texts[open]) != [] &&
      rules.markers(texts[open])[|rules.markers(texts[open])| - 1] == BeginKey
    requires forall j :: open < j < i ==> rules.markers(texts[j]) == []
    ensures Hidden(rules, texts, open) && Hidden(rules, texts, i) && Contribution(rules, texts, i) == ""
  {
    OpenPersists(rules, texts, open, i);
  }

  lemma {:induction false} OpenPersists(rules: LineRules, texts: seq<string>, open: nat, i: nat)
    requires open < i <= |texts|
    requires rules.markers(texts[open]) != [] &&
      rules.markers(texts[open])[|rules.markers(texts[open])| - 1] == BeginKey
    requires forall j :: open < j < i ==> rules.markers(texts[j]) == []
    ensures KeyOpen(rules, texts[..i])
  {
    if i > open + 1 {
      OpenPersists(rules, texts, open, i - 1);
      assert texts[..i][..i - 1] == texts[..i - 1];
    }
  }

  // ---------- What is visible, told by the markers alone ----------

  // The last line before `i` with a marker has BEGIN for its last one.
  ghost predicate InBlock(rules: LineRules, texts: seq<string>, i: nat)
    requires i <= |texts|
  {
    exists j :: 0 <= j < i && EndsWith(rules, texts[j], BeginKey) && Unmarked(rules, texts, j, i)
  }

  predicate EndsWith(rules: LineRules, text: string, m: Marker) {
    rules.markers(text) != [] && rules.markers(text)[|rules.markers(text)| - 1] == m
  }

  // No line between the two has a marker.
  predicate Unmarked(rules: LineRules, texts: seq<string>, after: int, before: nat)
    requires -1 <= after && before <= |texts|
  {
    forall k :: after < k < before ==> rules.markers(texts[k]) == []
  }

  lemma {:induction false} OpenIs(rules: LineRules, texts: seq<string>, i: nat)
    requires i <= |texts|
    ensures KeyOpen(rules, texts[..i]) <==> InBlock(rules, texts, i)
  {
    if i > 0 {
      OpenIs(rules, texts, i - 1);
      assert texts[..i][..i - 1] == texts[..i - 1];
      if rules.markers(texts[i - 1]) == [] {
        forall j: nat | j < i - 1
          ensures Unmarked(rules, texts, j, i) <==> Unmarked(rules, texts, j, i - 1)
        {
        }
      } else if EndsWith(rules, texts[i - 1], BeginKey) {
        assert Unmarked(rules, texts, i - 1, i);
      }
    }
  }

  /** A block is closed before a line exactly when no earlier line has a marker, or the last marker of
      the last such line is END. */
  lemma {:induction false} ClosedExactlyWhen(rules: LineRules, texts: seq<string>, i: nat)
    requires i <= |texts|
    ensures !InBlock(rules, texts, i) <==>
      Unmarked(rules, texts, -1, i) ||
      exists j :: 0 <= j < i && EndsWith(rules, texts[j], EndKey) && Unmarked(rules, texts, j, i)
  {
    if i > 0 {
      ClosedExactlyWhen(rules, texts, i - 1);
      if rules.markers(texts[i - 1]) == [] {
        forall j: nat | j < i - 1
          ensures Unmarked(rules, texts, j, i) <==> Unmarked(rules, texts, j, i - 1)
        {
        }
      } else {
        assert Unmarked(rules, texts, i - 1, i);
        assert EndsWith(rules, texts[i - 1], BeginKey) || EndsWith(rules, texts[i - 1], EndKey);
      }
    }
  }

  /** What each line adds to the output: outside a block, its redacted text, or the notice if it has a
      marker; inside a block, nothing. */
  lemma {:induction false} OutputIs(rules: LineRules, texts: seq<string>, i: nat)
    requires i < |texts|
    ensures Output(rules, texts[..i + 1]) == Output(rules, texts[..i]) +
      if InBlock(rules, texts, i) then ""
      else if rules.markers(texts[i]) == [] then rules.redact(texts[i]).0 else KEY_NOTICE
  {
    OpenIs(rules, texts, i);
    assert texts[..i + 1][..i] == texts[..i];
  }

  /** And what it adds to the redactions: those of its text, with one name for all assignments, or that
      of a key block. */
  lemma {:induction false} RedactionsAre(rules: LineRules, texts: seq<string>, i: nat)
    requires i < |texts|
    ensures Redactions(rules, texts[..i + 1]) == Redactions(rules, texts[..i]) +
      if InBlock(rules, texts, i) || rules.markers(texts[i]) != [] then {"Private key block"}
      else (set kind | kind in rules.redact(texts[i]).1 ::
              if "assignment:" <= kind then "secret assignment" else kind)
  {
    OpenIs(rules, texts, i);
    assert texts[..i + 1][..i] == texts[..i];
  }
}
