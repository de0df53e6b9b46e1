/** UTF-8 as in section 3 of RFC 3629, with the two Python decoders the repository uses:
    strict, and `errors="ignore"`. */
module Utf8 {
  import opened Wrappers

  type Byte = x: int | 0 <= x < 256

  predicate Continuation(b: Byte) { 0x80 <= b < 0xC0 }

  predicate SecondOfThree(a: Byte, b: Byte) {
    || (a == 0xE0 && 0xA0 <= b < 0xC0)
    || (0xE1 <= a <= 0xEF && a != 0xED && Continuation(b))
    || (a == 0xED && 0x80 <= b < 0xA0)
  }

  predicate SecondOfFour(a: Byte, b: Byte) {
    || (a == 0xF0 && 0x90 <= b < 0xC0)
    || (0xF1 <= a <= 0xF3 && Continuation(b))
    || (a == 0xF4 && 0x80 <= b < 0x90)
  }

  // Length of the character encoded at the front of `s`; 0 when there is none.
  function Lead(s: seq<Byte>): (n: nat)
    ensures n <= |s| && n <= 4
  {
    if |s| >= 1 && s[0] < 0x80 then 1
    else if |s| >= 2 && 0xC2 <= s[0] < 0xE0 && Continuation(s[1]) then 2
    else if |s| >= 3 && SecondOfThree(s[0], s[1]) && Continuation(s[2]) then 3
    else if |s| >= 4 && SecondOfFour(s[0], s[1]) && Continuation(s[2]) && Continuation(s[3]) then 4
    else 0
  }

  // The six payload bits of a continuation byte.
  function Low(b: Byte): int { b as int - 0x80 }

  function DecodeOne(s: seq<Byte>): char
    requires Lead(s) > 0
  {
    match Lead(s)
    case 1 => s[0] as char
    case 2 => ((s[0] as int - 0xC0) * 0x40 + Low(s[1])) as char
    case 3 => ((s[0] as int - 0xE0) * 0x1000 + Low(s[1]) * 0x40 + Low(s[2])) as char
    case _ => ((s[0] as int - 0xF0) * 0x40000 + Low(s[1]) * 0x1000 + Low(s[2]) * 0x40 + Low(s[3])) as char
  }

  function EncodeOne(c: char): seq<Byte> {
    var n := c as int;
    if n < 0x80 then [n]
    else if n < 0x800 then [0xC0 + n / 0x40, 0x80 + n % 0x40]
    else if n < 0x10000 then [0xE0 + n / 0x1000, 0x80 + n / 0x40 % 0x40, 0x80 + n % 0x40]
    else [0xF0 + n / 0x40000, 0x80 + n / 0x1000 % 0x40, 0x80 + n / 0x40 % 0x40, 0x80 + n % 0x40]
  }

  function Encode(t: string): seq<Byte> {
    if t == "" then [] else EncodeOne(t[0]) + Encode(t[1..])
  }

  predicate WellFormed(s: seq<Byte>) {
    s == [] || (Lead(s) > 0 && WellFormed(s[Lead(s)..]))
  }

  // bytes.decode("utf-8")
  function Decode(s: seq<Byte>): (t: Option<string>)
    ensures t.Some? <==> WellFormed(s)
  {
    if s == [] then Some("")
    else if Lead(s) == 0 then None
    else
      match Decode(s[Lead(s)..])
      case None => None
      case Some(rest) => Some([DecodeOne(s)] + rest)
  }

  // bytes.decode("utf-8", errors="ignore"): bytes that start no character are dropped
  function DecodeIgnore(s: seq<Byte>): string {
    if s == [] then ""
    else if Lead(s) == 0 then DecodeIgnore(s[1..])
    else [DecodeOne(s)] + DecodeIgnore(s[Lead(s)..])
  }

  lemma ThreeDigits(n: int)
    requires 0x800 <= n < 0x10000
    ensures var a, b, c := n / 0x1000, n / 0x40 % 0x40, n % 0x40;
      n == a * 0x1000 + b * 0x40 + c && 0 <= a < 0x10 && 0 <= b < 0x40 && 0 <= c < 0x40 && (a == 0 ==> b >= 0x20)
  {
    assert n / 0x40 / 0x40 == n / 0x1000;
  }

  lemma FourDigits(n: int)
    requires 0x10000 <= n < 0x110000
    ensures var a, b, c, d := n / 0x40000, n / 0x1000 % 0x40, n / 0x40 % 0x40, n % 0x40;
      && n == a * 0x40000 + b * 0x1000 + c * 0x40 + d
      && 0 <= a <= 4 && 0 <= b < 0x40 && 0 <= c < 0x40 && 0 <= d < 0x40
      && (a == 0 ==> b >= 0x10) && (a == 4 ==> b < 0x10)
  {
    assert n / 0x40 / 0x40 == n / 0x1000;
    assert n / 0x1000 / 0x40 == n / 0x40000;
  }

  lemma OneRoundTrip(c: char, rest: seq<Byte>)
    ensures Lead(EncodeOne(c) + rest) == |EncodeOne(c)|
    ensures DecodeOne(EncodeOne(c) + rest) == c
  {
    var n := c as int;
    if n >= 0x10000 {
      FourDigits(n);
      FourBytes(n / 0x40000, n / 0x1000 % 0x40, n / 0x40 % 0x40, n % 0x40, rest);
    } else if n >= 0x800 {
      ThreeDigits(n);
      ThreeBytes(n / 0x1000, n / 0x40 % 0x40, n % 0x40, rest);
    }
  }

  lemma ThreeBytes(a: int, b: int, c: int, rest: seq<Byte>)
    requires 0 <= a < 0x10 && 0 <= b < 0x40 && 0 <= c < 0x40
    requires a == 0 ==> b >= 0x20
    requires a == 0xD ==> b < 0x20
    ensures var s: seq<Byte> := [0xE0 + a, 0x80 + b, 0x80 + c] + rest;
      Lead(s) == 3 && DecodeOne(s) as int == a * 0x1000 + b * 0x40 + c
  {
  }

  lemma FourBytes(a: int, b: int, c: int, d: int, rest: seq<Byte>)
    requires 0 <= a <= 4 && 0 <= b < 0x40 && 0 <= c < 0x40 && 0 <= d < 0x40
    requires a == 0 ==> b >= 0x10
    requires a == 4 ==> b < 0x10
    ensures var s: seq<Byte> := [0xF0 + a, 0x80 + b, 0x80 + c, 0x80 + d] + rest;
      Lead(s) == 4 && DecodeOne(s) as int == a * 0x40000 + b * 0x1000 + c * 0x40 + d
  {
  }

  lemma OneRoundTripBack(s: seq<Byte>)
    requires Lead(s) > 0
    ensures EncodeOne(DecodeOne(s)) == s[..Lead(s)]
  {
    match Lead(s)
    case 1 =>
    case 2 => TwoUnpack(s[0] as int - 0xC0, Low(s[1]));
    case 3 => ThreeUnpack(s[0] as int - 0xE0, Low(s[1]), Low(s[2]));
    case _ => FourUnpack(s[0] as int - 0xF0, Low(s[1]), Low(s[2]), Low(s[3]));
  }

  lemma TwoUnpack(a: int, b: int)
    requires 0 <= b < 0x40
    ensures (a * 0x40 + b) / 0x40 == a && (a * 0x40 + b) % 0x40 == b
  {
  }

  lemma ThreeUnpack(a: int, b: int, c: int)
    requires 0 <= b < 0x40 && 0 <= c < 0x40
    ensures var n := a * 0x1000 + b * 0x40 + c;
      n / 0x1000 == a && n / 0x40 % 0x40 == b && n % 0x40 == c
  {
    var n := a * 0x1000 + b * 0x40 + c;
    assert n / 0x40 == a * 0x40 + b;
    TwoUnpack(a, b);
  }

  lemma FourUnpack(a: int, b: int, c: int, d: int)
    requires 0 <= b < 0x40 && 0 <= c < 0x40 && 0 <= d < 0x40
    ensures var n := a * 0x40000 + b * 0x1000 + c * 0x40 + d;
      n / 0x40000 == a && n / 0x1000 % 0x40 == b && n / 0x40 % 0x40 == c && n % 0x40 == d
  {
    var n := a * 0x40000 + b * 0x1000 + c * 0x40 + d;
    assert n / 0x40 == a * 0x1000 + b * 0x40 + c;
    ThreeUnpack(a, b, c);
    assert n / 0x1000 == a * 0x40 + b;
  }

  /** Encoding then strictly decoding is the identity. */
  lemma {:induction false} DecodeEncode(t: string)
    ensures WellFormed(Encode(t)) && Decode(Encode(t)) == Some(t)
    ensures DecodeIgnore(Encode(t)) == t
  {
    if t != "" {
      var rest := Encode(t[1..]);
      OneRoundTrip(t[0], rest);
      DecodeEncode(t[1..]);
      assert Encode(t)[|EncodeOne(t[0])|..] == rest;
      assert t == [t[0]] + t[1..];
    }
  }

  /** Decoding then encoding gives back the bytes. */
  lemma {:induction false} EncodeDecode(s: seq<Byte>)
    requires WellFormed(s)
    ensures Encode(Decode(s).value) == s && DecodeIgnore(s) == Decode(s).value
    decreases |s|
  {
    if s != [] {
      OneRoundTripBack(s);
      EncodeDecode(s[Lead(s)..]);
      var t := Decode(s).value;
      assert t[1..] == Decode(s[Lead(s)..]).value;
      assert s == s[..Lead(s)] + s[Lead(s)..];
    }
  }

  lemma LeadAppend(a: seq<Byte>, b: seq<Byte>)
    requires Lead(a) > 0
    ensures Lead(a + b) == Lead(a)
  {
  }

  // Whether a character starts here is decided by the bytes of that character alone.
  lemma LeadPrefix(s: seq<Byte>, k: nat)
    requires 0 < k <= |s| && Lead(s) > 0
    ensures Lead(s[..k]) == if Lead(s) <= k then Lead(s) else 0
  {
  }

  /** Well-formedness of a concatenation whose first part is well formed. */
  lemma {:induction false} WellFormedAppend(a: seq<Byte>, b: seq<Byte>)
    requires WellFormed(a)
    ensures WellFormed(a + b) <==> WellFormed(b)
    decreases |a|
  {
    if a == [] {
      assert a + b == b;
    } else {
      LeadAppend(a, b);
      assert (a + b)[Lead(a)..] == a[Lead(a)..] + b;
      WellFormedAppend(a[Lead(a)..], b);
    }
  }

  /** No character spans an LF, so text may be validated line by line. */
  lemma {:induction false} LineFeedSplits(a: seq<Byte>, b: seq<Byte>)
    requires a != [] && a[|a| - 1] == 10
    ensures WellFormed(a + b) <==> WellFormed(a) && WellFormed(b)
    decreases |a|
  {
    if WellFormed(a) {
      WellFormedAppend(a, b);
    } else if WellFormed(a + b) {
      var n := Lead(a + b);
      assert (a + b)[|a| - 1] == 10;
      LeadPrefix(a + b, |a|);
      assert (a + b)[..|a|] == a;
      assert (a + b)[n..] == a[n..] + b;
      if n < |a| {
        LineFeedSplits(a[n..], b);
      }
      assert false;
    }
  }

  lemma {:induction false} EncodeAppend(a: string, b: string)
    ensures Encode(a + b) == Encode(a) + Encode(b)
  {
    if a == "" {
      assert a + b == b;
    } else {
      assert (a + b)[1..] == a[1..] + b;
      EncodeAppend(a[1..], b);
    }
  }

  /** `kept` is the longest well-formed suffix of `s`. */
  ghost predicate LongestSuffix(kept: seq<Byte>, s: seq<Byte>) {
    && |kept| <= |s| && kept == s[|s| - |kept|..] && WellFormed(kept)
    && forall i :: 0 <= i < |s| - |kept| ==> !WellFormed(s[i..])
  }

  /** `kept` is the longest well-formed prefix of `s`. */
  ghost predicate LongestPrefix(kept: seq<Byte>, s: seq<Byte>) {
    && |kept| <= |s| && kept == s[..|kept|] && WellFormed(kept)
    && forall m :: |kept| < m <= |s| ==> !WellFormed(s[..m])
  }

  lemma {:induction false} DropContinuations(s: seq<Byte>, k: nat)
    requires k <= |s| && forall i :: 0 <= i < k ==> Continuation(s[i])
    ensures DecodeIgnore(s) == DecodeIgnore(s[k..])
  {
    if k > 0 {
      DropContinuations(s[1..], k - 1);
      assert s[1..][k - 1..] == s[k..];
    } else {
      assert s[0..] == s;
    }
  }

  lemma {:induction false} WellFormedStart(s: seq<Byte>)
    requires s != [] && Continuation(s[0])
    ensures !WellFormed(s)
  {
  }

  /** Ignoring errors in a cut-off suffix of valid text keeps its longest valid suffix, and
      loses at most the three bytes of one split character. */
  lemma {:induction false} IgnoreSuffix(w: seq<Byte>, k: nat)
    requires WellFormed(w) && k <= |w|
    ensures LongestSuffix(Encode(DecodeIgnore(w[k..])), w[k..])
    ensures |Encode(DecodeIgnore(w[k..]))| + 3 >= |w| - k
    decreases |w|
  {
    if k == 0 {
      assert w[0..] == w;
      EncodeDecode(w);
    } else {
      var n := Lead(w);
      if n <= k {
        IgnoreSuffix(w[n..], k - n);
        assert w[n..][k - n..] == w[k..];
      } else {
        SplitCharacterSuffix(w, k);
      }
    }
  }

  lemma InsideCharacter(w: seq<Byte>, i: nat)
    requires 0 < i < Lead(w)
    ensures Continuation(w[i])
  {
  }

  lemma SplitCharacterSuffix(w: seq<Byte>, k: nat)
    requires w != [] && WellFormed(w) && 0 < k < Lead(w)
    ensures LongestSuffix(Encode(DecodeIgnore(w[k..])), w[k..])
    ensures Encode(DecodeIgnore(w[k..])) == w[Lead(w)..]
  {
    var n, s := Lead(w), w[k..];
    forall i | 0 <= i < n - k ensures Continuation(s[i]) { InsideCharacter(w, k + i); }
    assert s[n - k..] == w[n..];
    DropContinuations(s, n - k);
    EncodeDecode(w[n..]);
    NoneBefore(s, n - k);
  }

  lemma NoneBefore(s: seq<Byte>, k: nat)
    requires k <= |s| && WellFormed(s[k..]) && forall i :: 0 <= i < k ==> Continuation(s[i])
    ensures LongestSuffix(s[k..], s)
  {
    forall i | 0 <= i < k ensures !WellFormed(s[i..]) {
      WellFormedStart(s[i..]);
    }
  }

  /** Ignoring errors in a cut-off prefix of valid text keeps its longest valid prefix. */
  lemma {:induction false} IgnorePrefix(w: seq<Byte>, k: nat)
    requires WellFormed(w) && k <= |w|
    ensures LongestPrefix(Encode(DecodeIgnore(w[..k])), w[..k])
    ensures |Encode(DecodeIgnore(w[..k]))| + 3 >= k
    decreases |w|
  {
    if k == 0 {
      assert w[..k] == [];
    } else if Lead(w) <= k {
      var n := Lead(w);
      IgnorePrefix(w[n..], k - n);
      assert w[n..][..k - n] == w[..k][n..];
      LeadPrefix(w, k);
      PrependCharacter(w[..k]);
    } else {
      SplitCharacterPrefix(w, k);
    }
  }

  lemma PrependCharacter(s: seq<Byte>)
    requires Lead(s) > 0 && LongestPrefix(Encode(DecodeIgnore(s[Lead(s)..])), s[Lead(s)..])
    ensures LongestPrefix(Encode(DecodeIgnore(s)), s)
    ensures |Encode(DecodeIgnore(s))| == Lead(s) + |Encode(DecodeIgnore(s[Lead(s)..]))|
  {
    EncodeIgnored(s);
    PrependPrefix(s, Encode(DecodeIgnore(s[Lead(s)..])));
  }

  lemma PrependPrefix(s: seq<Byte>, tail: seq<Byte>)
    requires Lead(s) > 0 && LongestPrefix(tail, s[Lead(s)..])
    ensures LongestPrefix(s[..Lead(s)] + tail, s)
  {
    var n := Lead(s);
    assert s[..n] + tail == s[..n + |tail|];
    forall m | n <= m <= |s| ensures WellFormed(s[..m]) <==> WellFormed(s[n..][..m - n]) {
      LeadPrefix(s, m);
      assert s[..m][n..] == s[n..][..m - n];
    }
  }

  lemma EncodeIgnored(s: seq<Byte>)
    requires Lead(s) > 0
    ensures Encode(DecodeIgnore(s)) == s[..Lead(s)] + Encode(DecodeIgnore(s[Lead(s)..]))
  {
    OneRoundTripBack(s);
    assert DecodeIgnore(s)[1..] == DecodeIgnore(s[Lead(s)..]);
  }

  lemma SplitCharacterPrefix(w: seq<Byte>, k: nat)
    requires w != [] && WellFormed(w) && 0 < k < Lead(w)
    ensures LongestPrefix([], w[..k]) && Encode(DecodeIgnore(w[..k])) == []
    ensures k <= 3
  {
    var s := w[..k];
    LeadPrefix(w, k);
    forall i | 0 < i < k ensures Continuation(s[i]) { InsideCharacter(w, i); }
    DropContinuations(s[1..], k - 1);
    assert s[1..][k - 1..] == [];
    forall m | 0 < m <= |s| ensures !WellFormed(s[..m]) {
      LeadPrefix(w, m);
      assert s[..m] == w[..m];
    }
  }
}
