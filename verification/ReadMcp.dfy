/** The merge-request diff listing: diffs are emitted in order under one shared byte budget,
    and clipped on character boundaries. */
module ReadMcp {
  import opened Utf8

  datatype Clipped = Clipped(text: string, truncated: bool, originalBytes: nat)

  // `_cap_text`: at most `maxBytes` bytes of UTF-8.
  function CapText(text: string, maxBytes: nat): Clipped {
    var raw := Encode(text);
    if |raw| <= maxBytes then Clipped(text, false, |raw|)
    else Clipped(DecodeIgnore(raw[..maxBytes]), true, |raw|)
  }

  function Bytes(text: string): nat { |Encode(text)| }

  function Room(text: string, room: int): nat {
    if room < 0 then 0 else if Bytes(text) < room then Bytes(text) else room
  }

  /** A clip keeps the longest whole-character prefix of the text that fits. */
  lemma CapIsLongestPrefix(text: string, maxBytes: nat)
    ensures var c := CapText(text, maxBytes);
      && LongestPrefix(Encode(c.text), Encode(text)[..Room(text, maxBytes)])
      && Bytes(c.text) <= maxBytes && c.text <= text
      && (c.truncated <==> c.text != text)
      && (c.truncated ==> Bytes(c.text) + 3 >= maxBytes)
  {
    var raw, n := Encode(text), Room(text, maxBytes);
    DecodeEncode(text);
    IgnorePrefix(raw, n);
    if n == |raw| {
      assert raw[..n] == raw;
    } else {
      IgnoredPrefixIsPrefix(text, maxBytes);
    }
  }

  lemma {:induction false} IgnoredPrefixIsPrefix(text: string, k: nat)
    requires k <= Bytes(text)
    ensures DecodeIgnore(Encode(text)[..k]) <= text
  {
    var raw := Encode(text);
    DecodeEncode(text);
    if text != "" && k > 0 {
      var n := |EncodeOne(text[0])|;
      var rest := Encode(text[1..]);
      OneRoundTrip(text[0], rest);
      if n <= k {
        IgnoredPrefixIsPrefix(text[1..], k - n);
        OneRoundTrip(text[0], rest[..k - n]);
        assert raw[..k] == EncodeOne(text[0]) + rest[..k - n];
        assert raw[..k][n..] == rest[..k - n];
        assert text == [text[0]] + text[1..];
      } else {
        SplitCharacterPrefix(raw, k);
        if DecodeIgnore(raw[..k]) != "" {
          OneRoundTrip(DecodeIgnore(raw[..k])[0], []);
        }
      }
    }
  }

  // UTF-8 bytes of the first `n` texts emitted.
  function Used(items: seq<Clipped>, n: nat): nat
    requires n <= |items|
  {
    if n == 0 then 0 else Used(items, n - 1) + Bytes(items[n - 1].text)
  }

  // UTF-8 bytes of the first `n` diffs.
  function Total(diffs: seq<string>, n: nat): nat
    requires n <= |diffs|
  {
    if n == 0 then 0 else Total(diffs, n - 1) + Bytes(diffs[n - 1])
  }

  /** The entry for a diff when `used` bytes of the budget are spent: the diff cut, on a
      character boundary, to what is left. */
  ghost predicate Entry(diff: string, budget: nat, used: nat, item: Clipped) {
    && used <= budget
    && LongestPrefix(Encode(item.text), Encode(diff)[..Room(diff, budget - used)])
    && item.text <= diff && item.originalBytes == Bytes(diff)
    && (item.truncated <==> item.text != diff || budget == used)
  }

  /** Item `i` is the entry for diff `i` after the items before it. */
  ghost predicate Fits(diffs: seq<string>, budget: nat, items: seq<Clipped>, i: nat)
    requires i < |items| <= |diffs|
  {
    Entry(diffs[i], budget, Used(items, i), items[i])
  }

  /** What holds of the listing after each diff, the flag included. */
  ghost predicate Listed(diffs: seq<string>, budget: nat, items: seq<Clipped>, truncatedAny: bool) {
    && |items| <= |diffs| && Used(items, |items|) <= budget
    && (forall i :: 0 <= i < |items| ==> Fits(diffs, budget, items, i))
    && (if truncatedAny then Total(diffs, |items|) >= budget
        else Used(items, |items|) == Total(diffs, |items|) &&
             forall i :: 0 <= i < |items| ==> items[i].text == diffs[i])
  }

  lemma {:induction false} UsedPrefix(items: seq<Clipped>, item: Clipped, n: nat)
    requires n <= |items|
    ensures Used(items + [item], n) == Used(items, n)
  {
    if n > 0 { UsedPrefix(items, item, n - 1); }
  }

  lemma EntrySizes(diff: string, budget: nat, used: nat, item: Clipped)
    requires Entry(diff, budget, used, item)
    ensures used + Bytes(item.text) <= budget && Bytes(item.text) <= Bytes(diff)
    ensures item.text != diff ==> used + Bytes(diff) > budget
    ensures item.truncated ==> used + Bytes(diff) >= budget
  {
    ClipNoLonger(item.text, diff);
    if item.text != diff && Bytes(diff) <= budget - used {
      assert Encode(diff)[..Bytes(diff)] == Encode(diff);
      WholeFits(item.text, diff);
    }
  }

  lemma WholeFits(clip: string, diff: string)
    requires LongestPrefix(Encode(clip), Encode(diff))
    ensures clip == diff
  {
    DecodeEncode(clip);
    DecodeEncode(diff);
    assert Encode(diff)[..|Encode(diff)|] == Encode(diff);
  }

  lemma ClipNoLonger(clip: string, text: string)
    requires clip <= text
    ensures Bytes(clip) <= Bytes(text)
  {
    assert text == clip + text[|clip|..];
    EncodeAppend(clip, text[|clip|..]);
  }

  lemma ListOne(diffs: seq<string>, budget: nat, items: seq<Clipped>, truncatedAny: bool, item: Clipped)
    requires Listed(diffs, budget, items, truncatedAny) && |items| < |diffs|
    requires Entry(diffs[|items|], budget, Used(items, |items|), item)
    ensures Used(items + [item], |items| + 1) == Used(items, |items|) + Bytes(item.text) <= budget
    ensures Listed(diffs, budget, items + [item], truncatedAny || item.truncated)
  {
    hide Entry, Bytes;
    var more := items + [item];
    EntrySizes(diffs[|items|], budget, Used(items, |items|), item);
    UsedPrefix(items, item, |items|);
    forall j | 0 <= j < |more| ensures Fits(diffs, budget, more, j) {
      UsedPrefix(items, item, j);
      if j < |items| { assert Fits(diffs, budget, items, j); }
    }
    assert item.truncated || item.text == diffs[|items|] by {
      WholeOrCut(diffs[|items|], budget, Used(items, |items|), item);
    }
  }

  lemma WholeOrCut(diff: string, budget: nat, used: nat, item: Clipped)
    requires Entry(diff, budget, used, item)
    ensures item.truncated || item.text == diff
  {
  }

  method OneEntry(diff: string, budget: nat, used: nat) returns (item: Clipped)
    requires used <= budget
    ensures Entry(diff, budget, used, item)
  {
    var remaining := budget - used;
    if remaining != 0 {
      CapIsLongestPrefix(diff, remaining);
      item := CapText(diff, remaining);
    } else {
      EmptyClip(diff);
      item := Clipped("", true, Bytes(diff));
    }
  }

  lemma EmptyClip(text: string)
    ensures LongestPrefix([], Encode(text)[..0]) && Encode("") == []
  {
  }

  /** The loop of `get_merge_request_diff` over one page of diffs. */
  method ListDiffs(diffs: seq<string>, budget: nat) returns (items: seq<Clipped>, truncatedAny: bool)
    ensures |items| <= |diffs| && Used(items, |items|) <= budget
    ensures forall i :: 0 <= i < |items| ==> Fits(diffs, budget, items, i)
    ensures |items| < |diffs| ==> Used(items, |items|) == budget
    ensures truncatedAny <==> diffs != [] && Total(diffs, |diffs|) >= budget
    ensures !truncatedAny ==> |items| == |diffs| && forall i :: 0 <= i < |items| ==> items[i].text == diffs[i]
  {
    hide Fits, Entry, Bytes;
    var used := 0;
    items, truncatedAny := [], false;
    var i := 0;
    while i < |diffs|
      invariant i == |items| <= |diffs| && used == Used(items, i)
      invariant Listed(diffs, budget, items, truncatedAny)
      invariant (i > 0 ==> used < budget) && (truncatedAny ==> i > 0)
    {
      var item := OneEntry(diffs[i], budget, used);
      ListOne(diffs, budget, items, truncatedAny, item);
      used := used + Bytes(item.text);
      truncatedAny := truncatedAny || item.truncated;
      items := items + [item];
      i := i + 1;
      if used >= budget {
        truncatedAny := true;
        SpentMeansTotal(diffs, budget, items, i);
        return;
      }
    }
  }

  lemma SpentMeansTotal(diffs: seq<string>, budget: nat, items: seq<Clipped>, i: nat)
    requires i == |items| <= |diffs| && Used(items, i) >= budget
    requires forall j :: 0 <= j < |items| ==> Fits(diffs, budget, items, j)
    ensures Total(diffs, |diffs|) >= budget
  {
    UsedAtMostTotal(diffs, budget, items, i);
    TotalGrows(diffs, i);
  }

  lemma {:induction false} UsedAtMostTotal(diffs: seq<string>, budget: nat, items: seq<Clipped>, n: nat)
    requires n <= |items| <= |diffs| && forall j :: 0 <= j < |items| ==> Fits(diffs, budget, items, j)
    ensures Used(items, n) <= Total(diffs, n)
  {
    if n > 0 {
      UsedAtMostTotal(diffs, budget, items, n - 1);
      assert Fits(diffs, budget, items, n - 1);
      EntrySizes(diffs[n - 1], budget, Used(items, n - 1), items[n - 1]);
    }
  }

  lemma {:induction false} TotalGrows(diffs: seq<string>, i: nat)
    requires i <= |diffs|
    ensures Total(diffs, i) <= Total(diffs, |diffs|)
    decreases |diffs| - i
  {
    if i < |diffs| { TotalGrows(diffs, i + 1); }
  }
}
