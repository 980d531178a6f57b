/** `to_word_list_format`: the stop/bad word lists of a batch, encoded as one
    `(batch, 2, pad_to)` integer array. Row 0 of item `b` holds the token ids
    of all its words back to back, padded with 0; row 1 holds the running
    token counts (the end offset of each word), padded with -1.
    The tokenizer is the parameter `encode`; the words of each batch item are
    given already split at the commas. */
module WordList {
  import opened Results

  /** `ids[0 : len(prefix)] == prefix`: a slice never raises, so a too short
      `ids` simply does not match. */
  predicate StartsWithIds(ids: seq<int>, prefix: seq<int>)
  {
    |ids| >= |prefix| && ids[..|prefix|] == prefix
  }

  /** The ids of one word. The word is encoded behind the reference string and
      the reference's own ids are cut off the front; when they do not come out
      verbatim (the prefix merged with the word), the word is encoded alone. */
  function WordIds(encode: string -> seq<int>, refStr: string, word: string): seq<int>
  {
    var refIds := encode(refStr);
    var withRef := encode(refStr + word);
    if StartsWithIds(withRef, refIds) then withRef[|refIds|..] else encode(word)
  }

  /** When the encoding behind the reference starts with the reference's own
      ids, the word's ids are exactly what follows them; otherwise they are
      the word's encoding on its own. */
  lemma WordIdsSplit(encode: string -> seq<int>, refStr: string, word: string)
    ensures var ids := WordIds(encode, refStr, word);
            && (StartsWithIds(encode(refStr + word), encode(refStr)) ==> encode(refStr) + ids == encode(refStr + word))
            && (!StartsWithIds(encode(refStr + word), encode(refStr)) ==> ids == encode(word))
  {
    var refIds := encode(refStr);
    var withRef := encode(refStr + word);
    if StartsWithIds(withRef, refIds) {
      assert refIds + withRef[|refIds|..] == withRef;
    }
  }

  /** `item_flat_ids`: the ids of the item's words, concatenated in order. */
  function ItemIds(encode: string -> seq<int>, refStr: string, words: seq<string>): seq<int>
    decreases |words|
  {
    if words == [] then []
    else ItemIds(encode, refStr, words[..|words| - 1]) + WordIds(encode, refStr, words[|words| - 1])
  }

  /** `item_offsets` before the running sum: one token count per word that
      produced tokens; words with no tokens are skipped. */
  function ItemCounts(encode: string -> seq<int>, refStr: string, words: seq<string>): (counts: seq<int>)
    ensures forall i :: 0 <= i < |counts| ==> counts[i] > 0
    ensures |counts| <= |words|
    decreases |words|
  {
    if words == [] then []
    else
      var ids := WordIds(encode, refStr, words[|words| - 1]);
      ItemCounts(encode, refStr, words[..|words| - 1]) + (if |ids| == 0 then [] else [|ids|])
  }

  function Sum(xs: seq<int>): int
    decreases |xs|
  {
    if xs == [] then 0 else Sum(xs[..|xs| - 1]) + xs[|xs| - 1]
  }

  /** `np.cumsum(xs)`: entry `i` is the sum of `xs[0..i]`. */
  function CumSum(xs: seq<int>): (r: seq<int>)
    ensures |r| == |xs|
  {
    seq(|xs|, i requires 0 <= i < |xs| => Sum(xs[..i + 1]))
  }

  /** `np.pad(s, (0, width - len(s)), constant_values=fill)`. */
  function Pad(s: seq<int>, width: nat, fill: int): (r: seq<int>)
    requires |s| <= width
    ensures |r| == width && r[..|s|] == s
    ensures forall j :: |s| <= j < width ==> r[j] == fill
  {
    s + seq(width - |s|, _ => fill)
  }

  /** Python `max(len(s) for s in ss)`. */
  function MaxLen(ss: seq<seq<int>>): (m: nat)
    requires |ss| > 0
    ensures forall i :: 0 <= i < |ss| ==> |ss[i]| <= m
    ensures exists i :: 0 <= i < |ss| && |ss[i]| == m
    decreases |ss|
  {
    if |ss| == 1 then |ss[0]|
    else
      var m := MaxLen(ss[..|ss| - 1]);
      if |ss[|ss| - 1]| > m then |ss[|ss| - 1]| else m
  }

  /** The ids of every item of the batch. */
  function BatchIds(encode: string -> seq<int>, refStr: string, wordDict: seq<seq<string>>): (r: seq<seq<int>>)
    ensures |r| == |wordDict|
  {
    seq(|wordDict|, b requires 0 <= b < |wordDict| => ItemIds(encode, refStr, wordDict[b]))
  }

  /** The cumulative offsets of every item of the batch. */
  function BatchOffsets(encode: string -> seq<int>, refStr: string, wordDict: seq<seq<string>>): (r: seq<seq<int>>)
    ensures |r| == |wordDict|
  {
    seq(|wordDict|, b requires 0 <= b < |wordDict| => CumSum(ItemCounts(encode, refStr, wordDict[b])))
  }

  /** Encoding one more item appends its ids and offsets to the batch's. */
  lemma BatchSnoc(encode: string -> seq<int>, refStr: string, wordDict: seq<seq<string>>, b: nat)
    requires b < |wordDict|
    ensures BatchIds(encode, refStr, wordDict[..b + 1])
              == BatchIds(encode, refStr, wordDict[..b]) + [ItemIds(encode, refStr, wordDict[b])]
    ensures BatchOffsets(encode, refStr, wordDict[..b + 1])
              == BatchOffsets(encode, refStr, wordDict[..b]) + [CumSum(ItemCounts(encode, refStr, wordDict[b]))]
  {
    assert wordDict[..b + 1][..b] == wordDict[..b];
  }

  /** `pad_to = max(1, max(len(ids) for ids in flat_ids))`. */
  function PadWidth(encode: string -> seq<int>, refStr: string, wordDict: seq<seq<string>>): (w: nat)
    requires |wordDict| > 0
    ensures w >= 1
  {
    var longest := MaxLen(BatchIds(encode, refStr, wordDict));
    if longest < 1 then 1 else longest
  }

  /** Each word that is kept contributes at least one id, so there are never
      more offsets than ids. */
  lemma {:induction false} CountsAtMostIds(encode: string -> seq<int>, refStr: string, words: seq<string>)
    ensures |ItemCounts(encode, refStr, words)| <= |ItemIds(encode, refStr, words)|
    ensures Sum(ItemCounts(encode, refStr, words)) == |ItemIds(encode, refStr, words)|
    decreases |words|
  {
    if words != [] {
      var init := words[..|words| - 1];
      CountsAtMostIds(encode, refStr, init);
      var ids := WordIds(encode, refStr, words[|words| - 1]);
      var c := ItemCounts(encode, refStr, init);
      if |ids| > 0 {
        assert ItemCounts(encode, refStr, words) == c + [|ids|];
        assert (c + [|ids|])[..|c|] == c;
      } else {
        assert ItemCounts(encode, refStr, words) == c;
      }
    }
  }

  lemma SumPrefixStep(xs: seq<int>, i: nat)
    requires i < |xs|
    ensures Sum(xs[..i + 1]) == Sum(xs[..i]) + xs[i]
  {
    assert xs[..i + 1][..i] == xs[..i];
  }

  /** With positive counts the offsets strictly increase. */
  lemma {:induction false} CumSumIncreasing(xs: seq<int>)
    requires forall i :: 0 <= i < |xs| ==> xs[i] > 0
    ensures forall i, j :: 0 <= i < j < |xs| ==> CumSum(xs)[i] < CumSum(xs)[j]
  {
    forall i, j | 0 <= i < j < |xs| ensures CumSum(xs)[i] < CumSum(xs)[j] {
      var k := i;
      while k < j
        invariant i <= k <= j
        invariant Sum(xs[..i + 1]) <= Sum(xs[..k + 1])
        invariant k > i ==> Sum(xs[..i + 1]) < Sum(xs[..k + 1])
      {
        SumPrefixStep(xs, k + 1);
        k := k + 1;
      }
    }
  }

  /** The offsets of an item are its words' end positions: they strictly
      increase and the last one is the number of ids of the item. */
  lemma ItemOffsetsLayout(encode: string -> seq<int>, refStr: string, words: seq<string>)
    ensures var offs := CumSum(ItemCounts(encode, refStr, words));
            && (forall i, j :: 0 <= i < j < |offs| ==> offs[i] < offs[j])
            && (|offs| > 0 ==> offs[|offs| - 1] == |ItemIds(encode, refStr, words)|)
            && |offs| <= |ItemIds(encode, refStr, words)|
  {
    var counts := ItemCounts(encode, refStr, words);
    CumSumIncreasing(counts);
    CountsAtMostIds(encode, refStr, words);
    assert counts[..|counts|] == counts;
  }

  /** The loop over one item's words: collects `item_flat_ids` and the token
      count of every word that produced tokens. */
  method EncodeItem(words: seq<string>, encode: string -> seq<int>, refStr: string)
    returns (itemFlatIds: seq<int>, itemOffsets: seq<int>)
    ensures itemFlatIds == ItemIds(encode, refStr, words)
    ensures itemOffsets == ItemCounts(encode, refStr, words)
  {
    var refIds := encode(refStr);
    itemFlatIds, itemOffsets := [], [];
    var w := 0;
    while w < |words|
      invariant 0 <= w <= |words|
      invariant itemFlatIds == ItemIds(encode, refStr, words[..w])
      invariant itemOffsets == ItemCounts(encode, refStr, words[..w])
    {
      var ids := encode(refStr + words[w]);
      if |ids| >= |refIds| && ids[..|refIds|] == refIds {
        ids := ids[|refIds|..];
      } else {
        ids := encode(words[w]);
      }
      assert words[..w + 1][..w] == words[..w];
      if |ids| != 0 {
        itemFlatIds := itemFlatIds + ids;
        itemOffsets := itemOffsets + [|ids|];
      }
      w := w + 1;
    }
    assert words[..w] == words;
  }

  /** `max(len(ids) for ids in flat_ids)`. */
  method Longest(flatIds: seq<seq<int>>) returns (longest: nat)
    requires |flatIds| > 0
    ensures longest == MaxLen(flatIds)
  {
    longest := |flatIds[0]|;
    var i := 1;
    while i < |flatIds|
      invariant 1 <= i <= |flatIds|
      invariant longest == MaxLen(flatIds[..i])
    {
      assert flatIds[..i + 1][..i] == flatIds[..i];
      if |flatIds[i]| > longest {
        longest := |flatIds[i]|;
      }
      i := i + 1;
    }
    assert flatIds[..i] == flatIds;
  }

  /** Every item's ids and offsets fit in `pad_to`, so no pad width is negative. */
  lemma ItemsFitWidth(encode: string -> seq<int>, refStr: string, wordDict: seq<seq<string>>)
    requires |wordDict| > 0
    ensures forall c :: 0 <= c < |wordDict| ==>
              && |ItemIds(encode, refStr, wordDict[c])| <= PadWidth(encode, refStr, wordDict)
              && |CumSum(ItemCounts(encode, refStr, wordDict[c]))| <= PadWidth(encode, refStr, wordDict)
  {
    var all := BatchIds(encode, refStr, wordDict);
    forall c | 0 <= c < |wordDict|
      ensures |ItemIds(encode, refStr, wordDict[c])| <= PadWidth(encode, refStr, wordDict)
      ensures |CumSum(ItemCounts(encode, refStr, wordDict[c]))| <= PadWidth(encode, refStr, wordDict)
    {
      assert all[c] == ItemIds(encode, refStr, wordDict[c]);
      CountsAtMostIds(encode, refStr, wordDict[c]);
    }
  }

  /** The loop that overwrites `flat_ids[i]` and `offsets[i]` with their padded
      versions, ids with 0 and offsets with -1. */
  method PadAll(flatIds: seq<seq<int>>, offsets: seq<seq<int>>, padTo: nat)
    returns (paddedIds: seq<seq<int>>, paddedOffsets: seq<seq<int>>)
    requires |flatIds| == |offsets|
    requires forall c :: 0 <= c < |flatIds| ==> |flatIds[c]| <= padTo && |offsets[c]| <= padTo
    ensures |paddedIds| == |flatIds| && |paddedOffsets| == |flatIds|
    ensures forall c :: 0 <= c < |flatIds| ==>
              paddedIds[c] == Pad(flatIds[c], padTo, 0) && paddedOffsets[c] == Pad(offsets[c], padTo, -1)
  {
    paddedIds, paddedOffsets := flatIds, offsets;
    var i := 0;
    while i < |flatIds|
      invariant 0 <= i <= |flatIds|
      invariant |paddedIds| == |flatIds| && |paddedOffsets| == |flatIds|
      invariant forall c :: 0 <= c < |flatIds| ==>
                  paddedIds[c] == (if c < i then Pad(flatIds[c], padTo, 0) else flatIds[c])
      invariant forall c :: 0 <= c < |flatIds| ==>
                  paddedOffsets[c] == (if c < i then Pad(offsets[c], padTo, -1) else offsets[c])
    {
      paddedIds := paddedIds[i := Pad(paddedIds[i], padTo, 0)];
      paddedOffsets := paddedOffsets[i := Pad(paddedOffsets[i], padTo, -1)];
      i := i + 1;
    }
  }

  /** The loop over the batch: every item's `flat_ids` and cumulative offsets. */
  method EncodeBatch(wordDict: seq<seq<string>>, encode: string -> seq<int>, refStr: string)
    returns (flatIds: seq<seq<int>>, offsets: seq<seq<int>>)
    ensures flatIds == BatchIds(encode, refStr, wordDict)
    ensures offsets == BatchOffsets(encode, refStr, wordDict)
  {
    flatIds, offsets := [], [];
    var b := 0;
    while b < |wordDict|
      invariant 0 <= b <= |wordDict|
      invariant flatIds == BatchIds(encode, refStr, wordDict[..b])
      invariant offsets == BatchOffsets(encode, refStr, wordDict[..b])
    {
      var itemFlatIds, itemOffsets := EncodeItem(wordDict[b], encode, refStr);
      BatchSnoc(encode, refStr, wordDict, b);
      flatIds := flatIds + [itemFlatIds];
      offsets := offsets + [CumSum(itemOffsets)];
      b := b + 1;
    }
    assert wordDict[..b] == wordDict;
  }

  /** `to_word_list_format(word_dict, tokenizer, ref_str)`. An empty batch makes
      `max()` raise. Otherwise item `b` of the result is
      `[ids padded with 0, offsets padded with -1]`, both `pad_to` long. */
  method ToWordListFormat(wordDict: seq<seq<string>>, encode: string -> seq<int>, refStr: string)
    returns (r: Result<seq<seq<seq<int>>>>)
    ensures r.Err? <==> |wordDict| == 0
    ensures r.Ok? ==>
              && |r.value| == |wordDict|
              && forall b :: 0 <= b < |wordDict| ==>
                   var ids := ItemIds(encode, refStr, wordDict[b]);
                   var offs := CumSum(ItemCounts(encode, refStr, wordDict[b]));
                   var width := PadWidth(encode, refStr, wordDict);
                   && |ids| <= width && |offs| <= width
                   && r.value[b] == [Pad(ids, width, 0), Pad(offs, width, -1)]
  {
    var flatIds, offsets := EncodeBatch(wordDict, encode, refStr);
    if |flatIds| == 0 {
      return Err(EmptyBatch);
    }
    var longest := Longest(flatIds);
    var padTo := if longest < 1 then 1 else longest;
    ItemsFitWidth(encode, refStr, wordDict);

    flatIds, offsets := PadAll(flatIds, offsets, padTo);
    r := Ok(seq(|flatIds|, c requires 0 <= c < |flatIds| => [flatIds[c], offsets[c]]));
  }
}
