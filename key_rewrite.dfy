/** The per-key rewriting of the rank loop of `model_to_trtllm_ckpt`
    (nemo/export/trt_llm/nemo_utils.py:264-273): a weight name loses its
    `.{tp_rank}.bin` suffix, its layer number is made local to the rank's
    pipeline stage, and Falcon's `post_layernorm` becomes `mlp_layernorm`.
    The code copies every other name unchanged: a key of another
    tensor-parallel rank keeps its suffix, and a layer the stage does not own
    keeps its global number. */
module KeyRewrite {
  import opened Results
  import opened Text

  /** What a rank's rewriting depends on: its tensor-parallel index, the
      layers its stage owns (`mapping.pp_layers(num_layers)`), and whether the
      config sets `new_decoder_architecture`. */
  datatype KeyContext = KeyContext(tpRank: int, layers: seq<int>, newArch: bool)

  function TpSuffix(tpRank: int): string
  {
    "." + IntStr(tpRank) + ".bin"
  }

  /** Step 1: a name ending in `{tp_rank}.bin` has every `.{tp_rank}.bin` removed. */
  function StripTpSuffix(k: string, tpRank: int): (r: string)
    ensures !EndsWith(k, IntStr(tpRank) + ".bin") ==> r == k
  {
    if EndsWith(k, ".bin") && EndsWith(k, IntStr(tpRank) + ".bin") then
      Replace(k, TpSuffix(tpRank), "")
    else k
  }

  /** A name that contains `layers` but whose third dot field is missing or
      not an integer: reading its layer number raises. */
  predicate MalformedLayerKey(k: string)
  {
    Contains(k, "layers") && (|SplitOn(k, '.')| < 3 || ParseInt(SplitOn(k, '.')[2]).None?)
  }

  /** Step 2: a name containing `layers` has its third dot field read as the
      layer number; a layer the stage owns is renumbered from the stage's
      first layer, any other layer is left as it is. Too few fields or a
      field that is not an integer raise. */
  function RenumberLayer(k: string, layers: seq<int>): (r: Result<string>)
    ensures r.Err? <==> MalformedLayerKey(k)
    ensures !Contains(k, "layers") ==> r == Ok(k)
  {
    if !Contains(k, "layers") then Ok(k)
    else
      var fields := SplitOn(k, '.');
      if |fields| < 3 then Err(TooFewFields(k))
      else
        match ParseInt(fields[2])
        case None => Err(NotAnInteger(fields[2]))
        case Some(n) =>
          if n in layers then Ok(Replace(k, "layers." + IntStr(n), "layers." + IntStr(n - layers[0])))
          else Ok(k)
  }

  /** Step 3: with the new Falcon decoder architecture, `post_layernorm`
      becomes `mlp_layernorm`. */
  function RenameFalcon(k: string, newArch: bool): (r: string)
    ensures !newArch ==> r == k
  {
    if newArch && Contains(k, "post_layernorm") then Replace(k, "post_layernorm", "mlp_layernorm")
    else k
  }

  /** The name a weight is stored under in the rank's dict. A name none of
      the three steps applies to is kept as it is; it fails exactly when the
      layer number of the suffix-stripped name cannot be read. */
  function RewriteKey(k: string, ctx: KeyContext): (r: Result<string>)
    ensures (!EndsWith(k, IntStr(ctx.tpRank) + ".bin") && !Contains(k, "layers") &&
             !(ctx.newArch && Contains(k, "post_layernorm"))) ==> r == Ok(k)
    ensures r.Err? <==> MalformedLayerKey(StripTpSuffix(k, ctx.tpRank))
  {
    match RenumberLayer(StripTpSuffix(k, ctx.tpRank), ctx.layers)
    case Err(e) => Err(e)
    case Ok(k2) => Ok(RenameFalcon(k2, ctx.newArch))
  }

  lemma NotContainsEmpty(pat: string)
    requires |pat| > 0
    ensures !Contains("", pat)
  {
  }

  /** A key of this rank, `a.{tp_rank}.bin`, is stored as `a` (when the
      suffix pattern does not already occur earlier in the key). */
  lemma StripOwnSuffix(a: string, tpRank: int)
    requires forall j :: 0 <= j < |a| ==> !MatchAt(a + TpSuffix(tpRank), TpSuffix(tpRank), j)
    ensures StripTpSuffix(a + TpSuffix(tpRank), tpRank) == a
  {
    OwnSuffixEnds(a, tpRank);
    NotContainsEmpty(TpSuffix(tpRank));
    assert a + TpSuffix(tpRank) + "" == a + TpSuffix(tpRank);
    ReplaceOnce(a, TpSuffix(tpRank), "", "");
    assert a + "" + "" == a;
  }

  lemma OwnSuffixEnds(a: string, tpRank: int)
    ensures EndsWith(a + TpSuffix(tpRank), ".bin")
    ensures EndsWith(a + TpSuffix(tpRank), IntStr(tpRank) + ".bin")
  {
    var d := IntStr(tpRank);
    var k := a + TpSuffix(tpRank);
    assert k == (a + ".") + (d + ".bin");
    EndsWithConcat(a + ".", d + ".bin");
    assert k == (a + "." + d) + ".bin";
    EndsWithConcat(a + "." + d, ".bin");
  }

  lemma EndsWithConcat(x: string, t: string)
    ensures EndsWith(x + t, t)
  {
    assert (x + t)[|x|..] == t;
  }

  /** The name `p.layers.{n}<tail>` of a weight of layer `n`. */
  function LayerKey(p: string, n: int, tail: string): string
  {
    p + ".layers." + IntStr(n) + tail
  }

  /** The layer field of `p.layers.{n}<tail>` reads back as `n`. */
  lemma LayerField(p: string, n: int, tail: string)
    requires '.' !in p
    requires tail == [] || tail[0] == '.'
    ensures var fields := SplitOn(LayerKey(p, n, tail), '.');
            |fields| >= 3 && fields[2] == IntStr(n)
  {
    var q := IntStr(n) + tail;
    var s1 := "layers" + ['.'] + q;
    LayerKeyFields(p, n, tail);
    SplitOnField(p, '.', s1);
    SplitOnField("layers", '.', q);
    SplitOnHead(IntStr(n), '.', tail);
  }

  lemma LayerKeyFields(p: string, n: int, tail: string)
    ensures LayerKey(p, n, tail) == p + ['.'] + ("layers" + ['.'] + (IntStr(n) + tail))
  {
    assert ".layers." == ['.'] + "layers" + ['.'];
  }

  /** A field followed by a separator or by nothing is the first part. */
  lemma SplitOnHead(x: string, sep: char, rest: string)
    requires sep !in x
    requires rest == [] || rest[0] == sep
    ensures SplitOn(x + rest, sep)[0] == x
  {
    if rest == [] {
      assert x + rest == x;
      SplitOnNoSep(x, sep);
    } else {
      assert x + rest == x + [sep] + rest[1..];
      SplitOnField(x, sep, rest[1..]);
    }
  }

  lemma {:induction false} SplitOnNoSep(s: string, sep: char)
    requires sep !in s
    ensures SplitOn(s, sep) == [s]
    decreases |s|
  {
    if |s| > 0 {
      SplitOnNoSep(s[1..], sep);
      assert [s[0]] + s[1..] == s;
    }
  }

  /** `p.layers.{n}<tail>` is recognised as a weight of layer `n`. */
  lemma LayerKeyParses(p: string, n: int, tail: string)
    requires '.' !in p
    requires tail == [] || tail[0] == '.'
    ensures var k := LayerKey(p, n, tail);
            var fields := SplitOn(k, '.');
            Contains(k, "layers") && |fields| >= 3 && ParseInt(fields[2]) == Some(n)
  {
    var k := LayerKey(p, n, tail);
    assert MatchAt(k, "layers", |p| + 1) by {
      assert k[|p| + 1..|p| + 7] == "layers";
    }
    LayerField(p, n, tail);
    ParseIntStr(n);
  }

  lemma LayerKeyParts(p: string, n: int, tail: string)
    ensures LayerKey(p, n, tail) == (p + ".") + ("layers." + IntStr(n)) + tail
  {
    assert ".layers." == "." + "layers.";
  }

  /** What the code does with a key whose layer field reads as `n`. */
  lemma RenumberParsed(k: string, layers: seq<int>, n: int)
    requires Contains(k, "layers")
    requires |SplitOn(k, '.')| >= 3 && ParseInt(SplitOn(k, '.')[2]) == Some(n)
    ensures RenumberLayer(k, layers)
              == if n in layers then Ok(Replace(k, "layers." + IntStr(n), "layers." + IntStr(n - layers[0])))
                 else Ok(k)
  {
  }

  /** A weight of layer `n`, named `p.layers.{n}<tail>`, of a layer the
      stage owns is renumbered to `n - layers[0]`. */
  lemma RenumberOwnedLayer(p: string, n: int, tail: string, layers: seq<int>)
    requires '.' !in p
    requires tail == [] || tail[0] == '.'
    requires forall j :: 0 <= j < |p| + 1 ==> !MatchAt(LayerKey(p, n, tail), "layers." + IntStr(n), j)
    requires !Contains(tail, "layers." + IntStr(n))
    requires n in layers
    ensures RenumberLayer(LayerKey(p, n, tail), layers) == Ok(LayerKey(p, n - layers[0], tail))
  {
    var k := LayerKey(p, n, tail);
    var pat := "layers." + IntStr(n);
    var rep := "layers." + IntStr(n - layers[0]);
    LayerKeyParses(p, n, tail);
    RenumberParsed(k, layers, n);
    LayerKeyParts(p, n, tail);
    LayerKeyParts(p, n - layers[0], tail);
    ReplaceOnce(p + ".", pat, tail, rep);
  }

  /** A weight of a layer the stage does not own is copied under its global
      name: the code does not drop it. */
  lemma KeepForeignLayer(p: string, n: int, tail: string, layers: seq<int>)
    requires '.' !in p
    requires tail == [] || tail[0] == '.'
    requires n !in layers
    ensures RenumberLayer(LayerKey(p, n, tail), layers) == Ok(LayerKey(p, n, tail))
  {
    LayerKeyParses(p, n, tail);
    RenumberParsed(LayerKey(p, n, tail), layers, n);
  }

  /** With the new Falcon architecture, `a post_layernorm b` becomes
      `a mlp_layernorm b` (when that is the only occurrence the scan meets). */
  lemma FalconRename(a: string, b: string)
    requires forall j :: 0 <= j < |a| ==> !MatchAt(a + "post_layernorm" + b, "post_layernorm", j)
    requires !Contains(b, "post_layernorm")
    ensures RenameFalcon(a + "post_layernorm" + b, true) == a + "mlp_layernorm" + b
  {
    assert MatchAt(a + "post_layernorm" + b, "post_layernorm", |a|) by {
      assert (a + "post_layernorm" + b)[|a|..|a| + 14] == "post_layernorm";
    }
    ReplaceOnce(a, "post_layernorm", b, "mlp_layernorm");
  }
}
