/** The second half of `model_to_trtllm_ckpt`
    (nemo/export/trt_llm/nemo_utils.py:158-310): from the converted weight
    dict it pads the `lm_head` to the padded vocabulary, synthesises the
    TensorRT-LLM config, and builds one weight dict and one config per rank
    of the `tp_size * pp_size` world. */
module Reshard {
  import opened Results
  import opened Tensors
  import opened CkptConfig
  import opened KeyRewrite

  /** `weights_dict` in its iteration order. The order matters: two names
      that rewrite to the same key are written one after the other, and the
      later one stays. A Python dict has no repeated name, so a sequence
      with one lies outside the source's domain; the lemmas about it hold
      for such sequences all the same. */
  type Checkpoint = seq<(string, Tensor<real>)>

  /** A rank's `weights_dict_local`. */
  type Weights = map<string, Tensor<real>>

  const VocabKey: string := "transformer.vocab_embedding.weight"
  const PosKey: string := "transformer.position_embedding.weight"
  const LmHeadKey: string := "lm_head.weight"
  const LnfWeightKey: string := "transformer.ln_f.weight"
  const LnfBiasKey: string := "transformer.ln_f.bias"

  /** The names the rank loop leaves to the stage that owns them. */
  const PpKeys: set<string> := {VocabKey, PosKey, LmHeadKey, LnfWeightKey, LnfBiasKey}

  /** numpy arrays are rectangular. */
  predicate AllWellFormed(ckpt: Checkpoint)
  {
    forall i :: 0 <= i < |ckpt| ==> WellFormed(ckpt[i].1)
  }

  /** `weights_dict.get(key)`. */
  function Lookup(ckpt: Checkpoint, key: string): (r: Option<Tensor<real>>)
    ensures r.None? <==> forall i :: 0 <= i < |ckpt| ==> ckpt[i].0 != key
    ensures r.Some? ==> (key, r.value) in ckpt
    ensures r.Some? && AllWellFormed(ckpt) ==> WellFormed(r.value)
    decreases |ckpt|
  {
    if |ckpt| == 0 then None
    else if ckpt[0].0 == key then Some(ckpt[0].1)
    else
      assert forall i :: 1 <= i < |ckpt| ==> ckpt[i] == ckpt[1..][i - 1];
      Lookup(ckpt[1..], key)
  }

  // ---------------------------------------------------------------------
  // The generic pass of the inner loop

  /** The rewriting a rank applies to every name it reads. */
  function Rewriter(ctx: KeyContext): string -> Result<string>
  {
    k => RewriteKey(k, ctx)
  }

  /** `weights_dict_local` after the inner loop has read the items of
      `ckpt` in order: every name outside `PpKeys` is rewritten and its
      tensor stored under the new name; a failing rewrite raises. */
  function GenericPass(ckpt: Checkpoint, rewrite: string -> Result<string>): Result<Weights>
    decreases |ckpt|
  {
    if |ckpt| == 0 then Ok(map[])
    else
      match GenericPass(ckpt[..|ckpt| - 1], rewrite)
      case Err(e) => Err(e)
      case Ok(local) =>
        var (k, v) := ckpt[|ckpt| - 1];
        if k in PpKeys then Ok(local)
        else
          match rewrite(k)
          case Err(e) => Err(e)
          case Ok(newKey) => Ok(local[newKey := v])
  }

  /** Item `j` of `ckpt` is stored by the generic pass under `key`. */
  predicate Produces(ckpt: Checkpoint, j: int, rewrite: string -> Result<string>, key: string)
  {
    0 <= j < |ckpt| && ckpt[j].0 !in PpKeys && rewrite(ckpt[j].0) == Ok(key)
  }

  /** Every name the generic pass reads can be rewritten. */
  predicate Rewritable(ckpt: Checkpoint, rewrite: string -> Result<string>)
  {
    forall j :: 0 <= j < |ckpt| && ckpt[j].0 !in PpKeys ==> rewrite(ckpt[j].0).Ok?
  }

  lemma PrefixProduces(ckpt: Checkpoint, n: nat, rewrite: string -> Result<string>, key: string)
    requires n <= |ckpt|
    ensures forall j :: 0 <= j < n ==> (Produces(ckpt[..n], j, rewrite, key) <==> Produces(ckpt, j, rewrite, key))
  {
    assert forall j :: 0 <= j < n ==> ckpt[..n][j] == ckpt[j];
  }

  /** The generic pass raises exactly when some name it reads cannot be rewritten. */
  lemma {:induction false} GenericPassOk(ckpt: Checkpoint, rewrite: string -> Result<string>)
    ensures GenericPass(ckpt, rewrite).Ok? <==> Rewritable(ckpt, rewrite)
    decreases |ckpt|
  {
    if |ckpt| > 0 {
      var init := ckpt[..|ckpt| - 1];
      GenericPassOk(init, rewrite);
      assert forall j :: 0 <= j < |init| ==> init[j] == ckpt[j];
    }
  }

  /** Once an earlier item raises, the pass raises with that error. */
  lemma {:induction false} GenericPassPrefixErr(ckpt: Checkpoint, n: nat, rewrite: string -> Result<string>)
    requires n <= |ckpt|
    requires GenericPass(ckpt[..n], rewrite).Err?
    ensures GenericPass(ckpt, rewrite) == GenericPass(ckpt[..n], rewrite)
    decreases |ckpt|
  {
    if n < |ckpt| {
      var init := ckpt[..|ckpt| - 1];
      assert init[..n] == ckpt[..n];
      GenericPassPrefixErr(init, n, rewrite);
    } else {
      assert ckpt[..n] == ckpt;
    }
  }

  /** The keys of the generic pass are exactly the rewritten names. */
  lemma {:induction false} GenericPassKeys(ckpt: Checkpoint, rewrite: string -> Result<string>)
    requires GenericPass(ckpt, rewrite).Ok?
    ensures forall key :: key in GenericPass(ckpt, rewrite).value <==> exists j :: Produces(ckpt, j, rewrite, key)
    decreases |ckpt|
  {
    if |ckpt| > 0 {
      GenericPassKeys(ckpt[..|ckpt| - 1], rewrite);
      forall key
        ensures key in GenericPass(ckpt, rewrite).value <==> exists j :: Produces(ckpt, j, rewrite, key)
      {
        GenericPassKeysStep(ckpt, rewrite, key);
      }
    }
  }

  /** One step of `GenericPassKeys`: the last item adds its new name. */
  lemma GenericPassKeysStep(ckpt: Checkpoint, rewrite: string -> Result<string>, key: string)
    requires |ckpt| > 0 && GenericPass(ckpt, rewrite).Ok?
    requires var init := ckpt[..|ckpt| - 1];
             GenericPass(init, rewrite).Ok? &&
             (key in GenericPass(init, rewrite).value <==> exists j :: Produces(init, j, rewrite, key))
    ensures key in GenericPass(ckpt, rewrite).value <==> exists j :: Produces(ckpt, j, rewrite, key)
  {
    if key in GenericPass(ckpt, rewrite).value {
      var j := StoredKeyProduced(ckpt, rewrite, key);
    }
    if j :| Produces(ckpt, j, rewrite, key) {
      ProducedKeyStored(ckpt, rewrite, key, j);
    }
  }

  lemma StoredKeyProduced(ckpt: Checkpoint, rewrite: string -> Result<string>, key: string) returns (j: int)
    requires |ckpt| > 0 && GenericPass(ckpt, rewrite).Ok?
    requires var init := ckpt[..|ckpt| - 1];
             GenericPass(init, rewrite).Ok? &&
             (key in GenericPass(init, rewrite).value ==> exists j :: Produces(init, j, rewrite, key))
    requires key in GenericPass(ckpt, rewrite).value
    ensures Produces(ckpt, j, rewrite, key)
  {
    var init := ckpt[..|ckpt| - 1];
    var k := ckpt[|ckpt| - 1].0;
    if k !in PpKeys && rewrite(k) == Ok(key) {
      j := |ckpt| - 1;
    } else {
      assert key in GenericPass(init, rewrite).value;
      j :| Produces(init, j, rewrite, key);
      assert init[j] == ckpt[j];
    }
  }

  lemma ProducedKeyStored(ckpt: Checkpoint, rewrite: string -> Result<string>, key: string, j: int)
    requires |ckpt| > 0 && GenericPass(ckpt, rewrite).Ok?
    requires var init := ckpt[..|ckpt| - 1];
             GenericPass(init, rewrite).Ok? &&
             ((exists j :: Produces(init, j, rewrite, key)) ==> key in GenericPass(init, rewrite).value)
    requires Produces(ckpt, j, rewrite, key)
    ensures key in GenericPass(ckpt, rewrite).value
  {
    var init := ckpt[..|ckpt| - 1];
    if j < |init| {
      assert init[j] == ckpt[j];
      assert Produces(init, j, rewrite, key);
    }
  }

  /** The value stored under a key is that of the last item rewritten to it:
      a later item with the same new name overwrites an earlier one. */
  lemma {:induction false} GenericPassLastWins(ckpt: Checkpoint, rewrite: string -> Result<string>, j: int, key: string)
    requires GenericPass(ckpt, rewrite).Ok?
    requires Produces(ckpt, j, rewrite, key)
    requires forall j' :: j < j' < |ckpt| ==> !Produces(ckpt, j', rewrite, key)
    ensures key in GenericPass(ckpt, rewrite).value && GenericPass(ckpt, rewrite).value[key] == ckpt[j].1
    decreases |ckpt|
  {
    var init := ckpt[..|ckpt| - 1];
    if j < |init| {
      PrefixProduces(ckpt, |init|, rewrite, key);
      GenericPassLastWins(init, rewrite, j, key);
      assert !Produces(ckpt, |init|, rewrite, key);
    }
  }

  // ---------------------------------------------------------------------
  // The stage-owned weights

  /** Agreement of two dicts outside the names in `except`. */
  ghost predicate Agrees(a: Weights, b: Weights, except: set<string>)
  {
    forall k :: k !in except ==> (k in a <==> k in b) && (k in a ==> a[k] == b[k])
  }

  /** A first-stage embedding: row-split across tensor-parallel ranks when
      the embedding is parallel, whole otherwise. */
  function EmbeddingShard(t: Tensor<real>, m: Mapping, useParallelEmbedding: bool): (r: Result<Tensor<real>>)
    requires WellFormed(t)
    ensures !useParallelEmbedding ==> r == Ok(t)
    ensures useParallelEmbedding ==> r == Split(t, m.tpSize, m.tpRank, 0)
  {
    if useParallelEmbedding then Split(t, m.tpSize, m.tpRank, 0) else Ok(t)
  }

  predicate FirstStageOk(ckpt: Checkpoint, m: Mapping, useParallelEmbedding: bool)
    requires AllWellFormed(ckpt)
  {
    m.isFirstPpRank ==>
      && Lookup(ckpt, VocabKey).Some?
      && EmbeddingShard(Lookup(ckpt, VocabKey).value, m, useParallelEmbedding).Ok?
      && (Lookup(ckpt, PosKey).Some? ==> EmbeddingShard(Lookup(ckpt, PosKey).value, m, useParallelEmbedding).Ok?)
  }

  /** The first pipeline stage receives the token embedding and, when the
      checkpoint has one, the position embedding; other stages are left as
      the generic pass made them. */
  function AttachFirstStage(ckpt: Checkpoint, m: Mapping, useParallelEmbedding: bool, local: Weights): (r: Result<Weights>)
    requires AllWellFormed(ckpt)
    ensures !m.isFirstPpRank ==> r == Ok(local)
    ensures r.Ok? <==> FirstStageOk(ckpt, m, useParallelEmbedding)
    ensures r.Ok? && m.isFirstPpRank ==>
              && VocabKey in r.value
              && Ok(r.value[VocabKey]) == EmbeddingShard(Lookup(ckpt, VocabKey).value, m, useParallelEmbedding)
              && (Lookup(ckpt, PosKey).Some? ==>
                    PosKey in r.value
                    && Ok(r.value[PosKey]) == EmbeddingShard(Lookup(ckpt, PosKey).value, m, useParallelEmbedding))
              && Agrees(r.value, local, if Lookup(ckpt, PosKey).Some? then {VocabKey, PosKey} else {VocabKey})
  {
    if !m.isFirstPpRank then Ok(local)
    else
      match Lookup(ckpt, VocabKey)
      case None => Err(KeyMissing(VocabKey))
      case Some(vocab) =>
        match EmbeddingShard(vocab, m, useParallelEmbedding)
        case Err(e) => Err(e)
        case Ok(emb) =>
          var local1 := local[VocabKey := emb];
          AgreesUpdate(local, VocabKey, emb, {VocabKey});
          match Lookup(ckpt, PosKey)
          case None => Ok(local1)
          case Some(pos) =>
            match EmbeddingShard(pos, m, useParallelEmbedding)
            case Err(e) => Err(e)
            case Ok(p) =>
              AgreesUpdate(local1, PosKey, p, {PosKey});
              AgreesCompose(local1[PosKey := p], local1, local, {PosKey}, {VocabKey}, {VocabKey, PosKey});
              Ok(local1[PosKey := p])
  }

  /** Storing one name changes a dict only at that name. */
  lemma AgreesUpdate(a: Weights, k: string, v: Tensor<real>, e: set<string>)
    requires k in e
    ensures Agrees(a[k := v], a, e)
  {
  }

  predicate LastStageOk(ckpt: Checkpoint, m: Mapping, lmHead: Tensor<real>)
    requires WellFormed(lmHead)
  {
    m.isLastPpRank ==> Split(lmHead, m.tpSize, m.tpRank, 0).Ok? && Lookup(ckpt, LnfWeightKey).Some?
  }

  /** The last pipeline stage receives its row block of the padded
      `lm_head`, the final norm weight (which must exist) and the final norm
      bias when the checkpoint has one. */
  function AttachLastStage(ckpt: Checkpoint, m: Mapping, lmHead: Tensor<real>, local: Weights): (r: Result<Weights>)
    requires WellFormed(lmHead)
    ensures !m.isLastPpRank ==> r == Ok(local)
    ensures r.Ok? <==> LastStageOk(ckpt, m, lmHead)
    ensures m.isLastPpRank && Split(lmHead, m.tpSize, m.tpRank, 0).Ok? && Lookup(ckpt, LnfWeightKey).None? ==>
              r == Err(KeyMissing(LnfWeightKey))
    ensures r.Ok? && m.isLastPpRank ==>
              && LmHeadKey in r.value && Ok(r.value[LmHeadKey]) == Split(lmHead, m.tpSize, m.tpRank, 0)
              && LnfWeightKey in r.value && Some(r.value[LnfWeightKey]) == Lookup(ckpt, LnfWeightKey)
              && (Lookup(ckpt, LnfBiasKey).Some? ==>
                    LnfBiasKey in r.value && Some(r.value[LnfBiasKey]) == Lookup(ckpt, LnfBiasKey))
              && Agrees(r.value, local,
                        if Lookup(ckpt, LnfBiasKey).Some? then {LmHeadKey, LnfWeightKey, LnfBiasKey}
                        else {LmHeadKey, LnfWeightKey})
  {
    if !m.isLastPpRank then Ok(local)
    else
      match Split(lmHead, m.tpSize, m.tpRank, 0)
      case Err(e) => Err(e)
      case Ok(head) =>
        var local1 := local[LmHeadKey := head];
        match Lookup(ckpt, LnfWeightKey)
        case None => Err(KeyMissing(LnfWeightKey))
        case Some(w) =>
          var local2 := local1[LnfWeightKey := w];
          match Lookup(ckpt, LnfBiasKey)
          case None => Ok(local2)
          case Some(b) => Ok(local2[LnfBiasKey := b])
  }

  /** The weight dict of one rank: the generic pass, then the first-stage
      and the last-stage weights. */
  function RankWeights(ckpt: Checkpoint, ctx: KeyContext, m: Mapping, useParallelEmbedding: bool,
                       lmHead: Tensor<real>): (r: Result<Weights>)
    requires AllWellFormed(ckpt) && WellFormed(lmHead)
    ensures r.Ok? <==>
              Rewritable(ckpt, Rewriter(ctx)) && FirstStageOk(ckpt, m, useParallelEmbedding) && LastStageOk(ckpt, m, lmHead)
  {
    GenericPassOk(ckpt, Rewriter(ctx));
    match GenericPass(ckpt, Rewriter(ctx))
    case Err(e) => Err(e)
    case Ok(local) =>
      match AttachFirstStage(ckpt, m, useParallelEmbedding, local)
      case Err(e) => Err(e)
      case Ok(local1) => AttachLastStage(ckpt, m, lmHead, local1)
  }

  /** The names a rank's stages set on top of the generic pass. */
  function StageKeys(m: Mapping): (r: set<string>)
    ensures r <= PpKeys
  {
    (if m.isFirstPpRank then {VocabKey, PosKey} else {})
    + (if m.isLastPpRank then {LmHeadKey, LnfWeightKey, LnfBiasKey} else {})
  }

  /** Apart from the names its stages own, a rank's dict is what the generic
      pass built. */
  lemma RankAgreesWithGenericPass(ckpt: Checkpoint, ctx: KeyContext, m: Mapping, useParallelEmbedding: bool,
                                  lmHead: Tensor<real>)
    requires AllWellFormed(ckpt) && WellFormed(lmHead)
    requires RankWeights(ckpt, ctx, m, useParallelEmbedding, lmHead).Ok?
    ensures GenericPass(ckpt, Rewriter(ctx)).Ok?
    ensures Agrees(RankWeights(ckpt, ctx, m, useParallelEmbedding, lmHead).value, GenericPass(ckpt, Rewriter(ctx)).value,
                   StageKeys(m))
  {
    var local := GenericPass(ckpt, Rewriter(ctx)).value;
    var local1 := AttachFirstStage(ckpt, m, useParallelEmbedding, local).value;
    var w := AttachLastStage(ckpt, m, lmHead, local1).value;
    assert w == RankWeights(ckpt, ctx, m, useParallelEmbedding, lmHead).value;
    var first: set<string> :=
      if !m.isFirstPpRank then {} else if Lookup(ckpt, PosKey).Some? then {VocabKey, PosKey} else {VocabKey};
    var last: set<string> :=
      if !m.isLastPpRank then {}
      else if Lookup(ckpt, LnfBiasKey).Some? then {LmHeadKey, LnfWeightKey, LnfBiasKey}
      else {LmHeadKey, LnfWeightKey};
    assert Agrees(local1, local, first);
    assert Agrees(w, local1, last);
    AgreesCompose(w, local1, local, last, first, StageKeys(m));
  }

  lemma AgreesCompose(a: Weights, b: Weights, c: Weights, e1: set<string>, e2: set<string>, e: set<string>)
    requires Agrees(a, b, e1) && Agrees(b, c, e2) && e1 + e2 <= e
    ensures Agrees(a, c, e)
  {
  }

  /** A name outside `PpKeys` is in a rank's dict exactly when some item is
      rewritten to it, and it holds the tensor of the last such item. */
  lemma RankWeightsGenericKeys(ckpt: Checkpoint, ctx: KeyContext, m: Mapping, useParallelEmbedding: bool,
                               lmHead: Tensor<real>)
    requires AllWellFormed(ckpt) && WellFormed(lmHead)
    requires RankWeights(ckpt, ctx, m, useParallelEmbedding, lmHead).Ok?
    ensures var w := RankWeights(ckpt, ctx, m, useParallelEmbedding, lmHead).value;
            && (forall key :: key !in PpKeys ==> (key in w <==> exists j :: Produces(ckpt, j, Rewriter(ctx), key)))
            && (forall j, key ::
                  key !in PpKeys && Produces(ckpt, j, Rewriter(ctx), key) &&
                  (forall j' :: j < j' < |ckpt| ==> !Produces(ckpt, j', Rewriter(ctx), key)) ==>
                  key in w && w[key] == ckpt[j].1)
  {
    RankAgreesWithGenericPass(ckpt, ctx, m, useParallelEmbedding, lmHead);
    GenericPassKeys(ckpt, Rewriter(ctx));
    forall j, key |
      key !in PpKeys && Produces(ckpt, j, Rewriter(ctx), key) &&
      (forall j' :: j < j' < |ckpt| ==> !Produces(ckpt, j', Rewriter(ctx), key))
      ensures key in GenericPass(ckpt, Rewriter(ctx)).value && GenericPass(ckpt, Rewriter(ctx)).value[key] == ckpt[j].1
    {
      GenericPassLastWins(ckpt, Rewriter(ctx), j, key);
    }
  }

  /** The token embedding is set on the first stage and the `lm_head`
      block on the last; on any other stage those names hold only what the
      generic pass rewrote to them. */
  lemma RankWeightsStageKeys(ckpt: Checkpoint, ctx: KeyContext, m: Mapping, useParallelEmbedding: bool,
                             lmHead: Tensor<real>)
    requires AllWellFormed(ckpt) && WellFormed(lmHead)
    requires RankWeights(ckpt, ctx, m, useParallelEmbedding, lmHead).Ok?
    ensures var w := RankWeights(ckpt, ctx, m, useParallelEmbedding, lmHead).value;
            && (m.isFirstPpRank ==>
                  VocabKey in w
                  && Ok(w[VocabKey]) == EmbeddingShard(Lookup(ckpt, VocabKey).value, m, useParallelEmbedding))
            && (!m.isFirstPpRank ==> (VocabKey in w <==> exists j :: Produces(ckpt, j, Rewriter(ctx), VocabKey)))
            && (m.isLastPpRank ==>
                  LmHeadKey in w && Ok(w[LmHeadKey]) == Split(lmHead, m.tpSize, m.tpRank, 0))
            && (!m.isLastPpRank ==> (LmHeadKey in w <==> exists j :: Produces(ckpt, j, Rewriter(ctx), LmHeadKey)))
  {
    var local := GenericPass(ckpt, Rewriter(ctx)).value;
    var local1 := AttachFirstStage(ckpt, m, useParallelEmbedding, local).value;
    var w := AttachLastStage(ckpt, m, lmHead, local1).value;
    RankAgreesWithGenericPass(ckpt, ctx, m, useParallelEmbedding, lmHead);
    GenericPassKeys(ckpt, Rewriter(ctx));
    if m.isFirstPpRank {
      assert VocabKey in local1;
      if m.isLastPpRank {
        assert VocabKey !in {LmHeadKey, LnfWeightKey, LnfBiasKey};
      }
    } else {
      assert VocabKey !in StageKeys(m);
    }
    if !m.isLastPpRank {
      assert LmHeadKey !in StageKeys(m);
    }
  }

  // ---------------------------------------------------------------------
  // The shared preparation

  /** `lm_head_weight`, padded with zero rows from `vocab_size` up to
      `vocab_size_padded`; `np.pad` raises on a vector or a negative width. */
  function PadLmHead(lm: Tensor<real>, vocabSize: nat, vocabSizePadded: int): (r: Result<Tensor<real>>)
    requires WellFormed(lm)
    ensures vocabSizePadded == vocabSize ==> r == Ok(lm)
    ensures vocabSizePadded != vocabSize ==> (r.Ok? <==> lm.Mat? && vocabSizePadded > vocabSize)
    ensures r.Ok? ==> WellFormed(r.value)
    ensures r.Ok? && vocabSizePadded != vocabSize ==>
              && r.value.Mat? && r.value.width == lm.width
              && |r.value.rows| == |lm.rows| + (vocabSizePadded - vocabSize)
              && r.value.rows[..|lm.rows|] == lm.rows
              && (forall i, j :: |lm.rows| <= i < |r.value.rows| && 0 <= j < lm.width ==> r.value.rows[i][j] == 0.0)
    ensures r.Ok? && lm.Mat? && |lm.rows| == vocabSize ==> |r.value.rows| == vocabSizePadded
  {
    if vocabSizePadded != vocabSize then PadRows(lm, vocabSizePadded - vocabSize, 0.0) else Ok(lm)
  }

  /** What every rank shares: the padded `lm_head` and the config. */
  datatype Prepared = Prepared(lmHead: Tensor<real>, config: ModelConfig)

  /** `vocab_size`, the first dimension of the token embedding. */
  function VocabSize(emb: Tensor<real>): nat
  {
    AxisLen(emb, 0)
  }

  /** The steps before the rank loop: the lookups of `lm_head.weight` and of
      the token embedding, the vocabulary padding and the config. */
  function Prepare(ckpt: Checkpoint, cfg: NemoConfig, decoderType: string, dtype: string,
                   tp: int, pp: int, useParallelEmbedding: bool, lib: Library): (r: Result<Prepared>)
    requires AllWellFormed(ckpt)
    ensures r.Ok? <==>
              && Lookup(ckpt, LmHeadKey).Some? && Lookup(ckpt, VocabKey).Some?
              && PadLmHead(Lookup(ckpt, LmHeadKey).value, VocabSize(Lookup(ckpt, VocabKey).value),
                           lib.padVocabSize(VocabSize(Lookup(ckpt, VocabKey).value), tp)).Ok?
              && SynthesisSucceeds(cfg, decoderType, lib)
    ensures r.Ok? ==>
              var padded := lib.padVocabSize(VocabSize(Lookup(ckpt, VocabKey).value), tp);
              && WellFormed(r.value.lmHead)
              && Ok(r.value.lmHead)
                   == PadLmHead(Lookup(ckpt, LmHeadKey).value, VocabSize(Lookup(ckpt, VocabKey).value), padded)
              && Ok(r.value.config)
                   == SynthesizeConfig(cfg, decoderType, dtype, tp, pp, useParallelEmbedding, padded, lib)
              && r.value.config.vocabSize == padded
  {
    match Lookup(ckpt, LmHeadKey)
    case None => Err(KeyMissing(LmHeadKey))
    case Some(lm) =>
      match Lookup(ckpt, VocabKey)
      case None => Err(KeyMissing(VocabKey))
      case Some(emb) =>
        var vocabSize := VocabSize(emb);
        var padded := lib.padVocabSize(vocabSize, tp);
        match PadLmHead(lm, vocabSize, padded)
        case Err(e) => Err(e)
        case Ok(head) =>
          match SynthesizeConfig(cfg, decoderType, dtype, tp, pp, useParallelEmbedding, padded, lib)
          case Err(e) => Err(e)
          case Ok(config) => Ok(Prepared(head, config))
  }

  /** When the padded vocabulary is a multiple of `tp_size` at least as large
      as the vocabulary, the `lm_head` pads cleanly and every
      tensor-parallel rank's row block of it exists, `padded / tp_size` rows
      high. */
  lemma LmHeadShardDefined(lm: Tensor<real>, vocabSize: nat, padded: int, tp: int, tpRank: int)
    requires WellFormed(lm) && lm.Mat? && |lm.rows| == vocabSize
    requires padded >= vocabSize && tp >= 1 && padded % tp == 0 && 0 <= tpRank < tp
    ensures PadLmHead(lm, vocabSize, padded).Ok?
    ensures var head := PadLmHead(lm, vocabSize, padded).value;
            Split(head, tp, tpRank, 0).Ok? && |Split(head, tp, tpRank, 0).value.rows| * tp == padded
  {
    var head := PadLmHead(lm, vocabSize, padded).value;
    assert SplitAxis(head, 0) == Some(0);
    assert SplitDefined(head, tp, tpRank, 0);
  }

  /** `tensorrt_llm.Mapping` of rank `i`. */
  function RankMapping(lib: Library, tp: int, pp: int, i: int): (m: Mapping)
    ensures m.rank == i && m.worldSize == tp * pp && m.tpSize == tp && m.ppSize == pp
  {
    MakeMapping(lib, tp * pp, i, tp, pp)
  }

  /** What the rewriting of rank `i` depends on. */
  function RankContext(prep: Prepared, cfg: NemoConfig, lib: Library, tp: int, pp: int, i: int): (ctx: KeyContext)
    ensures ctx.tpRank == RankMapping(lib, tp, pp, i).tpRank
    ensures ctx.layers == lib.ppLayersOf(RankMapping(lib, tp, pp, i), Get(cfg, "num_layers"))
    ensures ctx.newArch <==> prep.config.newDecoderArchitecture == Some(true)
  {
    var m := RankMapping(lib, tp, pp, i);
    KeyContext(m.tpRank, lib.ppLayersOf(m, Get(cfg, "num_layers")), prep.config.newDecoderArchitecture == Some(true))
  }

  // ---------------------------------------------------------------------
  // The loops

  /** The inner loop of one rank: every name outside `PpKeys`, rewritten
      by `rewrite` (for a rank, `Rewriter` of its context). */
  method RewriteAll(ckpt: Checkpoint, rewrite: string -> Result<string>) returns (r: Result<Weights>)
    ensures r == GenericPass(ckpt, rewrite)
  {
    var local: Weights := map[];
    var i := 0;
    while i < |ckpt|
      invariant 0 <= i <= |ckpt|
      invariant GenericPass(ckpt[..i], rewrite) == Ok(local)
    {
      var (k, v) := ckpt[i];
      assert ckpt[..i + 1][..i] == ckpt[..i];
      if k !in PpKeys {
        var newKey := rewrite(k);
        if newKey.Err? {
          GenericPassPrefixErr(ckpt, i + 1, rewrite);
          return Err(newKey.error);
        }
        local := local[newKey.value := v];
      }
      i := i + 1;
    }
    assert ckpt[..i] == ckpt;
    r := Ok(local);
  }

  /** The weight dict of one rank, built as the loop body does. */
  method BuildRankWeights(ckpt: Checkpoint, ctx: KeyContext, m: Mapping, useParallelEmbedding: bool,
                          lmHead: Tensor<real>) returns (r: Result<Weights>)
    requires AllWellFormed(ckpt) && WellFormed(lmHead)
    ensures r == RankWeights(ckpt, ctx, m, useParallelEmbedding, lmHead)
  {
    var generic := RewriteAll(ckpt, Rewriter(ctx));
    if generic.Err? {
      return Err(generic.error);
    }
    var local := generic.value;

    if m.isFirstPpRank {
      var vocab := Lookup(ckpt, VocabKey);
      if vocab.None? {
        return Err(KeyMissing(VocabKey));
      }
      var emb := EmbeddingShard(vocab.value, m, useParallelEmbedding);
      if emb.Err? {
        return Err(emb.error);
      }
      local := local[VocabKey := emb.value];
      var pos := Lookup(ckpt, PosKey);
      if pos.Some? {
        var p := EmbeddingShard(pos.value, m, useParallelEmbedding);
        if p.Err? {
          return Err(p.error);
        }
        local := local[PosKey := p.value];
      }
    }

    if m.isLastPpRank {
      var head := Split(lmHead, m.tpSize, m.tpRank, 0);
      if head.Err? {
        return Err(head.error);
      }
      local := local[LmHeadKey := head.value];
      var w := Lookup(ckpt, LnfWeightKey);
      if w.None? {
        return Err(KeyMissing(LnfWeightKey));
      }
      local := local[LnfWeightKey := w.value];
      var b := Lookup(ckpt, LnfBiasKey);
      if b.Some? {
        local := local[LnfBiasKey := b.value];
      }
    }
    r := Ok(local);
  }

  /** The weight dict of rank `i`. */
  function RankOutput(ckpt: Checkpoint, prep: Prepared, cfg: NemoConfig, lib: Library,
                      tp: int, pp: int, useParallelEmbedding: bool, i: int): Result<Weights>
    requires AllWellFormed(ckpt) && WellFormed(prep.lmHead)
  {
    RankWeights(ckpt, RankContext(prep, cfg, lib, tp, pp, i), RankMapping(lib, tp, pp, i),
                useParallelEmbedding, prep.lmHead)
  }

  /** The config of rank `i`: the shared one with the rank's mapping. */
  function RankConfig(prep: Prepared, lib: Library, tp: int, pp: int, i: int): (c: ModelConfig)
    ensures c.mapping == Some(RankMapping(lib, tp, pp, i))
    ensures c.(mapping := prep.config.mapping) == prep.config
  {
    prep.config.(mapping := Some(RankMapping(lib, tp, pp, i)))
  }

  /** Every rank's config is the synthesised config with that rank's mapping
      attached: the ranks share all other fields. */
  lemma RankConfigIsSynthesized(ckpt: Checkpoint, cfg: NemoConfig, decoderType: string, dtype: string,
                                tp: int, pp: int, useParallelEmbedding: bool, lib: Library, i: int)
    requires AllWellFormed(ckpt)
    requires Prepare(ckpt, cfg, decoderType, dtype, tp, pp, useParallelEmbedding, lib).Ok?
    ensures var prep := Prepare(ckpt, cfg, decoderType, dtype, tp, pp, useParallelEmbedding, lib).value;
            var padded := lib.padVocabSize(VocabSize(Lookup(ckpt, VocabKey).value), tp);
            var synthesized := SynthesizeConfig(cfg, decoderType, dtype, tp, pp, useParallelEmbedding, padded, lib);
            && synthesized.Ok?
            && RankConfig(prep, lib, tp, pp, i) == synthesized.value.(mapping := Some(RankMapping(lib, tp, pp, i)))
  {
    var prep := Prepare(ckpt, cfg, decoderType, dtype, tp, pp, useParallelEmbedding, lib).value;
    var c := RankConfig(prep, lib, tp, pp, i);
    assert prep.config.mapping.None?;
    assert c == c.(mapping := prep.config.mapping).(mapping := Some(RankMapping(lib, tp, pp, i)));
  }

  /** The body of the rank loop for rank `i`. */
  method BuildRank(ckpt: Checkpoint, prep: Prepared, cfg: NemoConfig, lib: Library,
                   tp: int, pp: int, useParallelEmbedding: bool, i: int)
    returns (weights: Result<Weights>, config: ModelConfig)
    requires AllWellFormed(ckpt) && WellFormed(prep.lmHead)
    ensures weights == RankOutput(ckpt, prep, cfg, lib, tp, pp, useParallelEmbedding, i)
    ensures config == RankConfig(prep, lib, tp, pp, i)
  {
    var mapping := MakeMapping(lib, tp * pp, i, tp, pp);
    var layersRange := lib.ppLayersOf(mapping, Get(cfg, "num_layers"));
    var ctx := KeyContext(mapping.tpRank, layersRange, prep.config.newDecoderArchitecture == Some(true));
    weights := BuildRankWeights(ckpt, ctx, mapping, useParallelEmbedding, prep.lmHead);
    config := prep.config.(mapping := Some(mapping));
  }

  /** `ws` and `cs` hold the dicts and configs of ranks `0 .. |ws| - 1`, in
      rank order. */
  ghost predicate RanksBuilt(ckpt: Checkpoint, prep: Prepared, cfg: NemoConfig, lib: Library,
                             tp: int, pp: int, useParallelEmbedding: bool, ws: seq<Weights>, cs: seq<ModelConfig>)
    requires AllWellFormed(ckpt) && WellFormed(prep.lmHead)
    decreases |ws|
  {
    && |ws| == |cs|
    && (|ws| > 0 ==>
          && RanksBuilt(ckpt, prep, cfg, lib, tp, pp, useParallelEmbedding, ws[..|ws| - 1], cs[..|cs| - 1])
          && Ok(ws[|ws| - 1]) == RankOutput(ckpt, prep, cfg, lib, tp, pp, useParallelEmbedding, |ws| - 1)
          && cs[|cs| - 1] == RankConfig(prep, lib, tp, pp, |cs| - 1))
  }

  /** Every entry of a built prefix is its rank's output. */
  lemma {:induction false} RanksBuiltAt(ckpt: Checkpoint, prep: Prepared, cfg: NemoConfig, lib: Library,
                                        tp: int, pp: int, useParallelEmbedding: bool,
                                        ws: seq<Weights>, cs: seq<ModelConfig>)
    requires AllWellFormed(ckpt) && WellFormed(prep.lmHead)
    requires RanksBuilt(ckpt, prep, cfg, lib, tp, pp, useParallelEmbedding, ws, cs)
    ensures |ws| == |cs|
    ensures forall n :: 0 <= n < |ws| ==>
              && Ok(ws[n]) == RankOutput(ckpt, prep, cfg, lib, tp, pp, useParallelEmbedding, n)
              && cs[n] == RankConfig(prep, lib, tp, pp, n)
    decreases |ws|
  {
    if |ws| > 0 {
      var ws', cs' := ws[..|ws| - 1], cs[..|cs| - 1];
      RanksBuiltAt(ckpt, prep, cfg, lib, tp, pp, useParallelEmbedding, ws', cs');
      forall n | 0 <= n < |ws|
        ensures Ok(ws[n]) == RankOutput(ckpt, prep, cfg, lib, tp, pp, useParallelEmbedding, n)
        ensures cs[n] == RankConfig(prep, lib, tp, pp, n)
      {
        if n < |ws'| {
          assert ws[n] == ws'[n] && cs[n] == cs'[n];
        }
      }
    }
  }

  /** Appending rank `|ws|`'s output extends a built prefix. */
  lemma RanksBuiltSnoc(ckpt: Checkpoint, prep: Prepared, cfg: NemoConfig, lib: Library,
                       tp: int, pp: int, useParallelEmbedding: bool,
                       ws: seq<Weights>, cs: seq<ModelConfig>, w: Weights, c: ModelConfig)
    requires AllWellFormed(ckpt) && WellFormed(prep.lmHead)
    requires RanksBuilt(ckpt, prep, cfg, lib, tp, pp, useParallelEmbedding, ws, cs)
    requires Ok(w) == RankOutput(ckpt, prep, cfg, lib, tp, pp, useParallelEmbedding, |ws|)
    requires c == RankConfig(prep, lib, tp, pp, |ws|)
    ensures RanksBuilt(ckpt, prep, cfg, lib, tp, pp, useParallelEmbedding, ws + [w], cs + [c])
  {
    assert (ws + [w])[..|ws|] == ws;
    assert (cs + [c])[..|cs|] == cs;
  }

  /** The rank loop: rank `i`'s dict and config at index `i`, for every rank
      of the `tp * pp` world, or the first rank's error. */
  method BuildAllRanks(ckpt: Checkpoint, prep: Prepared, cfg: NemoConfig, lib: Library,
                       tp: int, pp: int, useParallelEmbedding: bool)
    returns (r: Result<(seq<Weights>, seq<ModelConfig>)>)
    requires AllWellFormed(ckpt) && WellFormed(prep.lmHead)
    ensures r.Ok? <==>
              forall i :: 0 <= i < tp * pp ==> RankOutput(ckpt, prep, cfg, lib, tp, pp, useParallelEmbedding, i).Ok?
    ensures r.Ok? ==>
              && |r.value.0| == |r.value.1| == (if tp * pp > 0 then tp * pp else 0)
              && (forall i :: 0 <= i < |r.value.1| ==> r.value.1[i] == RankConfig(prep, lib, tp, pp, i))
              && (forall i :: 0 <= i < |r.value.0| ==>
                    Ok(r.value.0[i]) == RankOutput(ckpt, prep, cfg, lib, tp, pp, useParallelEmbedding, i))
  {
    var worldSize := tp * pp;
    var weightsDicts: seq<Weights> := [];
    var modelConfigs: seq<ModelConfig> := [];
    var i := 0;
    while i < worldSize
      invariant 0 <= i && (worldSize > 0 ==> i <= worldSize) && (worldSize <= 0 ==> i == 0)
      invariant |weightsDicts| == i
      invariant RanksBuilt(ckpt, prep, cfg, lib, tp, pp, useParallelEmbedding, weightsDicts, modelConfigs)
    {
      var weights, config := BuildRank(ckpt, prep, cfg, lib, tp, pp, useParallelEmbedding, i);
      if weights.Err? {
        return Err(weights.error);
      }
      RanksBuiltSnoc(ckpt, prep, cfg, lib, tp, pp, useParallelEmbedding, weightsDicts, modelConfigs,
                     weights.value, config);
      weightsDicts := weightsDicts + [weights.value];
      modelConfigs := modelConfigs + [config];
      i := i + 1;
    }
    RanksBuiltAt(ckpt, prep, cfg, lib, tp, pp, useParallelEmbedding, weightsDicts, modelConfigs);
    r := Ok((weightsDicts, modelConfigs));
  }

  /** `model_to_trtllm_ckpt` after the conversion: one weight dict and one
      config per rank of the `tp * pp` world, in rank order, each config the
      shared one with that rank's mapping attached. */
  method ModelToTrtllmCkpt(ckpt: Checkpoint, cfg: NemoConfig, decoderType: string, dtype: string,
                           tp: int, pp: int, useParallelEmbedding: bool, lib: Library)
    returns (r: Result<(seq<Weights>, seq<ModelConfig>)>)
    requires AllWellFormed(ckpt)
    ensures var prep := Prepare(ckpt, cfg, decoderType, dtype, tp, pp, useParallelEmbedding, lib);
            r.Ok? <==>
              && prep.Ok?
              && forall i :: 0 <= i < tp * pp ==>
                   RankOutput(ckpt, prep.value, cfg, lib, tp, pp, useParallelEmbedding, i).Ok?
    ensures r.Ok? ==>
              var prep := Prepare(ckpt, cfg, decoderType, dtype, tp, pp, useParallelEmbedding, lib).value;
              && |r.value.0| == |r.value.1| == (if tp * pp > 0 then tp * pp else 0)
              && (forall i :: 0 <= i < |r.value.1| ==> r.value.1[i] == RankConfig(prep, lib, tp, pp, i))
              && (forall i :: 0 <= i < |r.value.0| ==>
                    Ok(r.value.0[i]) == RankOutput(ckpt, prep, cfg, lib, tp, pp, useParallelEmbedding, i))
  {
    var prepared := Prepare(ckpt, cfg, decoderType, dtype, tp, pp, useParallelEmbedding, lib);
    if prepared.Err? {
      return Err(prepared.error);
    }
    r := BuildAllRanks(ckpt, prepared.value, cfg, lib, tp, pp, useParallelEmbedding);
  }
}
