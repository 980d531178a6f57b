/** Configuration synthesis of `model_to_trtllm_ckpt`: the TensorRT-LLM
    `PretrainedConfig` fields derived from the NeMo model config, the decoder
    architecture table, and the `Mapping` each rank's config carries.
    Library code whose body is not part of this model (`pad_vocab_size`,
    `non_gated_version`, `tensorrt_llm.Mapping`, the `MoeConfig` defaults)
    is reached through the `Library` record of uninterpreted functions. */
module CkptConfig {
  import opened Results
  import opened Text

  /** A value of the NeMo model config, a dict loaded from YAML. */
  datatype Value = Null | IntV(i: int) | RealV(x: real) | StrV(s: string) | BoolV(b: bool)

  type NemoConfig = map<string, Value>

  /** `cfg.get(key)`: `None` for a missing key. */
  function Get(cfg: NemoConfig, key: string): Value
  {
    if key in cfg then cfg[key] else Null
  }

  /** `cfg.get(key, default)`: the default only for a missing key. */
  function GetOr(cfg: NemoConfig, key: string, default: Value): Value
  {
    if key in cfg then cfg[key] else default
  }

  /** Python truthiness. */
  predicate Truthy(v: Value)
  {
    match v
    case Null => false
    case IntV(i) => i != 0
    case RealV(x) => x != 0.0
    case StrV(s) => s != ""
    case BoolV(b) => b
  }

  /** Python `v == n` for an int literal `n`: ints and floats compare by value. */
  predicate EqualsInt(v: Value, n: int)
  {
    v == IntV(n) || v == RealV(n as real)
  }

  /** Python `float(v)`. Strings are not parsed: they are reported as failures. */
  function ToFloat(v: Value): Result<real>
  {
    match v
    case IntV(i) => Ok(i as real)
    case RealV(x) => Ok(x)
    case BoolV(b) => Ok(if b then 1.0 else 0.0)
    case _ => Err(NotAFloat)
  }

  /** `DECODER_MODEL_TYPE`: decoder type to TensorRT-LLM architecture name. */
  const DecoderModelType: map<string, string> := map[
    "gptj" := "GPTForCausalLM",
    "gptnext" := "GPTForCausalLM",
    "llama" := "LLaMAForCausalLM",
    "gemma" := "GemmaForCausalLM",
    "falcon" := "FalconForCausalLM"
  ]

  /** The fields of a `tensorrt_llm.Mapping` that the resharding reads. The
      constructor arguments are stored as given; the rank's tensor-parallel
      index and stage flags come from the library. */
  datatype Mapping = Mapping(
    worldSize: int, rank: int, tpSize: int, ppSize: int,
    tpRank: int, isFirstPpRank: bool, isLastPpRank: bool)

  /** The library functions the converter calls, left uninterpreted. */
  datatype Library = Library(
    padVocabSize: (nat, int) -> int,
    nonGatedVersion: Value -> Value,
    tpRankOf: (int, int, int, int) -> int,
    isFirstPpRankOf: (int, int, int, int) -> bool,
    isLastPpRankOf: (int, int, int, int) -> bool,
    ppLayersOf: (Mapping, Value) -> seq<int>,
    moeRenormalize: Value,
    moeTensorParallel: Value)

  /** `tensorrt_llm.Mapping(world_size=.., rank=.., tp_size=.., pp_size=..)`. */
  function MakeMapping(lib: Library, worldSize: int, rank: int, tpSize: int, ppSize: int): (m: Mapping)
    ensures m.worldSize == worldSize && m.rank == rank && m.tpSize == tpSize && m.ppSize == ppSize
  {
    Mapping(worldSize, rank, tpSize, ppSize,
            lib.tpRankOf(worldSize, rank, tpSize, ppSize),
            lib.isFirstPpRankOf(worldSize, rank, tpSize, ppSize),
            lib.isLastPpRankOf(worldSize, rank, tpSize, ppSize))
  }

  datatype Quantization = Quantization(quantAlgo: Option<string>, kvCacheQuantAlgo: Option<string>)

  datatype RotaryScaling = RotaryScaling(kind: string, factor: real)

  /** The config record handed to `PretrainedConfig(**config)`, with the
      optional keys as `Option` fields and the `mapping` attached per rank. */
  datatype ModelConfig = ModelConfig(
    architecture: string,
    dtype: string,
    numHiddenLayers: Value,
    numAttentionHeads: Value,
    numKeyValueHeads: Value,
    headSize: Value,
    hiddenSize: Value,
    intermediateSize: Value,
    normEpsilon: Value,
    vocabSize: int,
    positionEmbeddingType: string,
    maxPositionEmbeddings: Value,
    hiddenAct: Value,
    useParallelEmbedding: bool,
    embeddingShardingDim: int,
    shareEmbeddingTable: bool,
    quantization: Quantization,
    bias: Value,
    applyQueryKeyLayerScaling: bool,
    rotaryPct: Value,
    rotaryBase: Value,
    moeNumExperts: Value,
    moeTopK: Value,
    moeNormalizationMode: Value,
    moeTpMode: Value,
    logitsDtype: string,
    worldSize: int,
    tpSize: int,
    ppSize: int,
    newDecoderArchitecture: Option<bool>,
    parallelAttention: Option<bool>,
    rotaryScaling: Option<RotaryScaling>,
    mapping: Option<Mapping>)

  function Last(parts: seq<string>): string
    requires |parts| >= 1
  {
    parts[|parts| - 1]
  }

  /** `l` is the text after the last `sep` of `s`: a `sep`-free suffix that
      is either all of `s` or preceded by `sep`. */
  predicate LastFieldOf(s: string, l: string, sep: char)
  {
    && EndsWith(s, l)
    && sep !in l
    && (l == s || (|l| < |s| && s[|s| - |l| - 1] == sep))
  }

  /** A string joined from parts ends with its last part, which is the whole
      string when there is one part and follows a separator otherwise. */
  lemma {:induction false} JoinEndsWithLast(parts: seq<string>, sep: char)
    requires |parts| >= 1
    ensures var whole := JoinWith(parts, sep);
            && EndsWith(whole, Last(parts))
            && (|parts| == 1 ==> whole == Last(parts))
            && (|parts| > 1 ==> |Last(parts)| < |whole| && whole[|whole| - |Last(parts)| - 1] == sep)
    decreases |parts|
  {
    if |parts| > 1 {
      JoinEndsWithLast(parts[1..], sep);
      var l := Last(parts);
      assert Last(parts[1..]) == l;
      var rest := JoinWith(parts[1..], sep);
      var whole := parts[0] + [sep] + rest;
      assert JoinWith(parts, sep) == whole;
      assert whole[|whole| - |l|..] == rest[|rest| - |l|..];
      if |parts| == 2 {
        assert rest == l;
        assert whole[|whole| - |l| - 1] == sep;
      } else {
        assert whole[|whole| - |l| - 1] == rest[|rest| - |l| - 1];
      }
    }
  }

  /** `hidden_act.split("-")[-1]` is the text after the last `-` of `hidden_act`. */
  lemma LastFieldIsSuffix(s: string)
    ensures LastFieldOf(s, Last(SplitOn(s, '-')), '-')
  {
    JoinSplit(s, '-');
    JoinEndsWithLast(SplitOn(s, '-'), '-');
  }

  /** `hidden_act`: with experts, the text after the last `-` of the
      activation name (which must then be a string); otherwise the library's
      non-gated form of the activation. */
  function HiddenAct(cfg: NemoConfig, lib: Library): (r: Result<Value>)
    ensures Truthy(GetOr(cfg, "num_moe_experts", IntV(0))) ==>
              (r.Ok? <==> Get(cfg, "activation").StrV?)
              && (r.Ok? ==> r.value.StrV? && LastFieldOf(Get(cfg, "activation").s, r.value.s, '-'))
    ensures !Truthy(GetOr(cfg, "num_moe_experts", IntV(0))) ==>
              r == Ok(lib.nonGatedVersion(Get(cfg, "activation")))
  {
    var act := Get(cfg, "activation");
    if Truthy(GetOr(cfg, "num_moe_experts", IntV(0))) then
      if act.StrV? then
        LastFieldIsSuffix(act.s);
        Ok(StrV(Last(SplitOn(act.s, '-'))))
      else Err(NotAString)
    else Ok(lib.nonGatedVersion(act))
  }

  /** The source position embedding kind collapsed to TensorRT-LLM's two. */
  function PositionEmbeddingType(cfg: NemoConfig): (t: string)
    ensures t == "rope_gpt_neox" || t == "learned_absolute"
    ensures t == "rope_gpt_neox" <==> Get(cfg, "position_embedding_type") == StrV("rope")
  {
    if Get(cfg, "position_embedding_type") == StrV("rope") then "rope_gpt_neox" else "learned_absolute"
  }

  /** Whether config synthesis returns rather than raises. */
  predicate SynthesisSucceeds(cfg: NemoConfig, decoderType: string, lib: Library)
  {
    && HiddenAct(cfg, lib).Ok?
    && decoderType in DecoderModelType
    && "num_attention_heads" in cfg
    && (Get(cfg, "seq_len_interpolation_factor") != Null ==>
          ToFloat(Get(cfg, "seq_len_interpolation_factor")).Ok?)
  }

  /** The `config` dict of `model_to_trtllm_ckpt`, including the keys added
      after it is built: the Falcon flags and the rotary scaling. */
  function SynthesizeConfig(cfg: NemoConfig, decoderType: string, dtype: string,
                            tp: int, pp: int, useParallelEmbedding: bool,
                            vocabSizePadded: int, lib: Library): (r: Result<ModelConfig>)
    ensures r.Ok? <==> SynthesisSucceeds(cfg, decoderType, lib)
    ensures decoderType !in DecoderModelType ==> r.Err?
    ensures r.Ok? ==>
              var c := r.value;
              && c.architecture == DecoderModelType[decoderType]
              && c.vocabSize == vocabSizePadded
              && c.worldSize == tp * pp && c.tpSize == tp && c.ppSize == pp
              && c.numKeyValueHeads == GetOr(cfg, "num_query_groups", cfg["num_attention_heads"])
              && c.quantization == Quantization(None, None)
              && Ok(c.hiddenAct) == HiddenAct(cfg, lib)
              && c.useParallelEmbedding == useParallelEmbedding
              && c.mapping.None?
    ensures r.Ok? ==>
              && r.value.positionEmbeddingType == PositionEmbeddingType(cfg)
              && (r.value.positionEmbeddingType == "rope_gpt_neox" <==>
                    Get(cfg, "position_embedding_type") == StrV("rope"))
              && (r.value.newDecoderArchitecture.Some? <==> decoderType == "falcon")
              && (r.value.parallelAttention.Some? <==> decoderType == "falcon")
              && (decoderType == "falcon" ==>
                    && r.value.newDecoderArchitecture == Some(!EqualsInt(Get(cfg, "num_layers"), 32))
                    && r.value.parallelAttention == Some(true))
              && (r.value.rotaryScaling.Some? <==> Get(cfg, "seq_len_interpolation_factor") != Null)
              && (r.value.rotaryScaling.Some? ==>
                    r.value.rotaryScaling.value.kind == "linear"
                    && Ok(r.value.rotaryScaling.value.factor) == ToFloat(Get(cfg, "seq_len_interpolation_factor")))
  {
    match HiddenAct(cfg, lib)
    case Err(e) => Err(e)
    case Ok(hiddenAct) =>
      if decoderType !in DecoderModelType then Err(KeyMissing(decoderType))
      else if "num_attention_heads" !in cfg then Err(KeyMissing("num_attention_heads"))
      else
        var config := ModelConfig(
          architecture := DecoderModelType[decoderType],
          dtype := dtype,
          numHiddenLayers := Get(cfg, "num_layers"),
          numAttentionHeads := Get(cfg, "num_attention_heads"),
          numKeyValueHeads := GetOr(cfg, "num_query_groups", cfg["num_attention_heads"]),
          headSize := Get(cfg, "kv_channels"),
          hiddenSize := Get(cfg, "hidden_size"),
          intermediateSize := Get(cfg, "ffn_hidden_size"),
          normEpsilon := Get(cfg, "layernorm_epsilon"),
          vocabSize := vocabSizePadded,
          positionEmbeddingType := PositionEmbeddingType(cfg),
          maxPositionEmbeddings := Get(cfg, "max_position_embeddings"),
          hiddenAct := hiddenAct,
          useParallelEmbedding := useParallelEmbedding,
          embeddingShardingDim := 0,
          shareEmbeddingTable := false,
          quantization := Quantization(None, None),
          bias := Get(cfg, "bias"),
          applyQueryKeyLayerScaling := false,
          rotaryPct := GetOr(cfg, "rotary_percentage", RealV(1.0)),
          rotaryBase := GetOr(cfg, "rotary_base", IntV(10000)),
          moeNumExperts := GetOr(cfg, "num_moe_experts", IntV(0)),
          moeTopK := Get(cfg, "moe_router_topk"),
          moeNormalizationMode := GetOr(cfg, "moe_renorm_mode", lib.moeRenormalize),
          moeTpMode := GetOr(cfg, "moe_tp_mode", lib.moeTensorParallel),
          logitsDtype := "float32",
          worldSize := tp * pp,
          tpSize := tp,
          ppSize := pp,
          newDecoderArchitecture := None,
          parallelAttention := None,
          rotaryScaling := None,
          mapping := None);
        var numLayers := Get(cfg, "num_layers");
        var rotaryScaling := Get(cfg, "seq_len_interpolation_factor");
        var config :=
          if decoderType == "falcon" then
            config.(newDecoderArchitecture := Some(if EqualsInt(numLayers, 32) then false else true),
                    parallelAttention := Some(true))
          else config;
        if rotaryScaling != Null then
          match ToFloat(rotaryScaling)
          case Err(e) => Err(e)
          case Ok(factor) => Ok(config.(rotaryScaling := Some(RotaryScaling("linear", factor))))
        else Ok(config)
  }
}
