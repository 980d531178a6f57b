# NeMo to TensorRT-LLM checkpoint resharding, modelled in Dafny

This project models the core of `nemo/export/trt_llm/nemo_utils.py`: the
code that turns a NeMo language model's weights into TensorRT-LLM checkpoints.
It covers four pieces:

* **`split`.** It picks one tensor-parallel slice of a numpy array. The model
  includes the `np.split` semantics it relies on: axis normalisation, the
  equal-division error, and negative block indices.
* **`to_word_list_format`.** It encodes the stop and bad word lists of a batch
  as one `(batch, 2, pad_to)` integer array. The first row of each item holds
  the token ids. The second holds the cumulative word ends.
* **`model_to_trtllm_ckpt`.** This covers everything after the checkpoint
  conversion:
  * the lookup of the embedding and `lm_head` weights;
  * padding `lm_head` up to the padded vocabulary;
  * building the `PretrainedConfig` dict, including the Falcon flags and the
    rotary scaling;
  * the per-rank loop over the `tp_size * pp_size` world. Each rank skips
    the five embedding, head and final-norm names, and rewrites every other
    weight name (dropping its own `.{tp_rank}.bin` suffix, renumbering
    its stage's layers, and renaming Falcon's `post_layernorm`). It then
    attaches the embedding shards on the first pipeline stage, and the
    `lm_head` shard and final norm on the last stage.
* **The `DECODER_MODEL_TYPE` table.** It maps decoder names to TensorRT-LLM
  architecture names.

The modules follow the source:

* `Tensors` (`tensors.dfy`): numpy arrays of rank 1 and 2, `np.split`, `split`,
  `np.concatenate` and `np.pad`.
* `Text` (`text.dfy`): the Python `str` operations the key rewriting uses.
* `WordList` (`word_list.dfy`): `to_word_list_format`.
* `CkptConfig` (`ckpt_config.dfy`): the config dict, the architecture table,
  and the library calls the function makes.
* `KeyRewrite` (`key_rewrite.dfy`): the renaming of one weight key.
* `Reshard` (`reshard.dfy`): the body of `model_to_trtllm_ckpt`.
* `Results` (`results.dfy`): the error values. Each Python exception the
  modelled code can raise is an `Err`. The contracts of the operations that
  can fail say exactly when they fail. The exceptions that come from the
  left-out input handling are listed under "Left out".

The converted checkpoint `weights_dict` is an ordered sequence of
(name, tensor) pairs, because the rank loop depends on iteration order.
Each rank's `weights_dict_local` is a map built by last-write-wins insertion,
like a Python dict.

The per-rank rewriting copies every key that none of its steps applies to:

* a key of another tensor-parallel rank keeps its `.{r}.bin` suffix;
* a layer outside the rank's pipeline stage keeps its global number.

So every rank's dict also holds the other tensor-parallel ranks' `.{r}.bin`
slices and the other stages' layers under their global names. The model keeps
that behaviour (`KeyRewrite.KeepForeignLayer`, `KeyRewrite.RewriteKey`).

## Model

| member | source | states |
|---|---|---|
| Tensors.NormalizeIndex | nemo/export/trt_llm/nemo_utils.py:94-96 | a list index or numpy axis is valid iff `-len <= idx < len`, and a negative one counts from the end |
| Tensors.NpSplit | nemo/export/trt_llm/nemo_utils.py:94-96 | `np.split` succeeds iff the axis exists, the section count is positive and divides the axis length; it then yields exactly that many blocks |
| Tensors.Split | nemo/export/trt_llm/nemo_utils.py:89-96 | `tp_size == 1` returns the array unchanged whatever `idx` and `dim` are; otherwise the result exists iff the split is defined, and the block has the input's rank, `1/tp_size` of the split axis and the full length of the other axis |
| Tensors.SplitIsBlock | nemo/export/trt_llm/nemo_utils.py:93-96 | the result of `split` is the block that `idx`, read as a Python index, selects along the normalised axis |
| Tensors.VecBlockAt | nemo/export/trt_llm/nemo_utils.py:93-94 | element `j` of block `k` of a vector is element `k*b + j` of the vector, where `b` is the block length |
| Tensors.RowBlockAt | nemo/export/trt_llm/nemo_utils.py:95-96 | row `i` of block `k` along axis 0 is row `k*b + i` of the matrix |
| Tensors.ColumnBlockAt | nemo/export/trt_llm/nemo_utils.py:95-96 | entry `(i, j)` of block `k` along axis 1 is entry `(i, k*b + j)` of the matrix |
| Tensors.FlattenChunks | nemo/export/trt_llm/nemo_utils.py:94 | concatenating the equal chunks of a sequence gives the sequence back |
| Tensors.SplitConcatenate | nemo/export/trt_llm/nemo_utils.py:89-96 | when the axis divides evenly, every rank's `split` is defined and concatenating the `tp_size` slices along the split axis restores the tensor |
| Tensors.PadRows | nemo/export/trt_llm/nemo_utils.py:189 | `np.pad` of rows succeeds iff the input is a matrix and the pad is non-negative; it keeps the width and the original rows and appends exactly `count` rows of the constant |
| Text.ReplaceAbsent | nemo/export/trt_llm/nemo_utils.py:267 | `str.replace` of a pattern that does not occur returns the string unchanged |
| Text.ReplaceOnce | nemo/export/trt_llm/nemo_utils.py:271 | `str.replace` substitutes the single occurrence its left-to-right scan meets |
| Text.JoinSplit | nemo/export/trt_llm/nemo_utils.py:269 | joining the parts of `str.split(sep)` with `sep` gives the string back |
| Text.SplitOnField | nemo/export/trt_llm/nemo_utils.py:269 | a separator-free field followed by the separator is the first part of `split`, and the rest splits as before |
| Text.ParseIntStr | nemo/export/trt_llm/nemo_utils.py:269-271 | `int(str(n)) == n` for every integer, negative ones included |
| WordList.WordIdsSplit | nemo/export/trt_llm/nemo_utils.py:130-138 | when the encoding of reference plus word starts with the reference's ids, the word's ids are the rest of it; otherwise they are the word's own encoding |
| WordList.ItemCounts | nemo/export/trt_llm/nemo_utils.py:140-144 | only words with at least one token get a count, so every count is positive and there are at most as many counts as words |
| WordList.CountsAtMostIds | nemo/export/trt_llm/nemo_utils.py:140-144 | the per-word counts sum to the number of ids of the item, and there are no more counts than ids |
| WordList.CumSumIncreasing | nemo/export/trt_llm/nemo_utils.py:147 | the running sums of positive counts strictly increase |
| WordList.ItemOffsetsLayout | nemo/export/trt_llm/nemo_utils.py:140-147 | an item's offsets strictly increase, the last equals its number of ids, and there are at most as many offsets as ids |
| WordList.MaxLen | nemo/export/trt_llm/nemo_utils.py:149 | the maximum length bounds every item's ids and is reached by one of them |
| WordList.Pad | nemo/export/trt_llm/nemo_utils.py:152-153 | padding keeps the sequence as a prefix, reaches exactly the width, and fills the rest with the constant |
| WordList.PadWidth | nemo/export/trt_llm/nemo_utils.py:149 | `pad_to` is at least 1 |
| WordList.ItemsFitWidth | nemo/export/trt_llm/nemo_utils.py:149-153 | every item's ids and offsets fit in `pad_to`, so neither `np.pad` width is negative |
| WordList.EncodeItem | nemo/export/trt_llm/nemo_utils.py:129-144 | the loop over one item's words collects the concatenated ids of its words and the counts of the words that produced tokens |
| WordList.EncodeBatch | nemo/export/trt_llm/nemo_utils.py:121-147 | the loop over the batch yields each item's ids and the cumulative sums of its counts, in batch order |
| WordList.Longest | nemo/export/trt_llm/nemo_utils.py:149 | the loop finds the length of the longest item |
| WordList.PadAll | nemo/export/trt_llm/nemo_utils.py:151-153 | after the loop, every item's ids are padded with 0 and its offsets with -1 to the common width, and nothing else changes |
| WordList.ToWordListFormat | nemo/export/trt_llm/nemo_utils.py:100-155 | an empty batch raises; otherwise item `b` of the result is `[its ids padded with 0, its offsets padded with -1]`, both `pad_to` long, and its ids and offsets fit in `pad_to` |
| CkptConfig.MakeMapping | nemo/export/trt_llm/nemo_utils.py:255-257 | the mapping records the world size, rank, tensor- and pipeline-parallel sizes it was built with |
| CkptConfig.JoinEndsWithLast | nemo/export/trt_llm/nemo_utils.py:193 | a string joined from parts ends with its last part; that part is the whole string when it is the only part, and otherwise a separator precedes it |
| CkptConfig.LastFieldIsSuffix | nemo/export/trt_llm/nemo_utils.py:193 | `s.split("-")[-1]` is the text after the last `-` of `s`: a dash-free suffix that is either all of `s` or preceded by `-` |
| CkptConfig.HiddenAct | nemo/export/trt_llm/nemo_utils.py:191-194 | with experts, `hidden_act` exists iff the activation is a string, and is then the text after its last `-` (all of it when there is no `-`); without experts, it is the library's non-gated version of the activation |
| CkptConfig.PositionEmbeddingType | nemo/export/trt_llm/nemo_utils.py:207-209 | the type is `rope_gpt_neox` exactly when the source type is `rope`, and `learned_absolute` otherwise |
| CkptConfig.SynthesizeConfig | nemo/export/trt_llm/nemo_utils.py:191-244 | see the list after this table |
| KeyRewrite.StripTpSuffix | nemo/export/trt_llm/nemo_utils.py:265-267 | a key not ending in `{tp_rank}.bin` is left unchanged |
| KeyRewrite.StripOwnSuffix | nemo/export/trt_llm/nemo_utils.py:265-267 | the key `a.{tp_rank}.bin` of this rank is stored as `a`, when `.{tp_rank}.bin` occurs only at its end (`replace` removes every occurrence) |
| KeyRewrite.LayerKeyParses | nemo/export/trt_llm/nemo_utils.py:268-269 | a key `p.layers.{n}...` contains `layers`, has at least three fields, and its third field parses as `n` |
| KeyRewrite.RenumberOwnedLayer | nemo/export/trt_llm/nemo_utils.py:268-271 | a weight `p.layers.{n}<tail>` (dot-free `p`, `tail` empty or starting with `.`) of a layer `n` in the stage's range is renamed to layer `n - layers_range[0]`, and the rest of the key is kept, when `layers.{n}` occurs only at that field (`replace` rewrites every occurrence) |
| KeyRewrite.KeepForeignLayer | nemo/export/trt_llm/nemo_utils.py:268-271 | a weight of a layer outside the stage's range keeps its global name |
| KeyRewrite.RenameFalcon | nemo/export/trt_llm/nemo_utils.py:272-273 | without the new decoder architecture, no key is renamed |
| KeyRewrite.FalconRename | nemo/export/trt_llm/nemo_utils.py:272-273 | with the new architecture, `a post_layernorm b` becomes `a mlp_layernorm b`, when `post_layernorm` occurs only there (`replace` rewrites every occurrence) |
| KeyRewrite.RenumberLayer | nemo/export/trt_llm/nemo_utils.py:268-271 | the renumbering raises exactly when the key contains `layers` and its third dot field is missing or not an integer; a key without `layers` is kept |
| KeyRewrite.RewriteKey | nemo/export/trt_llm/nemo_utils.py:264-273 | a key none of the three steps applies to is kept as it is; rewriting fails exactly when the suffix-stripped key contains `layers` and its third dot field is missing or not an integer |
| Reshard.Lookup | nemo/export/trt_llm/nemo_utils.py:287 | `dict.get` finds nothing iff no entry has the key; a found tensor is stored under the key |
| Reshard.GenericPassOk | nemo/export/trt_llm/nemo_utils.py:260-274 | the key loop completes iff every non-stage key can be rewritten |
| Reshard.GenericPassPrefixErr | nemo/export/trt_llm/nemo_utils.py:260-274 | once a key fails, the whole loop fails with that error; later keys do not matter |
| Reshard.GenericPassKeys | nemo/export/trt_llm/nemo_utils.py:260-274 | a key is in the rank's dict iff some non-stage entry rewrites to it |
| Reshard.GenericPassLastWins | nemo/export/trt_llm/nemo_utils.py:274 | when several entries rewrite to one key, the dict holds the tensor of the last of them |
| Reshard.RewriteAll | nemo/export/trt_llm/nemo_utils.py:260-274 | the loop over `weights_dict` builds exactly the key-loop dict or its first error |
| Reshard.EmbeddingShard | nemo/export/trt_llm/nemo_utils.py:277-283 | with parallel embedding the shard is the rank's `split` along axis 0; without it, it is the whole table |
| Reshard.AttachFirstStage | nemo/export/trt_llm/nemo_utils.py:276-293 | see the list after this table |
| Reshard.AttachLastStage | nemo/export/trt_llm/nemo_utils.py:295-303 | see the list after this table |
| Reshard.StageKeys | nemo/export/trt_llm/nemo_utils.py:276-303 | the keys the first and last stages store are among the five keys the key loop skips |
| Reshard.RankWeights | nemo/export/trt_llm/nemo_utils.py:260-303 | a rank's dict exists iff every key can be rewritten and the first-stage and last-stage steps succeed |
| Reshard.RankAgreesWithGenericPass | nemo/export/trt_llm/nemo_utils.py:260-303 | a rank's dict equals the key-loop dict except on the stage keys it attaches |
| Reshard.RankWeightsGenericKeys | nemo/export/trt_llm/nemo_utils.py:260-274 | a key outside the five skipped keys is in the rank's dict iff some entry rewrites to it, and it then holds the last such entry's tensor |
| Reshard.RankWeightsStageKeys | nemo/export/trt_llm/nemo_utils.py:276-303 | see the list after this table |
| Reshard.PadLmHead | nemo/export/trt_llm/nemo_utils.py:184-189 | see the list after this table |
| Reshard.Prepare | nemo/export/trt_llm/nemo_utils.py:180-244 | the shared steps succeed iff both lookups, the padding and the config synthesis succeed; the padded head and the config are exactly theirs, and the config's vocabulary is the padded size |
| Reshard.LmHeadShardDefined | nemo/export/trt_llm/nemo_utils.py:182-189 | see the list after this table |
| Reshard.RankMapping | nemo/export/trt_llm/nemo_utils.py:255-257 | rank `i`'s mapping has rank `i`, world size `tp * pp`, and the given parallel sizes |
| Reshard.RankContext | nemo/export/trt_llm/nemo_utils.py:258-272 | a rank's rewriting uses its mapping's tensor-parallel rank and the layer range `mapping.pp_layers(num_layers)`, and Falcon renaming is on exactly when the config sets the new decoder architecture |
| Reshard.RankConfig | nemo/export/trt_llm/nemo_utils.py:305-306 | each rank's config carries that rank's mapping and equals the shared config in every other field |
| Reshard.RankConfigIsSynthesized | nemo/export/trt_llm/nemo_utils.py:196-306 | when the shared steps succeed, rank `i`'s config is the synthesised config with rank `i`'s mapping attached |
| Reshard.BuildRankWeights | nemo/export/trt_llm/nemo_utils.py:260-303 | one iteration of the rank loop builds exactly the rank's dict, or its error |
| Reshard.BuildRank | nemo/export/trt_llm/nemo_utils.py:255-306 | builds rank `i`'s dict and its config with the mapping attached |
| Reshard.BuildAllRanks | nemo/export/trt_llm/nemo_utils.py:254-310 | the loop succeeds iff every rank does; the outputs then have one entry per rank in rank order, and entry `i` is rank `i`'s dict and config |
| Reshard.ModelToTrtllmCkpt | nemo/export/trt_llm/nemo_utils.py:158-310 | the function returns iff the shared steps and every rank succeed; it then returns `tp * pp` weight dicts and configs, and entry `i` is rank `i`'s dict and config |

What some rows state, in full:

* **CkptConfig.SynthesizeConfig**
  * The config exists iff the activation step succeeds, the decoder type is in
    `DECODER_MODEL_TYPE`, `num_attention_heads` is present, and any
    interpolation factor is a float.
  * It then has:
    * the table's architecture;
    * the padded vocabulary;
    * the world, tensor-parallel and pipeline-parallel sizes;
    * `num_query_groups`, falling back to the head count;
    * `hidden_act` from the activation step, and `use_parallel_embedding` as
      passed in;
    * no quantization and no mapping;
    * `position_embedding_type` from the position step: `rope_gpt_neox` for a
      `rope` source type and `learned_absolute` for any other.
  * The Falcon flags are present exactly for Falcon, and
    `new_decoder_architecture` is set unless there are 32 layers.
  * The rotary scaling is present exactly when a factor is given, and is then
    linear with that factor.
* **Reshard.AttachFirstStage**
  * Only the first stage changes the dict.
  * It succeeds iff the embedding exists and its shards are defined.
  * It stores the embedding shard, plus the position-embedding shard when that
    weight exists, and leaves every other key alone.
* **Reshard.AttachLastStage**
  * Only the last stage changes the dict.
  * It succeeds iff the `lm_head` shard is defined and `transformer.ln_f.weight`
    exists. A missing norm weight raises `KeyError`.
  * It stores the shard, the norm weight, and the norm bias when present, and
    leaves every other key alone.
* **Reshard.RankWeightsStageKeys**
  * On the first stage the dict holds the embedding shard. On other stages the
    embedding key is present only if some entry rewrites to it.
  * On the last stage the dict holds the rank's `lm_head` slice. On other
    stages the `lm_head` key is present only if some entry rewrites to it.
* **Reshard.PadLmHead**
  * No padding is needed when the padded size equals the vocabulary. Otherwise
    the padding succeeds iff the head is a matrix and the padded size is larger.
  * The result keeps the width and the original rows, and adds zero rows up to
    the padded vocabulary.
* **Reshard.LmHeadShardDefined**
  * Suppose the padded vocabulary is a multiple of `tp_size` and at least the
    vocabulary. Suppose also that `lm_head` has as many rows as the embedding
    has tokens, because the padding width is computed from the embedding.
  * Then padding succeeds, and every rank's `lm_head` slice exists with
    `padded / tp_size` rows.

## Left out

- `convert_model_trt_llm_ckpt` is not part of this model. Its output, the
  ordered `weights_dict`, is a parameter of `Reshard.ModelToTrtllmCkpt`, and so
  are the NeMo config and the decoder type. The `model` and `nemo_export_dir`
  arguments are only passed through to it.
- The tokenizer is the function parameter `encode`, and `tokenizer is not None`
  is therefore not modelled. Each batch item arrives already split at the
  commas, so `csv.reader`, its quoting rules and `bytes.decode` are not
  modelled.
- `logging.warning` and the other log output are left out, because they do not
  affect any result.
- `tensorrt_llm` library calls are fields of `CkptConfig.Library` and are not
  interpreted. These are `pad_vocab_size`, `non_gated_version`,
  `Mapping.tp_rank`, `is_first_pp_rank`, `is_last_pp_rank`, `pp_layers` and the
  `MoeConfig` defaults. `Reshard.LmHeadShardDefined` takes the padding
  function's promise as a hypothesis: a multiple of `tp_size` that is at least
  the vocabulary size.
- `PretrainedConfig(**config)` is modelled as the record `CkptConfig.ModelConfig`.
  Its own validation is not modelled.
- `np.ascontiguousarray` only changes the memory layout, and the `int32` and
  `float32` dtypes only change the representation. Tensors are sequences of
  reals (ids are integers), so none of these is modelled.
- Tensors of rank 3 or more are left out. The `split` calls in this code only
  receive embedding tables and `lm_head` matrices.
- `float()` of a string is not modelled: `ToFloat` raises on strings.
- `int()` of strings with surrounding whitespace or `_` separators is not
  modelled. `ParseInt` accepts an optional `-` or `+` sign followed by ASCII
  digits.
- The `IndexError` of an empty batch item is not modelled. `nemo_utils.py:125`
  and `nemo_utils.py:128` index `word_dict_item[0]` and the first row
  `csv.reader` returns. Items arrive already split into words, so an empty item
  is an empty word list.
- The output weight dicts are maps, so their key order is not modelled. The
  order of the input `weights_dict` is kept, because last-write-wins depends
  on it.
- The input arrays are shared between the input dict and the output dicts
  (aliasing). The model has value semantics, which is equivalent because
  nothing here mutates an array.
- Tensors.Split: the contract states the block's shape and
  `Tensors.SplitIsBlock` states its contents. The contiguous copy that
  `np.ascontiguousarray` makes has the same shape and values, so it is not a
  separate step.
- CkptConfig.SynthesizeConfig: the contract does not repeat the fields that are
  plain copies of config values. These are `dtype`, the layer and head counts,
  `kv_channels`, `hidden_size`, `ffn_hidden_size`, `layernorm_epsilon`,
  `max_position_embeddings`, `bias`, the rotary and MoE settings, and the fixed
  flags.
