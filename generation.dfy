/** `generate_answer` of inference.py: the token budget, left-truncation of
    the tokenized prompt and extraction of the newly generated text from the
    decoded output. The tokenizer, `decode` and the model's `generate` are
    opaque functions carried in the `Tokenizer` and `Model` values. */
module Generation {
  import opened PyStr

  /** The sampling parameters `generate_answer` passes to `generate`. */
  datatype GenerationConfig = GenerationConfig(
    maxNewTokens: nat,
    temperature: real,
    topK: nat,
    topP: real,
    doSample: bool,
    numBeams: nat,
    repetitionPenalty: real)

  /** The fixed configuration built on every call. */
  const SourceConfig := GenerationConfig(400, 0.2, 40, 0.9, true, 1, 1.3)

  /** Tokens held back for special tokens when sizing the prompt. */
  const SafetyMargin := 8

  /** The `context_len` default of `generate_answer`; no caller overrides it. */
  const DefaultContextLen := 2048

  /** `tokenizer(prompt).input_ids`, `tokenizer.decode(ids,
      skip_special_tokens=False)` and `tokenizer.eos_token`. */
  datatype Tokenizer = Tokenizer(
    encode: string -> seq<int>,
    decode: seq<int> -> string,
    eosToken: string)

  /** `model.generate(input_ids=..., **config)[0]`. The `nat` is the position
      of the call within the run; it stands for the sampler's random state,
      so equal prompts may yield different outputs. */
  datatype Model = Model(generate: (seq<int>, GenerationConfig, nat) -> seq<int>)

  /** `max_src_len = context_len - max_new_tokens - 8`, with no check that the
      result is positive. */
  function MaxSrcLen(contextLen: int): (m: int)
    ensures m + SourceConfig.maxNewTokens + SafetyMargin == contextLen
  {
    contextLen - SourceConfig.maxNewTokens - SafetyMargin
  }

  lemma SourceBudget(contextLen: int)
    ensures MaxSrcLen(contextLen) == contextLen - 408
    ensures MaxSrcLen(DefaultContextLen) == 1640
  {
  }

  /** `input_ids[-max_src_len:]`: keep the most recent `maxSrcLen` tokens.
      A zero budget keeps everything (`ids[-0:] == ids[0:]`) and a negative
      one drops a prefix of `-maxSrcLen` tokens. */
  function Truncate(ids: seq<int>, maxSrcLen: int): (r: seq<int>)
    ensures maxSrcLen > 0 ==> |r| == Min(|ids|, maxSrcLen) && r == ids[|ids| - |r|..]
    ensures |ids| <= maxSrcLen ==> r == ids
    ensures maxSrcLen == 0 ==> r == ids
    ensures maxSrcLen < 0 ==> r == ids[Min(-maxSrcLen, |ids|)..]
  {
    SliceFrom(ids, -maxSrcLen)
  }

  /** The token ids actually sent to the model for `prompt`. */
  function BoundedIds(tok: Tokenizer, prompt: string, contextLen: int): seq<int> {
    Truncate(tok.encode(prompt), MaxSrcLen(contextLen))
  }

  /** With the default context length the model sees the last
      `min(n, 1640)` tokens of the prompt's `n` tokens. */
  lemma DefaultBound(tok: Tokenizer, prompt: string)
    ensures var ids := tok.encode(prompt);
            var r := BoundedIds(tok, prompt, DefaultContextLen);
            |r| == Min(|ids|, 1640) && r == ids[|ids| - |r|..]
  {
    SourceBudget(DefaultContextLen);
  }

  /** The text after the decoded prompt (`output[l_prompt:pos]` or
      `output[l_prompt:]`), cut at the LAST end marker that starts at or
      after `lPrompt`. */
  function Continuation(output: string, eos: string, lPrompt: nat): (r: string)
    ensures r <= SliceFrom(output, lPrompt)
    ensures RFind(output, eos, lPrompt) != -1 ==>
              r + eos == output[lPrompt..RFind(output, eos, lPrompt) + |eos|]
    ensures RFind(output, eos, lPrompt) == -1 ==> r == SliceFrom(output, lPrompt)
  {
    var pos := RFind(output, eos, lPrompt);
    if pos != -1 then Slice(output, lPrompt, pos) else SliceFrom(output, lPrompt)
  }

  /** When an end marker starts at `pos >= lPrompt` and none starts later,
      the reply is exactly the text between the prompt and `pos`. */
  lemma ContinuationAtLastMarker(output: string, eos: string, lPrompt: nat, pos: nat)
    requires lPrompt <= pos && OccursAt(output, eos, pos)
    requires forall j :: pos < j ==> !OccursAt(output, eos, j)
    ensures Continuation(output, eos, lPrompt) == output[lPrompt..pos]
  {
    var p := RFind(output, eos, lPrompt);
    assert p != -1;
    assert p == pos;
  }

  /** Without an end marker after the prompt the reply is everything after
      the prompt, which is empty when the prompt covers the whole output. */
  lemma ContinuationWithoutMarker(output: string, eos: string, lPrompt: nat)
    requires forall j :: lPrompt <= j ==> !OccursAt(output, eos, j)
    ensures Continuation(output, eos, lPrompt)
              == if lPrompt <= |output| then output[lPrompt..] else []
  {
  }

  /** Round trip: a reply followed by the end marker is recovered exactly,
      even when the reply itself contains the marker. */
  lemma ContinuationRoundTrip(prompt: string, reply: string, eos: string)
    ensures Continuation(prompt + reply + eos, eos, |prompt|) == reply
  {
    var output := prompt + reply + eos;
    var pos := |prompt| + |reply|;
    assert output[pos..pos + |eos|] == eos;
    assert forall j :: pos < j ==> !OccursAt(output, eos, j);
    ContinuationAtLastMarker(output, eos, |prompt|, pos);
    assert output[|prompt|..pos] == reply;
  }

  /** Round trip without a marker: the reply is everything after the prompt. */
  lemma ContinuationRoundTripUnmarked(prompt: string, reply: string, eos: string)
    requires forall j :: |prompt| <= j ==> !OccursAt(prompt + reply, eos, j)
    ensures Continuation(prompt + reply, eos, |prompt|) == reply
  {
    ContinuationWithoutMarker(prompt + reply, eos, |prompt|);
    assert (prompt + reply)[|prompt|..] == reply;
  }

  /** The decoded output of the model for the bounded prompt. */
  function DecodedOutput(tok: Tokenizer, model: Model, prompt: string, contextLen: int, sample: nat): string {
    tok.decode(model.generate(BoundedIds(tok, prompt, contextLen), SourceConfig, sample))
  }

  /** `len(tokenizer.decode(input_ids))` for the bounded ids. */
  function PromptLength(tok: Tokenizer, prompt: string, contextLen: int): nat {
    |tok.decode(BoundedIds(tok, prompt, contextLen))|
  }

  /** `generate_answer(model, tokenizer, prompt, device, context_len)`: the
      answer is a prefix of what the decoded output holds after the decoded
      prompt. */
  function GenerateAnswer(tok: Tokenizer, model: Model, prompt: string, contextLen: int, sample: nat): (answer: string)
    ensures answer <= SliceFrom(DecodedOutput(tok, model, prompt, contextLen, sample),
                                PromptLength(tok, prompt, contextLen))
  {
    var ids := BoundedIds(tok, prompt, contextLen);
    var output := tok.decode(model.generate(ids, SourceConfig, sample));
    var lPrompt := |tok.decode(ids)|;
    Continuation(output, tok.eosToken, lPrompt)
  }

  /** End to end: when the model's decoded output is the decoded bounded
      prompt, a reply and the end marker, `generate_answer` returns the reply. */
  lemma GenerateAnswerRoundTrip(tok: Tokenizer, model: Model, prompt: string, contextLen: int, sample: nat, reply: string)
    requires var ids := BoundedIds(tok, prompt, contextLen);
             tok.decode(model.generate(ids, SourceConfig, sample)) == tok.decode(ids) + reply + tok.eosToken
    ensures GenerateAnswer(tok, model, prompt, contextLen, sample) == reply
  {
    var ids := BoundedIds(tok, prompt, contextLen);
    ContinuationRoundTrip(tok.decode(ids), reply, tok.eosToken);
  }

  /** `generate_answer(model, tokenizer, prompt, device)` as `main` calls it,
      with the model and tokenizer fixed: from the prompt and the call's
      position in the run to the answer text. */
  type Answerer = (string, nat) -> string

  function SourceAnswerer(tok: Tokenizer, model: Model): Answerer {
    (prompt: string, sample: nat) => GenerateAnswer(tok, model, prompt, DefaultContextLen, sample)
  }
}
