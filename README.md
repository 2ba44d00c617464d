# inference.py — a verified model of answer extraction and the chat loops

`inference.py` loads a causal language model and a tokenizer, then either
chats with the user interactively or runs a batch of prompts and collects
the answers. This project models the parts of it that are exact logic rather
than plumbing:

- **`generate_answer`**, in `generation.dfy` (module `Generation`). It
  computes the token budget `max_src_len = context_len - 400 - 8`. It
  left-truncates the tokenized prompt with `input_ids[-max_src_len:]`. Then
  it takes the text the model added after the decoded prompt, cut at the
  *last* end-of-sequence marker found with `str.rfind(eos, l_prompt)`.
- **The Python built-ins** it relies on, in `pystr.dfy` (module `PyStr`):
  slicing with negative and out-of-range bounds, `str.rfind` with a start
  index, and `str.strip()` with CPython's whitespace set.
- **The conversation object** returned by `get_conv_template`, in
  `conversation.dfy` (module `ConvTemplate`). It is a class with a
  `messages` field that the loops update in place: `append_message` appends
  and `conv.messages[-1][-1] = ...` overwrites the last content.
- **The two loops of `main`**, in `session.dfy` (module `Session`).
  - The interactive `while True` loop stops on an empty line or end of
    input. Otherwise it appends the input and an empty placeholder, renders
    the prompt, generates, and overwrites the placeholder with the stripped
    answer.
  - The batch `for` loop builds a fresh conversation per example and
    appends one `{Input, Output}` record per example.

The tokenizer, `decode`, the end marker and `model.generate` are opaque
functions carried in the `Tokenizer` and `Model` values. The model's
sampling is random, so `generate` also receives the index of the call within
the run; that index stands for the random state. The loops are proved
against the spec functions `Chat` and `Predict`, which take the answer
function as a parameter (`Answerer`); `SourceAnswerer` instantiates it with
`GenerateAnswer` and the default context length of 2048. `Chat` only
computes: what it promises is stated by the lemmas `ChatStep`,
`ChatExtends`, `ChatTurnAt`, `ChatStopsAtEmpty`, `ChatPrefix` and
`RepliesStripped`.

Where the code does something other than what its design evidently intends,
the model follows the code:
- A non-positive `max_src_len` is not rejected. `ids[-0:]` keeps every token,
  and a negative budget drops a prefix.
- Blank lines of the data file are kept, as empty examples.
- The batch `Output` is the unstripped answer.

## Model

| member | source | states |
|---|---|---|
| PyStr.ClampIndex | inference.py:59 | A slice bound is clamped into `0..n`: a bound inside the range is kept, one past the end becomes `n`, and a negative one counts from the end, clamped at 0. |
| PyStr.Slice | inference.py:70 | `s[start:stop]` is the Dafny slice when `0 <= start <= stop <= len(s)`, is empty when `0 <= stop <= start`, and is never longer than `s`. |
| PyStr.SliceFrom | inference.py:72 | `s[start:]` is `s[start..]` in range and empty past the end. A negative start keeps the last `min(-start, len(s))` elements. |
| PyStr.LastOccurrence | inference.py:68 | Returns -1 exactly when `sub` starts nowhere in `lo..hi`. Otherwise it returns an index in `lo..hi` where `sub` starts, and no later index in `lo..hi` has one. |
| PyStr.RFind | inference.py:68 | `s.rfind(sub, start)` is -1 if and only if `sub` starts at no index `>= start`. Otherwise it is an index `>= start` where `sub` starts, and `sub` starts at no greater index. |
| PyStr.Strip | inference.py:159 | `strip()` never lengthens its input. With StripIsStripped and StripKeepsMiddle its result is determined: the contiguous middle `s[i..j]` with whitespace only on either side and none at its own ends. |
| PyStr.StripIsStripped | inference.py:159 | The result of `strip()` neither starts nor ends with a whitespace character. |
| PyStr.StrippedIsFixed | inference.py:159 | A string without surrounding whitespace is returned unchanged. |
| PyStr.StripIdempotent | inference.py:159 | Stripping twice equals stripping once. |
| PyStr.StripAllSpace | inference.py:130 | A string made only of whitespace, such as a blank line, strips to "". |
| PyStr.StripKeepsMiddle | inference.py:159 | `strip()` returns a contiguous piece `s[i..j]` of its input, and everything before `i` and after `j` is whitespace. |
| Generation.MaxSrcLen | inference.py:47-58 | The prompt budget, the 400 new tokens and the 8-token margin add up to exactly `context_len`; nothing clamps the budget at zero. |
| Generation.SourceBudget | inference.py:46-58 | `max_src_len` is `context_len - 408`, which is 1640 for the default context length of 2048. |
| Generation.Truncate | inference.py:57-59 | For a positive budget the kept ids are the suffix of length `min(len(ids), budget)`, and all of `ids` when they fit. A zero budget keeps all ids, and a negative one drops the first `min(-budget, len(ids))` ids. |
| Generation.DefaultBound | inference.py:46-59 | With the default context length the model sees the last `min(n, 1640)` of the prompt's `n` tokens. |
| Generation.Continuation | inference.py:66-72 | The result is a prefix of `output[l_prompt:]`. When a marker starts at or after `l_prompt`, result + marker equals `output[l_prompt:pos+len(eos)]` for the last such `pos`; otherwise the result is all of `output[l_prompt:]`. |
| Generation.ContinuationAtLastMarker | inference.py:68-70 | If a marker starts at `pos >= l_prompt` and none starts later, the result is exactly `output[l_prompt:pos]`. |
| Generation.ContinuationWithoutMarker | inference.py:68-72 | With no marker at or after `l_prompt`, the result is `output[l_prompt:]`, which is empty when `l_prompt >= len(output)`. |
| Generation.ContinuationRoundTrip | inference.py:65-72 | For output = prompt + reply + eos the result is exactly `reply`, even when `reply` contains the marker itself. |
| Generation.ContinuationRoundTripUnmarked | inference.py:65-72 | For output = prompt + reply with no marker starting at or after `len(prompt)`, the result is exactly `reply`. |
| Generation.GenerateAnswer | inference.py:45-73 | The answer is a prefix of the decoded model output that follows the decoded, truncated prompt. |
| Generation.GenerateAnswerRoundTrip | inference.py:57-73 | When the decoded output is the decoded truncated prompt, a reply and the end marker, `generate_answer` returns that reply. |
| ConvTemplate.WithLastContent | inference.py:159 | Overwriting the last content keeps the length, every earlier message and the last role, and sets the new content. |
| ConvTemplate.Conversation.constructor | inference.py:139 | A fresh conversation holds the template's initial messages. |
| ConvTemplate.Conversation.GetPrompt | inference.py:154 | The prompt is the template's rendering of the current message list and of nothing else. |
| ConvTemplate.Conversation.AppendMessage | inference.py:151-152 | The messages become the old messages followed by `(role, content)`. |
| ConvTemplate.Conversation.SetLastContent | inference.py:159 | The messages become the old ones with the last content replaced. |
| Session.InputText | inference.py:143-146 | A line read is the input text itself, and end of input becomes "". |
| Session.StopReads | inference.py:143-147 | Exactly end of input and the empty line end the session; a line of blanks does not. |
| Session.TurnCount | inference.py:142-149 | The number of turns is at most the number of reads. |
| Session.TurnCountStops | inference.py:143-149 | Every read before the `TurnCount`-th is non-empty, and that read, when it exists, is empty or end of input. |
| Session.ChatStep | inference.py:147-159 | A non-empty read appends exactly `(roles[0], inp)` and `(roles[1], reply)`, then the session continues with the next read and the next generation call. |
| Session.ChatExtends | inference.py:151-159 | Each turn adds exactly two messages and earlier messages are never changed. |
| Session.ChatTurnAt | inference.py:151-159 | Turn `k` is at index `len(msgs) + 2k`: the `k`-th input in the user role, then the reply to exactly the messages before it, from generation call `k`. |
| Session.ChatStopsAtEmpty | inference.py:142-149 | Reads after the first empty one are never consumed, and a session whose first read is empty or end of input leaves the messages as they were. |
| Session.RepliesStripped | inference.py:158-159 | Every stored assistant reply has no surrounding whitespace. |
| Session.ChatPrefix | inference.py:142-159 | The conversation after the first `n` reads is a prefix of the one after all reads. |
| Session.Respond | inference.py:151-159 | One turn appends `(roles[0], inp)` and `(roles[1], strip(answer(render(pending))))`, where pending is the conversation with the input and an empty placeholder. |
| Session.Interactive | inference.py:139-159 | The loop leaves exactly `Chat(...)` of the template's messages and the reads, and it calls generation exactly `TurnCount(reads)` times. |
| Session.Predict | inference.py:165-174 | A record's `Input` is the prompt rendered from the template's messages plus `(roles[0], example)` and `(roles[1], "")`, and its `Output` is the answer to exactly that prompt. |
| Session.PredictKeepsRawReply | inference.py:165-174 | A record's `Input` is the prompt rendered from `[(roles[0], example), (roles[1], "")]` appended to the template's messages. Its `Output` is the unstripped `generate_answer` result. |
| Session.Batch | inference.py:163-174 | There is exactly one record per example, in example order. Record `i` is `Predict` of example `i` with generation call `i`. |
| Session.Examples | inference.py:126-130 | Without a data file the examples are the two built-in prompts; with one there is exactly one example per line. |
| Session.ExamplesFromFile | inference.py:126-130 | There is one example per line, in order; example `i` is `strip(line i)`, and a blank line gives "". |

## Left out

- Model and tokenizer loading, the `MODEL_CLASSES` registry, PEFT/LoRA wrapping and embedding resizing (inference.py:24-30, 99-123) are foreign library calls.
- `model.generate`, its sampling numerics and the `GenerationConfig` values beyond `max_new_tokens` are opaque. So are torch tensors, devices and `inference_mode`/`no_grad` (inference.py:45, 48-56, 60-64, 134, 137). Randomness is the generation call's index.
- Tokenizer internals and `decode` are opaque functions. `supervised_finetuning.py`, with `get_conv_template` and `get_prompt`, is not part of this model: a template is a value with its roles, its initial messages and an opaque renderer.
- argparse, `SimpleChatIO` console output, printing, opening the data file, `os.makedirs` and the JSON dump (inference.py:33-42, 77-89, 131-133, 176-179) are I/O. Console input is a sequence of reads, the data file is its sequence of lines, and the batch result is the returned sequence of records.
- The dispatch on `--interactive` (inference.py:138) is not modelled. Each mode is its own method.
- PyStr.RFind: only non-negative start indices are modelled, because the one caller passes a length.
- A tokenizer without an end-of-sequence token (`eos_token` of `None`) is not modelled; the marker is always a string.
- Generation.GenerateAnswer: its own contract states only the prefix property. The exact answer is stated by Generation.Continuation and Generation.GenerateAnswerRoundTrip.
