/** The two loops of `main` in inference.py: the interactive chat, which
    keeps one conversation across turns, and the batch run, which builds a
    fresh conversation per example and collects one record per example.
    Console input is a sequence of reads, the data file a sequence of lines. */
module Session {
  import opened PyStr
  import opened Generation
  import opened ConvTemplate

  /** One call of `chatio.prompt_for_input`: a line, or end of input. */
  datatype Read = Line(text: string) | EndOfInput

  /** `inp` after the `try`/`except EOFError` that maps end of input to "". */
  function InputText(r: Read): (s: string)
    ensures r.Line? ==> s == r.text
    ensures r.EndOfInput? ==> s == ""
  {
    match r
    case Line(s) => s
    case EndOfInput => ""
  }

  /** `if not inp: break`. A line of blanks does not end the session. */
  predicate EndsSession(r: Read) {
    InputText(r) == ""
  }

  /** Exactly end of input and the empty line stop the session. */
  lemma StopReads(r: Read)
    ensures EndsSession(r) <==> r == EndOfInput || r == Line("")
  {
  }

  /** How many turns run: the index of the first read that ends the session,
      or all of them when none does (running out of inputs is end of input). */
  function TurnCount(inputs: seq<Read>): (n: nat)
    ensures n <= |inputs|
  {
    if inputs == [] || EndsSession(inputs[0]) then 0 else 1 + TurnCount(inputs[1..])
  }

  /** Every read before the `TurnCount`-th continues the session, and that
      one, when there is one, ends it. */
  lemma {:induction false} TurnCountStops(inputs: seq<Read>)
    decreases |inputs|
    ensures var n := TurnCount(inputs);
            && (forall k :: 0 <= k < n ==> !EndsSession(inputs[k]))
            && (n < |inputs| ==> EndsSession(inputs[n]))
  {
    if inputs != [] && !EndsSession(inputs[0]) {
      TurnCountStops(inputs[1..]);
      var n := TurnCount(inputs);
      forall k | 0 <= k < n
        ensures !EndsSession(inputs[k])
      {
        if k > 0 {
          assert inputs[k] == inputs[1..][k - 1];
        }
      }
      if n < |inputs| {
        assert inputs[n] == inputs[1..][n - 1];
      }
    }
  }

  /** The messages after `append_message(roles[0], inp)` and
      `append_message(roles[1], '')`. */
  function Pending(t: Template, msgs: seq<Message>, inp: string): seq<Message> {
    msgs + [Message(t.userRole, inp), Message(t.assistantRole, "")]
  }

  /** How a turn's stored reply arises from the messages before the turn,
      the user's input and the number of generation calls made so far. */
  type Replier = (seq<Message>, string, nat) -> string

  /** The reply inference.py stores for one turn: the answer to the rendered
      pending conversation, then `strip()`. */
  function StoredReply(answer: Answerer, t: Template): Replier {
    (msgs: seq<Message>, inp: string, sample: nat) => Strip(answer(t.render(Pending(t, msgs, inp)), sample))
  }

  /** The conversation the interactive loop leaves behind, starting from
      `msgs` with `sample` generation calls already made: each turn appends
      the input and a placeholder, then overwrites the placeholder. */
  function Chat(reply: Replier, t: Template, msgs: seq<Message>, inputs: seq<Read>, sample: nat): (r: seq<Message>)
    decreases |inputs|
  {
    if inputs == [] || EndsSession(inputs[0]) then msgs
    else
      var inp := InputText(inputs[0]);
      Chat(reply, t, WithLastContent(Pending(t, msgs, inp), reply(msgs, inp, sample)), inputs[1..], sample + 1)
  }

  /** One turn: a read that does not end the session appends exactly the
      input and the reply, and the session goes on with the next read. */
  lemma ChatStep(reply: Replier, t: Template, msgs: seq<Message>, inputs: seq<Read>, sample: nat)
    requires inputs != [] && !EndsSession(inputs[0])
    ensures var inp := InputText(inputs[0]);
            Chat(reply, t, msgs, inputs, sample)
              == Chat(reply, t, msgs + [Message(t.userRole, inp), Message(t.assistantRole, reply(msgs, inp, sample))],
                      inputs[1..], sample + 1)
  {
    var inp := InputText(inputs[0]);
    assert WithLastContent(Pending(t, msgs, inp), reply(msgs, inp, sample))
             == msgs + [Message(t.userRole, inp), Message(t.assistantRole, reply(msgs, inp, sample))];
  }

  /** Turns only append: the conversation grows by exactly two messages per
      turn and the messages it started from are left as they were. A
      session whose first read is empty or end of input adds nothing. */
  lemma {:induction false} ChatExtends(reply: Replier, t: Template, msgs: seq<Message>, inputs: seq<Read>, sample: nat)
    decreases |inputs|
    ensures var r := Chat(reply, t, msgs, inputs, sample);
            |r| == |msgs| + 2 * TurnCount(inputs) && r[..|msgs|] == msgs
  {
    if inputs != [] && !EndsSession(inputs[0]) {
      var inp := InputText(inputs[0]);
      var next := msgs + [Message(t.userRole, inp), Message(t.assistantRole, reply(msgs, inp, sample))];
      ChatStep(reply, t, msgs, inputs, sample);
      ChatExtends(reply, t, next, inputs[1..], sample + 1);
      var r := Chat(reply, t, next, inputs[1..], sample + 1);
      assert r[..|msgs|] == r[..|next|][..|msgs|];
    }
  }

  /** Turn `k` sits at `j = |msgs| + 2 * k`: the `k`-th input in the user's
      role, then, in the assistant's role, the reply to exactly the
      conversation before it, made by generation call `sample + k`. */
  lemma {:induction false} ChatTurnAt(reply: Replier, t: Template, msgs: seq<Message>, inputs: seq<Read>, sample: nat, k: nat)
    requires k < TurnCount(inputs)
    decreases k
    ensures var r := Chat(reply, t, msgs, inputs, sample);
            var j := |msgs| + 2 * k;
            && j + 1 < |r|
            && r[j] == Message(t.userRole, InputText(inputs[k]))
            && r[j + 1] == Message(t.assistantRole, reply(r[..j], InputText(inputs[k]), sample + k))
  {
    var inp := InputText(inputs[0]);
    var next := msgs + [Message(t.userRole, inp), Message(t.assistantRole, reply(msgs, inp, sample))];
    ChatStep(reply, t, msgs, inputs, sample);
    ChatExtends(reply, t, next, inputs[1..], sample + 1);
    var r := Chat(reply, t, next, inputs[1..], sample + 1);
    if k == 0 {
      assert r[..|msgs|] == r[..|next|][..|msgs|];
      assert r[|msgs|] == r[..|next|][|msgs|];
      assert r[|msgs| + 1] == r[..|next|][|msgs| + 1];
    } else {
      var rest := inputs[1..];
      ChatTurnAt(reply, t, next, rest, sample + 1, k - 1);
      assert rest[k - 1] == inputs[k];
      assert |next| + 2 * (k - 1) == |msgs| + 2 * k;
      assert sample + 1 + (k - 1) == sample + k;
    }
  }

  /** The session ends at the first empty read: the reads after it are
      never consumed, and a session that starts with one adds nothing. */
  lemma {:induction false} ChatStopsAtEmpty(reply: Replier, t: Template, msgs: seq<Message>, inputs: seq<Read>, sample: nat)
    decreases |inputs|
    ensures Chat(reply, t, msgs, inputs, sample) == Chat(reply, t, msgs, inputs[..TurnCount(inputs)], sample)
    ensures inputs == [] || EndsSession(inputs[0]) ==> Chat(reply, t, msgs, inputs, sample) == msgs
  {
    var n := TurnCount(inputs);
    if inputs == [] || EndsSession(inputs[0]) {
      assert inputs[..n] == [];
    } else {
      var inp := InputText(inputs[0]);
      var next := msgs + [Message(t.userRole, inp), Message(t.assistantRole, reply(msgs, inp, sample))];
      var rest := inputs[1..];
      assert n == 1 + TurnCount(rest);
      assert inputs[..n][0] == inputs[0];
      assert inputs[..n][1..] == rest[..n - 1];
      calc {
        Chat(reply, t, msgs, inputs, sample);
        { ChatStep(reply, t, msgs, inputs, sample); }
        Chat(reply, t, next, rest, sample + 1);
        { ChatStopsAtEmpty(reply, t, next, rest, sample + 1); }
        Chat(reply, t, next, rest[..n - 1], sample + 1);
        { ChatStep(reply, t, msgs, inputs[..n], sample); }
        Chat(reply, t, msgs, inputs[..n], sample);
      }
    }
  }

  /** Every reply the interactive loop stores has no surrounding whitespace. */
  lemma RepliesStripped(answer: Answerer, t: Template, msgs: seq<Message>, inputs: seq<Read>, sample: nat, k: nat)
    requires k < TurnCount(inputs)
    ensures var r := Chat(StoredReply(answer, t), t, msgs, inputs, sample);
            |msgs| + 2 * k + 1 < |r| && IsStripped(r[|msgs| + 2 * k + 1].content)
  {
    var reply := StoredReply(answer, t);
    ChatTurnAt(reply, t, msgs, inputs, sample, k);
    var r := Chat(reply, t, msgs, inputs, sample);
    var j := |msgs| + 2 * k;
    var stored := answer(t.render(Pending(t, r[..j], InputText(inputs[k]))), sample + k);
    assert r[j + 1].content == Strip(stored);
    StripIsStripped(stored);
  }

  /** The conversation after the first `n` reads is a prefix of the one after
      all of them: later turns only ever extend it. */
  lemma {:induction false} ChatPrefix(reply: Replier, t: Template, msgs: seq<Message>, inputs: seq<Read>, sample: nat, n: nat)
    requires n <= |inputs|
    decreases n
    ensures Chat(reply, t, msgs, inputs[..n], sample) <= Chat(reply, t, msgs, inputs, sample)
  {
    if n == 0 {
      ChatExtends(reply, t, msgs, inputs, sample);
    } else if EndsSession(inputs[0]) {
      assert inputs[..n][0] == inputs[0];
    } else {
      var inp := InputText(inputs[0]);
      var next := msgs + [Message(t.userRole, inp), Message(t.assistantRole, reply(msgs, inp, sample))];
      assert inputs[..n][0] == inputs[0];
      assert inputs[..n][1..] == inputs[1..][..n - 1];
      ChatStep(reply, t, msgs, inputs, sample);
      ChatStep(reply, t, msgs, inputs[..n], sample);
      ChatPrefix(reply, t, next, inputs[1..], sample + 1, n - 1);
    }
  }

  /** One turn of the interactive loop once `inp` has been read: append the
      input and an empty placeholder, render, generate and overwrite the
      placeholder with the stripped answer. */
  method Respond(conv: Conversation, answer: Answerer, inp: string, sample: nat)
    modifies conv
    ensures conv.messages == old(conv.messages)
              + [Message(conv.template.userRole, inp),
                 Message(conv.template.assistantRole, StoredReply(answer, conv.template)(old(conv.messages), inp, sample))]
  {
    ghost var before := conv.messages;
    conv.AppendMessage(conv.template.userRole, inp);
    conv.AppendMessage(conv.template.assistantRole, "");
    assert conv.messages == Pending(conv.template, before, inp);
    var prompt := conv.GetPrompt();
    var output := answer(prompt, sample);
    conv.SetLastContent(Strip(output));
  }

  /** The interactive loop of `main`: read, stop on "" (or end of input),
      otherwise run one turn. Returns the conversation and the number of
      generation calls. */
  method Interactive(answer: Answerer, t: Template, inputs: seq<Read>, sample0: nat)
    returns (conv: Conversation, calls: nat)
    ensures conv.template == t
    ensures conv.messages == Chat(StoredReply(answer, t), t, t.messages, inputs, sample0)
    ensures calls == TurnCount(inputs)
  {
    conv := new Conversation(t);
    calls := 0;
    var rest, sample := inputs, sample0;
    while true
      invariant sample == sample0 + calls
      invariant |conv.messages| == |t.messages| + 2 * calls
      invariant Chat(StoredReply(answer, t), t, conv.messages, rest, sample)
                  == Chat(StoredReply(answer, t), t, t.messages, inputs, sample0)
      decreases |rest|
    {
      var inp := if rest != [] then InputText(rest[0]) else "";
      if inp == "" {
        ChatExtends(StoredReply(answer, t), t, t.messages, inputs, sample0);
        break;
      }
      ghost var before := conv.messages;
      Respond(conv, answer, inp, sample);
      ChatStep(StoredReply(answer, t), t, before, rest, sample);
      calls, rest, sample := calls + 1, rest[1..], sample + 1;
    }
  }

  /** One element of `results`: `{"Input": prompt, "Output": response}`. */
  datatype Prediction = Prediction(input: string, output: string)

  /** The prompt of a fresh conversation holding only `example` and the
      empty assistant placeholder. */
  function FreshPrompt(t: Template, example: string): string {
    t.render(Pending(t, t.messages, example))
  }

  /** The record the batch loop appends for `example`. */
  function Predict(answer: Answerer, t: Template, example: string, sample: nat): (r: Prediction)
    ensures r.input == t.render(t.messages + [Message(t.userRole, example), Message(t.assistantRole, "")])
    ensures r.output == answer(r.input, sample)
  {
    var prompt := FreshPrompt(t, example);
    Prediction(prompt, answer(prompt, sample))
  }

  /** The stored input is the rendered prompt, not the example text, and the
      stored output is the answer as extracted, with its whitespace kept. */
  lemma PredictKeepsRawReply(tok: Tokenizer, model: Model, t: Template, example: string, sample: nat, reply: string)
    requires var ids := BoundedIds(tok, FreshPrompt(t, example), DefaultContextLen);
             tok.decode(model.generate(ids, SourceConfig, sample)) == tok.decode(ids) + reply + tok.eosToken
    ensures Predict(SourceAnswerer(tok, model), t, example, sample)
              == Prediction(t.render(t.messages + [Message(t.userRole, example), Message(t.assistantRole, "")]), reply)
  {
    GenerateAnswerRoundTrip(tok, model, FreshPrompt(t, example), DefaultContextLen, sample, reply);
  }

  /** The batch loop of `main`: one record per example, in order, each from
      its own fresh conversation, so no example sees another's history. */
  method Batch(answer: Answerer, t: Template, examples: seq<string>, sample0: nat)
    returns (results: seq<Prediction>)
    ensures |results| == |examples|
    ensures forall i :: 0 <= i < |examples| ==> results[i] == Predict(answer, t, examples[i], sample0 + i)
  {
    results := [];
    for index := 0 to |examples|
      invariant |results| == index
      invariant forall i :: 0 <= i < index ==> results[i] == Predict(answer, t, examples[i], sample0 + i)
    {
      var example := examples[index];
      var conv := new Conversation(t);
      conv.AppendMessage(t.userRole, example);
      conv.AppendMessage(t.assistantRole, "");
      var prompt := conv.GetPrompt();
      assert conv.messages == Pending(t, t.messages, example);
      var response := answer(prompt, sample0 + index);
      results := results + [Prediction(prompt, response)];
    }
  }

  /** Where the examples come from: the two built-in prompts, or the lines
      of `--data_file` as `readlines()` returns them. */
  datatype DataSource = BuiltIn | DataFile(lines: seq<string>)

  /** "介绍下北京" and "乙肝和丙肝的区别？". */
  const DefaultExamples: seq<string> := [
    "\U{4ECB}\U{7ECD}\U{4E0B}\U{5317}\U{4EAC}",
    "\U{4E59}\U{809D}\U{548C}\U{4E19}\U{809D}\U{7684}\U{533A}\U{522B}\U{FF1F}"
  ]

  /** `examples` in `main`: every line stripped; blank lines are kept. */
  function Examples(source: DataSource): (r: seq<string>)
    ensures source.BuiltIn? ==> r == DefaultExamples
    ensures source.DataFile? ==> |r| == |source.lines|
  {
    match source
    case BuiltIn => DefaultExamples
    case DataFile(lines) => seq(|lines|, i requires 0 <= i < |lines| => Strip(lines[i]))
  }

  /** Reading a data file yields one example per line, in order, and a
      blank line becomes an empty example rather than being dropped. */
  lemma ExamplesFromFile(lines: seq<string>, i: nat)
    requires i < |lines|
    ensures |Examples(DataFile(lines))| == |lines|
    ensures Examples(DataFile(lines))[i] == Strip(lines[i])
    ensures AllSpace(lines[i]) ==> Examples(DataFile(lines))[i] == ""
  {
    if AllSpace(lines[i]) {
      StripAllSpace(lines[i]);
    }
  }
}
