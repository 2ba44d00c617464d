/** The conversation object inference.py gets from `get_conv_template` and
    mutates through `append_message`, `get_prompt` and a direct write to
    `messages[-1][-1]`. The template registry and the prompt renderer live
    in a module that is not part of this model, so a template is a value
    carrying its roles, its initial messages and an opaque renderer. */
module ConvTemplate {

  /** One `[role, content]` entry of `conv.messages`. */
  datatype Message = Message(role: string, content: string)

  /** What `get_conv_template(name)` returns before any message is added:
      `roles[0]` is `userRole`, `roles[1]` is `assistantRole`, and `render`
      is `get_prompt` as a function of the message list. */
  datatype Template = Template(
    name: string,
    userRole: string,
    assistantRole: string,
    messages: seq<Message>,
    render: seq<Message> -> string)

  /** Replaces the content of the last message, keeping its role. */
  function WithLastContent(msgs: seq<Message>, content: string): (r: seq<Message>)
    requires msgs != []
    ensures |r| == |msgs| && r[..|r| - 1] == msgs[..|msgs| - 1]
    ensures r[|r| - 1].role == msgs[|msgs| - 1].role && r[|r| - 1].content == content
  {
    msgs[..|msgs| - 1] + [Message(msgs[|msgs| - 1].role, content)]
  }

  class Conversation {
    const template: Template
    var messages: seq<Message>

    /** `get_conv_template(name)`: a fresh copy of the template. */
    constructor (t: Template)
      ensures template == t && messages == t.messages
    {
      template := t;
      messages := t.messages;
    }

    /** `conv.append_message(role, content)`. */
    method AppendMessage(role: string, content: string)
      modifies this
      ensures messages == old(messages) + [Message(role, content)]
    {
      messages := messages + [Message(role, content)];
    }

    /** `conv.messages[-1][-1] = content`. */
    method SetLastContent(content: string)
      requires messages != []
      modifies this
      ensures messages == WithLastContent(old(messages), content)
    {
      messages := WithLastContent(messages, content);
    }

    /** `conv.get_prompt()`: a pure function of the current messages. */
    function GetPrompt(): (p: string)
      reads this
      ensures p == template.render(messages)
    {
      template.render(messages)
    }
  }
}
