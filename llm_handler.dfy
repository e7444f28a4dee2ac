/** The Mistral-instruct prompt serialiser of llm_handler.py: chat messages
    are turned into the `[INST] ... [/INST]` delimiter convention of the
    Mistral-7B-Instruct model. */
module LlmHandler {
  import opened PyStr

  /** A role name other than the three the serialiser compares against. */
  type UnknownName = n: string | n != "system" && n != "user" && n != "assistant" witness "tool"

  /** The role of a chat message. The source compares the role against the
      names "system", "user" and "assistant"; `Other` stands for any other
      name (tool, function, chatbot, ...), and its type excludes the three. */
  datatype Role = System | User | Assistant | Other(name: UnknownName)

  /** One chat message: its role and its content. */
  datatype Message = Message(role: Role, content: string)

  /** The `ValueError` raised for a role the serialiser does not know,
      carrying the offending role's name. */
  datatype RoleError = UnknownRole(role: UnknownName)

  datatype Result<T> = Ok(value: T) | Err(error: RoleError)

  /** What a Python call observably does: return `None`, return a string,
      or raise a `ValueError`. */
  datatype Outcome = ReturnedNone | Returned(value: string) | Raised(error: RoleError)

  /** The name a role is compared by. */
  function RoleName(r: Role): string
  {
    match r
    case System => "system"
    case User => "user"
    case Assistant => "assistant"
    case Other(n) => n
  }

  /** A role as the source classifies it: one of the three known names, or
      anything else. */
  function RoleFromName(name: string): (r: Role)
    ensures RoleName(r) == name
    ensures r.Other? <==> (name != "system" && name != "user" && name != "assistant")
  {
    if name == "system" then System
    else if name == "user" then User
    else if name == "assistant" then Assistant
    else Other(name)
  }

  /** One instruction block of the Mistral-instruct convention: the
      buffered instructions joined by newlines between the opening marker
      `[INST] ` and the closing marker ` [/INST]`. The specification
      functions use this and `AnswerSpan`; `BuildPrompt` writes the same
      literals inline, grouped as the source's `+=` statements group them. */
  function InstBlock(buffer: seq<string>): string
  {
    "[INST] " + Join("\n", buffer) + " [/INST]"
  }

  /** The answer that follows an instruction block: a space, the stripped
      answer and the end-of-answer token `</s>`. */
  function AnswerSpan(content: string): string
  {
    " " + Strip(content) + "</s>"
  }

  /** The loop's state: the prompt built so far and the buffered,
      already stripped, system/user contents. */
  datatype State = State(prompt: string, buffer: seq<string>)

  const Start: State := State("", [])

  /** What one loop iteration does to the state. */
  function Step(st: State, m: Message): Result<State>
  {
    match m.role
    case System => Ok(State(st.prompt, st.buffer + [Strip(m.content)]))
    case User => Ok(State(st.prompt, st.buffer + [Strip(m.content)]))
    case Assistant =>
      Ok(State(st.prompt + InstBlock(st.buffer) + AnswerSpan(m.content), []))
    case Other(n) => Err(UnknownRole(n))
  }

  /** The loop over `msgs` from state `st`: the state after the last
      message, or the error of the first unknown role. */
  function RunFrom(st: State, msgs: seq<Message>): Result<State>
    decreases |msgs|
  {
    if |msgs| == 0 then Ok(st)
    else
      match Step(st, msgs[0])
      case Ok(next) => RunFrom(next, msgs[1..])
      case Err(e) => Err(e)
  }

  /** The statement after the loop: a non-empty buffer becomes one trailing,
      open instruction block. */
  function Close(st: State): string
  {
    st.prompt + (if |st.buffer| > 0 then InstBlock(st.buffer) else "")
  }

  /** The prompt `messages_to_prompt` builds for `msgs`, or the error it
      raises. */
  function Render(msgs: seq<Message>): Result<string>
  {
    match RunFrom(Start, msgs)
    case Ok(st) => Ok(Close(st))
    case Err(e) => Err(e)
  }

  /** The body of `messages_to_prompt`: the loop over the messages and the
      final block. The prompt it ends with is the loop's final state; an
      unknown role stops it with an error. */
  method BuildPrompt(messages: seq<Message>) returns (r: Result<string>)
    ensures r == Render(messages)
  {
    var instBuffer: seq<string> := [];
    var prompt := "";
    var i := 0;
    while i < |messages|
      invariant 0 <= i <= |messages|
      invariant RunFrom(Start, messages) == RunFrom(State(prompt, instBuffer), messages[i..])
    {
      var message := messages[i];
      ghost var before := State(prompt, instBuffer);
      assert RunFrom(before, messages[i..]) ==
        match Step(before, message)
        case Ok(next) => RunFrom(next, messages[i + 1..])
        case Err(e) => Err(e)
      by {
        assert messages[i..][0] == message;
        assert messages[i..][1..] == messages[i + 1..];
      }
      match message.role {
        case System =>
          instBuffer := instBuffer + [Strip(message.content)];
        case User =>
          instBuffer := instBuffer + [Strip(message.content)];
        case Assistant =>
          prompt := prompt + ("[INST] " + Join("\n", instBuffer) + " [/INST]");
          prompt := prompt + (" " + Strip(message.content) + "</s>");
          instBuffer := [];
        case Other(name) =>
          return Err(UnknownRole(name));
      }
      assert Step(before, message) == Ok(State(prompt, instBuffer));
      i := i + 1;
    }
    assert messages[i..] == [];
    ghost var last := State(prompt, instBuffer);
    assert RunFrom(Start, messages) == Ok(last);
    if |instBuffer| > 0 {
      prompt := prompt + ("[INST] " + Join("\n", instBuffer) + " [/INST]");
    }
    assert prompt == Close(last);
    r := Ok(prompt);
  }

  /** `messages_to_prompt` as written: it builds the prompt but has no
      `return` statement, so the caller gets `None`; only an unknown role
      is observable, as the `ValueError` it raises. */
  method MessagesToPrompt(messages: seq<Message>) returns (r: Outcome)
    ensures r.Raised? <==> Render(messages).Err?
    ensures r.Raised? ==> r.error == Render(messages).error
    ensures !r.Raised? ==> r == ReturnedNone
  {
    var built := BuildPrompt(messages);
    match built {
      case Ok(_) => r := ReturnedNone;
      case Err(e) => r := Raised(e);
    }
  }

  /** `messages_to_prompt` with the evidently intended `return prompt`
      after the final block. */
  method MessagesToPromptIntended(messages: seq<Message>) returns (r: Outcome)
    ensures r.Raised? <==> Render(messages).Err?
    ensures r.Raised? ==> r.error == Render(messages).error
    ensures !r.Raised? ==> r == Returned(Render(messages).value)
  {
    var built := BuildPrompt(messages);
    match built {
      case Ok(prompt) => r := Returned(prompt);
      case Err(e) => r := Raised(e);
    }
  }

  /** For a single user message the function as written discards the
      prompt it builds and returns `None`, while the intended one returns
      that prompt. */
  method DiscardedPromptExample(content: string) returns (asWritten: Outcome, intended: Outcome)
    ensures asWritten == ReturnedNone
    ensures intended == Returned("[INST] " + Strip(content) + " [/INST]")
  {
    var conversation := [Message(User, content)];
    OneInstruction(Message(User, content));
    asWritten := MessagesToPrompt(conversation);
    intended := MessagesToPromptIntended(conversation);
  }

  /** `completion_to_prompt`: a single completion string, stripped, in one
      instruction block. It is exactly what the serialiser builds for the
      one-message conversation holding that string as a user or a system
      message. */
  function CompletionToPrompt(completion: string): (r: string)
    ensures Render([Message(User, completion)]) == Ok(r)
    ensures Render([Message(System, completion)]) == Ok(r)
  {
    OneInstruction(Message(User, completion));
    OneInstruction(Message(System, completion));
    "[INST] " + Strip(completion) + " [/INST]"
  }

  /** A conversation of one system or user message renders to one
      instruction block holding its stripped content. */
  lemma OneInstruction(m: Message)
    requires m.role == System || m.role == User
    ensures Render([m]) == Ok("[INST] " + Strip(m.content) + " [/INST]")
  {
    var x := Strip(m.content);
    var st := State("", [x]);
    assert Start.buffer + [x] == [x];
    assert Step(Start, m) == Ok(st);
    assert [m][1..] == [];
    assert RunFrom(st, []) == Ok(st);
    assert RunFrom(Start, [m]) == Ok(st);
    assert Join("\n", [x]) == x;
    var block := "[INST] " + x + " [/INST]";
    assert InstBlock([x]) == block;
    assert Close(st) == "" + block;
    assert "" + block == block;
  }
}
