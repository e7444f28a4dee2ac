/** Properties of the prompt serialiser of llm_handler.py, and a structured
    view of a conversation (turns of instructions and an answer, then the
    pending instructions) whose rendering is stated independently of the
    loop. */
module LlmHandlerProps {
  import opened PyStr
  import opened LlmHandler

  /** Continue the loop over `msgs` from a result, keeping an error. */
  function Then(r: Result<State>, msgs: seq<Message>): Result<State>
  {
    match r
    case Ok(st) => RunFrom(st, msgs)
    case Err(e) => Err(e)
  }

  /** Every message has one of the three roles the serialiser knows. */
  predicate KnownRoles(msgs: seq<Message>)
  {
    forall i :: 0 <= i < |msgs| ==> !msgs[i].role.Other?
  }

  /** `s` ends with `suffix`. */
  predicate EndsWith(s: string, suffix: string)
  {
    |suffix| <= |s| && s[|s| - |suffix|..] == suffix
  }

  /** The last message is an answer, or there is none: the buffer is then
      empty. */
  predicate EndsWithAnswer(msgs: seq<Message>)
  {
    msgs == [] || msgs[|msgs| - 1].role == Assistant
  }

  /** Running over two pieces in turn is running over their concatenation. */
  lemma {:induction false} RunFromAppend(st: State, a: seq<Message>, b: seq<Message>)
    ensures RunFrom(st, a + b) == Then(RunFrom(st, a), b)
    decreases |a|
  {
    if a == [] {
      assert a + b == b;
    } else {
      assert (a + b)[0] == a[0];
      assert (a + b)[1..] == a[1..] + b;
      match Step(st, a[0])
      case Ok(next) => RunFromAppend(next, a[1..], b);
      case Err(_) =>
    }
  }

  // The Regroup lemmas below only restate that `+` on sequences is
  // associative. They have no counterpart in the source: they are hints
  // that keep the solver from regrouping long concatenations of string
  // literals on its own, which is expensive.

  /** Regrouping a concatenation of seven strings. */
  lemma Regroup(p: string, o: string, j: string, cl: string, sp: string, a: string, e: string)
    ensures p + (o + j + cl) + (sp + a + e) == p + o + j + cl + sp + a + e
  {
  }

  /** Regrouping a concatenation of seven strings behind a fixed head. */
  lemma RegroupTail(p: string, o: string, j: string, cl: string, sp: string, a: string, e: string)
    ensures p + (o + j + cl) + (sp + a + e) == p + (o + j + cl + sp + a + e)
  {
  }

  /** Regrouping a concatenation of five strings around its middle. */
  lemma RegroupMiddle(a: string, b: string, c: string, d: string, e: string)
    ensures a + (b + c + d) + e == (a + b) + (c + d + e)
  {
  }

  /** Regrouping a concatenation of four sequences. */
  lemma Regroup4<T>(p: seq<T>, a: seq<T>, b: seq<T>, c: seq<T>)
    ensures p + (a + b + c) == p + a + b + c
  {
  }

  /** Regrouping a concatenation of three sequences. */
  lemma Regroup3<T>(a: seq<T>, b: seq<T>, c: seq<T>)
    ensures a + b + c == a + (b + c)
  {
  }

  /** The rendering of a finished run is its closed state. */
  lemma RenderOfRun(msgs: seq<Message>, st: State)
    requires RunFrom(Start, msgs) == Ok(st)
    ensures Render(msgs) == Ok(Close(st))
  {
  }

  /** Closing a state with an empty buffer adds nothing. */
  lemma CloseEmpty(p: string)
    ensures Close(State(p, [])) == p
  {
    assert p + "" == p;
  }

  /** Running over one message is one step. */
  lemma RunFromOne(st: State, m: Message)
    ensures RunFrom(st, [m]) == Step(st, m)
  {
    assert [m][1..] == [];
    match Step(st, m)
    case Ok(next) => assert RunFrom(next, []) == Ok(next);
    case Err(_) =>
  }

  /** Appending one message to a run that finished is one more step. */
  lemma RunFromSnoc(msgs: seq<Message>, m: Message, st: State)
    requires RunFrom(Start, msgs) == Ok(st)
    ensures RunFrom(Start, msgs + [m]) == Step(st, m)
  {
    RunFromAppend(Start, msgs, [m]);
    RunFromOne(st, m);
  }

  /** The loop finishes exactly when no message has an unknown role. */
  lemma {:induction false} RunFromOkIff(st: State, msgs: seq<Message>)
    ensures RunFrom(st, msgs).Ok? <==> KnownRoles(msgs)
    decreases |msgs|
  {
    if msgs != [] {
      match Step(st, msgs[0])
      case Ok(next) =>
        RunFromOkIff(next, msgs[1..]);
        assert KnownRoles(msgs) <==> KnownRoles(msgs[1..]) by {
          assert forall i :: 0 < i < |msgs| ==> msgs[i] == msgs[1..][i - 1];
        }
      case Err(_) =>
    }
  }

  /** The error is raised for the first message with an unknown role. */
  lemma {:induction false} RunFromFailsAtFirstUnknown(st: State, msgs: seq<Message>)
    requires RunFrom(st, msgs).Err?
    ensures exists i :: 0 <= i < |msgs| && msgs[i].role == Other(RunFrom(st, msgs).error.role) &&
                        KnownRoles(msgs[..i])
    decreases |msgs|
  {
    match Step(st, msgs[0])
    case Ok(next) =>
      RunFromFailsAtFirstUnknown(next, msgs[1..]);
      var j :| 0 <= j < |msgs[1..]| && msgs[1..][j].role == Other(RunFrom(next, msgs[1..]).error.role) &&
               KnownRoles(msgs[1..][..j]);
      assert msgs[..j + 1] == [msgs[0]] + msgs[1..][..j];
      assert msgs[j + 1] == msgs[1..][j];
    case Err(_) =>
      assert msgs[..0] == [];
  }

  /** `messages_to_prompt` raises exactly when some role is unknown, and
      the error names the first such role; otherwise it builds a prompt. */
  lemma RenderFailsIffUnknownRole(msgs: seq<Message>)
    ensures Render(msgs).Ok? <==> KnownRoles(msgs)
    ensures Render(msgs).Err? ==>
      exists i :: 0 <= i < |msgs| && msgs[i].role == Other(Render(msgs).error.role) && KnownRoles(msgs[..i])
  {
    RunFromOkIff(Start, msgs);
    if Render(msgs).Err? {
      RunFromFailsAtFirstUnknown(Start, msgs);
    }
  }

  /** A system or a user message adds its stripped content to the buffer
      and emits nothing. */
  lemma InstructionIsBuffered(msgs: seq<Message>, m: Message, st: State)
    requires m.role == System || m.role == User
    requires RunFrom(Start, msgs) == Ok(st)
    ensures RunFrom(Start, msgs + [m]) == Ok(State(st.prompt, st.buffer + [Strip(m.content)]))
  {
    RunFromSnoc(msgs, m, st);
  }

  /** A system message and a user message with the same content are
      interchangeable anywhere in a conversation. */
  lemma SystemActsAsUser(p: seq<Message>, c: string, q: seq<Message>)
    ensures Render(p + [Message(System, c)] + q) == Render(p + [Message(User, c)] + q)
  {
    RunFromAppend(Start, p + [Message(System, c)], q);
    RunFromAppend(Start, p + [Message(User, c)], q);
    RunFromAppend(Start, p, [Message(System, c)]);
    RunFromAppend(Start, p, [Message(User, c)]);
    assert [Message(System, c)][1..] == [];
    assert [Message(User, c)][1..] == [];
  }

  /** An assistant message flushes the buffer as one instruction block,
      followed by its stripped answer and the end-of-answer token, and
      leaves the buffer empty. */
  lemma AnswerFlushesBuffer(msgs: seq<Message>, c: string, st: State)
    requires RunFrom(Start, msgs) == Ok(st)
    ensures RunFrom(Start, msgs + [Message(Assistant, c)]) ==
      Ok(State(st.prompt + "[INST] " + Join("\n", st.buffer) + " [/INST]" + " " + Strip(c) + "</s>", []))
  {
    RunFromSnoc(msgs, Message(Assistant, c), st);
    Regroup(st.prompt, "[INST] ", Join("\n", st.buffer), " [/INST]", " ", Strip(c), "</s>");
  }

  /** An answer ends a run with an empty buffer. */
  lemma AnswerStep(msgs: seq<Message>, c: string, st: State)
    requires RunFrom(Start, msgs) == Ok(st)
    ensures RunFrom(Start, msgs + [Message(Assistant, c)]) ==
      Ok(State(st.prompt + InstBlock(st.buffer) + AnswerSpan(c), []))
  {
    RunFromSnoc(msgs, Message(Assistant, c), st);
  }

  /** After a run that ends with an answer, or no message at all, the
      buffer is empty and the prompt is the whole rendering. */
  lemma AnswerLeavesBufferEmpty(msgs: seq<Message>)
    requires KnownRoles(msgs) && EndsWithAnswer(msgs)
    ensures RunFrom(Start, msgs).Ok? && RunFrom(Start, msgs).value.buffer == []
    ensures Render(msgs) == Ok(RunFrom(Start, msgs).value.prompt)
  {
    if msgs != [] {
      var init := msgs[..|msgs| - 1];
      var m := msgs[|msgs| - 1];
      assert msgs == init + [m];
      assert KnownRoles(init) by {
        assert forall i :: 0 <= i < |init| ==> init[i] == msgs[i];
      }
      RunFromOkIff(Start, init);
      var st0 := RunFrom(Start, init).value;
      assert m == Message(Assistant, m.content);
      AnswerStep(init, m.content, st0);
      var st := State(st0.prompt + InstBlock(st0.buffer) + AnswerSpan(m.content), []);
      CloseEmpty(st.prompt);
      RenderOfRun(msgs, st);
    } else {
      CloseEmpty("");
      RenderOfRun(msgs, Start);
    }
  }

  /** The instruction block of an empty buffer, and the answer after it. */
  lemma EmptyBlockText(c: string)
    ensures InstBlock([]) + AnswerSpan(c) == "[INST]  [/INST] " + Strip(c) + "</s>"
  {
    assert Join("\n", []) == "";
    assert InstBlock([]) == "[INST]  [/INST]";
    Regroup("", "[INST]  [/INST]", "", "", " ", Strip(c), "</s>");
  }

  /** An answer with nothing buffered still emits an empty instruction
      block before it. */
  lemma LoneAnswerHasEmptyBlock(msgs: seq<Message>, c: string)
    requires KnownRoles(msgs) && EndsWithAnswer(msgs)
    ensures Render(msgs).Ok?
    ensures Render(msgs + [Message(Assistant, c)]) ==
      Ok(Render(msgs).value + "[INST]  [/INST] " + Strip(c) + "</s>")
  {
    AnswerLeavesBufferEmpty(msgs);
    var st := RunFrom(Start, msgs).value;
    RunFromSnoc(msgs, Message(Assistant, c), st);
    var grown := st.prompt + InstBlock([]) + AnswerSpan(c);
    CloseEmpty(grown);
    RenderOfRun(msgs + [Message(Assistant, c)], State(grown, []));
    EmptyBlockText(c);
    Regroup3(st.prompt, InstBlock([]), AnswerSpan(c));
    Regroup4(st.prompt, "[INST]  [/INST] ", Strip(c), "</s>");
  }

  lemma EndsWithConcat(a: string, b: string)
    ensures EndsWith(a + b, b)
  {
    assert (a + b)[|a|..] == b;
  }

  lemma EndsWithExtend(a: string, b: string, suffix: string)
    requires EndsWith(b, suffix)
    ensures EndsWith(a + b, suffix)
  {
    assert (a + b)[|a + b| - |suffix|..] == b[|b| - |suffix|..];
  }

  /** No messages render to the empty prompt; a conversation that ends with
      an answer renders to a prompt ending with the end-of-answer token,
      and one that ends with an instruction to a prompt ending with an open
      instruction block (no end-of-answer token after it). */
  lemma RenderEnding(msgs: seq<Message>)
    requires KnownRoles(msgs)
    ensures msgs == [] ==> Render(msgs) == Ok("")
    ensures Render(msgs).Ok?
    ensures msgs != [] && msgs[|msgs| - 1].role == Assistant ==> EndsWith(Render(msgs).value, "</s>")
    ensures msgs != [] && msgs[|msgs| - 1].role != Assistant ==> EndsWith(Render(msgs).value, " [/INST]")
  {
    if msgs == [] {
      CloseEmpty("");
      RenderOfRun(msgs, Start);
    } else {
      var init := msgs[..|msgs| - 1];
      var m := msgs[|msgs| - 1];
      assert msgs == init + [m];
      assert KnownRoles(init) by {
        assert forall i :: 0 <= i < |init| ==> init[i] == msgs[i];
      }
      RunFromOkIff(Start, init);
      var st := RunFrom(Start, init).value;
      if m.role == Assistant {
        assert m == Message(Assistant, m.content);
        AnswerEndsWithToken(init, m.content, st);
      } else {
        InstructionEndsWithMarker(init, m, st);
      }
    }
  }

  lemma AnswerEndsWithToken(init: seq<Message>, c: string, st: State)
    requires RunFrom(Start, init) == Ok(st)
    ensures Render(init + [Message(Assistant, c)]).Ok?
    ensures EndsWith(Render(init + [Message(Assistant, c)]).value, "</s>")
  {
    AnswerStep(init, c, st);
    var grown := st.prompt + InstBlock(st.buffer) + AnswerSpan(c);
    CloseEmpty(grown);
    RenderOfRun(init + [Message(Assistant, c)], State(grown, []));
    EndsWithConcat(" " + Strip(c), "</s>");
    EndsWithExtend(st.prompt + InstBlock(st.buffer), AnswerSpan(c), "</s>");
  }

  lemma InstructionEndsWithMarker(init: seq<Message>, m: Message, st: State)
    requires RunFrom(Start, init) == Ok(st)
    requires m.role == System || m.role == User
    ensures Render(init + [m]).Ok?
    ensures EndsWith(Render(init + [m]).value, " [/INST]")
  {
    InstructionIsBuffered(init, m, st);
    var buffer := st.buffer + [Strip(m.content)];
    RenderOfRun(init + [m], State(st.prompt, buffer));
    assert Close(State(st.prompt, buffer)) == st.prompt + InstBlock(buffer);
    EndsWithConcat("[INST] " + Join("\n", buffer), " [/INST]");
    EndsWithExtend(st.prompt, InstBlock(buffer), " [/INST]");
  }

  /** The loop only ever appends to the prompt. */
  lemma {:induction false} PromptOnlyGrows(st: State, msgs: seq<Message>)
    requires RunFrom(st, msgs).Ok?
    ensures st.prompt <= RunFrom(st, msgs).value.prompt
    decreases |msgs|
  {
    if msgs != [] {
      var next := Step(st, msgs[0]).value;
      PromptOnlyGrows(next, msgs[1..]);
      assert st.prompt <= next.prompt by {
        if msgs[0].role == Assistant {
          var grown := st.prompt + InstBlock(st.buffer) + AnswerSpan(msgs[0].content);
          assert grown[..|st.prompt|] == st.prompt;
        }
      }
    }
  }

  /** Once a conversation ends with an answer, its rendering is a prefix of
      the rendering of any valid continuation of it. */
  lemma RenderExtendsAfterAnswer(msgs: seq<Message>, more: seq<Message>)
    requires KnownRoles(msgs + more) && EndsWithAnswer(msgs)
    ensures Render(msgs).Ok? && Render(msgs + more).Ok?
    ensures Render(msgs).value <= Render(msgs + more).value
  {
    assert KnownRoles(msgs) by {
      assert forall i :: 0 <= i < |msgs| ==> msgs[i] == (msgs + more)[i];
    }
    assert KnownRoles(more) by {
      assert forall i :: 0 <= i < |more| ==> more[i] == (msgs + more)[|msgs| + i];
    }
    AnswerLeavesBufferEmpty(msgs);
    var st := RunFrom(Start, msgs).value;
    RunFromAppend(Start, msgs, more);
    RunFromOkIff(st, more);
    var fin := RunFrom(st, more).value;
    PromptOnlyGrows(st, more);
    var closed := Close(fin);
    assert fin.prompt <= closed by {
      assert closed[..|fin.prompt|] == fin.prompt;
    }
  }

  /** Without the answer at the end the prefix property fails: when the
      conversation ends with an instruction, one more instruction rewrites
      the open block (its closing marker moves behind a newline and the new
      content), so the old rendering is never a prefix of the new one. */
  lemma PendingBlockIsRewritten(msgs: seq<Message>, m: Message)
    requires KnownRoles(msgs) && !EndsWithAnswer(msgs)
    requires m.role == System || m.role == User
    ensures Render(msgs).Ok? && Render(msgs + [m]).Ok?
    ensures !(Render(msgs).value <= Render(msgs + [m]).value)
  {
    var init := msgs[..|msgs| - 1];
    var last := msgs[|msgs| - 1];
    assert msgs == init + [last];
    RunFromOkIff(Start, init);
    RunFromOkIff(Start, msgs);
    var st0 := RunFrom(Start, init).value;
    InstructionIsBuffered(init, last, st0);
    var st := RunFrom(Start, msgs).value;
    var buffer := st.buffer;
    assert |buffer| > 0;
    InstructionIsBuffered(msgs, m, st);
    var x := Strip(m.content);
    var longer := buffer + [x];
    RenderOfRun(msgs, st);
    RenderOfRun(msgs + [m], State(st.prompt, longer));
    var j := Join("\n", buffer);
    assert longer[..|longer| - 1] == buffer;
    assert Join("\n", longer) == j + "\n" + x;
    var head := st.prompt + "[INST] " + j;
    var r1 := Render(msgs).value;
    var r2 := Render(msgs + [m]).value;
    Regroup4(st.prompt, "[INST] ", j, " [/INST]");
    assert r1 == head + " [/INST]";
    Regroup4(st.prompt, "[INST] ", j + "\n" + x, " [/INST]");
    assert r2 == st.prompt + "[INST] " + (j + "\n" + x) + " [/INST]";
    RegroupMiddle(st.prompt + "[INST] ", j, "\n", x, " [/INST]");
    assert r2 == head + ("\n" + x + " [/INST]");
    assert r1[|head|] == ' ';
    assert r2[|head|] == '\n';
  }

  // ---------------------------------------------------------------------
  // A structured conversation and its rendering

  /** One exchange: the instructions (system or user messages) gathered
      since the previous answer, and the answer itself. */
  datatype Turn = Turn(instructions: seq<Message>, answer: string)

  /** A conversation: its exchanges, then the instructions still waiting
      for an answer. */
  datatype Conversation = Conversation(turns: seq<Turn>, pending: seq<Message>)

  predicate Instructional(ms: seq<Message>)
  {
    forall i :: 0 <= i < |ms| ==> ms[i].role == System || ms[i].role == User
  }

  predicate WellFormed(c: Conversation)
  {
    (forall t :: t in c.turns ==> Instructional(t.instructions)) && Instructional(c.pending)
  }

  /** The stripped contents of some messages, in order. */
  function Contents(ms: seq<Message>): (r: seq<string>)
    ensures |r| == |ms|
    decreases |ms|
  {
    if ms == [] then [] else [Strip(ms[0].content)] + Contents(ms[1..])
  }

  function TurnMessages(t: Turn): seq<Message>
  {
    t.instructions + [Message(Assistant, t.answer)]
  }

  function FlattenTurns(ts: seq<Turn>): seq<Message>
    decreases |ts|
  {
    if ts == [] then [] else TurnMessages(ts[0]) + FlattenTurns(ts[1..])
  }

  /** The chat messages a conversation consists of. */
  function Flatten(c: Conversation): seq<Message>
  {
    FlattenTurns(c.turns) + c.pending
  }

  /** One exchange in the Mistral-instruct convention. */
  function SerializeTurn(t: Turn): string
  {
    "[INST] " + Join("\n", Contents(t.instructions)) + " [/INST]" + " " + Strip(t.answer) + "</s>"
  }

  function SerializeTurns(ts: seq<Turn>): string
    decreases |ts|
  {
    if ts == [] then "" else SerializeTurn(ts[0]) + SerializeTurns(ts[1..])
  }

  /** A conversation in the Mistral-instruct convention: every exchange in
      order, then one open instruction block for the pending instructions,
      if any. */
  function Serialize(c: Conversation): string
  {
    SerializeTurns(c.turns) +
    (if |c.pending| > 0 then "[INST] " + Join("\n", Contents(c.pending)) + " [/INST]" else "")
  }

  lemma {:induction false} RunInstructions(st: State, ms: seq<Message>)
    requires Instructional(ms)
    ensures RunFrom(st, ms) == Ok(State(st.prompt, st.buffer + Contents(ms)))
    decreases |ms|
  {
    if ms == [] {
      assert st.buffer + [] == st.buffer;
    } else {
      var next := State(st.prompt, st.buffer + [Strip(ms[0].content)]);
      assert Step(st, ms[0]) == Ok(next);
      assert Instructional(ms[1..]) by {
        assert forall i :: 0 <= i < |ms[1..]| ==> ms[1..][i] == ms[i + 1];
      }
      RunInstructions(next, ms[1..]);
      Regroup3(st.buffer, [Strip(ms[0].content)], Contents(ms[1..]));
    }
  }

  lemma RunTurn(p: string, t: Turn)
    requires Instructional(t.instructions)
    ensures RunFrom(State(p, []), TurnMessages(t)) == Ok(State(p + SerializeTurn(t), []))
  {
    var st := State(p, []);
    var a := Message(Assistant, t.answer);
    var contents := Contents(t.instructions);
    RunFromAppend(st, t.instructions, [a]);
    RunInstructions(st, t.instructions);
    assert [] + contents == contents;
    var buffered := State(p, contents);
    RunFromOne(buffered, a);
    var grown := p + InstBlock(contents) + AnswerSpan(t.answer);
    assert Step(buffered, a) == Ok(State(grown, []));
    RegroupTail(p, "[INST] ", Join("\n", contents), " [/INST]", " ", Strip(t.answer), "</s>");
    assert grown == p + SerializeTurn(t);
  }

  lemma {:induction false} RunTurns(p: string, ts: seq<Turn>)
    requires forall t :: t in ts ==> Instructional(t.instructions)
    ensures RunFrom(State(p, []), FlattenTurns(ts)) == Ok(State(p + SerializeTurns(ts), []))
    decreases |ts|
  {
    if ts == [] {
      assert p + "" == p;
    } else {
      RunFromAppend(State(p, []), TurnMessages(ts[0]), FlattenTurns(ts[1..]));
      RunTurn(p, ts[0]);
      RunTurns(p + SerializeTurn(ts[0]), ts[1..]);
      Regroup3(p, SerializeTurn(ts[0]), SerializeTurns(ts[1..]));
    }
  }

  /** The loop renders a well-formed conversation exactly as the structured
      serialisation does. */
  lemma RenderIsSerialize(c: Conversation)
    requires WellFormed(c)
    ensures Render(Flatten(c)) == Ok(Serialize(c))
  {
    var done := SerializeTurns(c.turns);
    var contents := Contents(c.pending);
    RunFromAppend(Start, FlattenTurns(c.turns), c.pending);
    RunTurns("", c.turns);
    assert "" + done == done;
    RunInstructions(State(done, []), c.pending);
    assert [] + contents == contents;
    var fin := State(done, contents);
    assert RunFrom(Start, Flatten(c)) == Ok(fin);
    RenderOfRun(Flatten(c), fin);
    assert |contents| == |c.pending|;
    assert Close(fin) == Serialize(c);
  }

  lemma FlattenTurnsCons(t: Turn, ts: seq<Turn>)
    ensures FlattenTurns([t] + ts) == TurnMessages(t) + FlattenTurns(ts)
  {
    assert ([t] + ts)[1..] == ts;
  }

  /** An answer in front of a conversation opens a turn with no
      instructions. */
  lemma PrependAnswer(m: Message, rest: Conversation)
    requires m.role == Assistant
    ensures Flatten(Conversation([Turn([], m.content)] + rest.turns, rest.pending)) == [m] + Flatten(rest)
  {
    FlattenTurnsCons(Turn([], m.content), rest.turns);
    assert TurnMessages(Turn([], m.content)) == [m];
    Regroup3([m], FlattenTurns(rest.turns), rest.pending);
  }

  /** An instruction in front of a conversation with turns joins its first
      turn. */
  lemma PrependToTurn(m: Message, rest: Conversation)
    requires |rest.turns| > 0
    ensures Flatten(Conversation([Turn([m] + rest.turns[0].instructions, rest.turns[0].answer)] + rest.turns[1..],
                                 rest.pending)) == [m] + Flatten(rest)
  {
    var t := rest.turns[0];
    var t' := Turn([m] + t.instructions, t.answer);
    assert rest.turns == [t] + rest.turns[1..];
    FlattenTurnsCons(t, rest.turns[1..]);
    FlattenTurnsCons(t', rest.turns[1..]);
    assert TurnMessages(t') == [m] + TurnMessages(t);
    Regroup3([m], TurnMessages(t), FlattenTurns(rest.turns[1..]));
    Regroup3([m], TurnMessages(t) + FlattenTurns(rest.turns[1..]), rest.pending);
  }

  /** An instruction in front of a conversation without turns joins its
      pending instructions. */
  lemma PrependToPending(m: Message, rest: Conversation)
    requires rest.turns == []
    ensures Flatten(Conversation([], [m] + rest.pending)) == [m] + Flatten(rest)
  {
    assert FlattenTurns([]) == [];
    assert [] + ([m] + rest.pending) == [m] + rest.pending;
    assert [] + rest.pending == rest.pending;
  }

  /** The structured view of a list of chat messages with known roles: the
      messages split after each answer. */
  function Group(msgs: seq<Message>): (c: Conversation)
    requires KnownRoles(msgs)
    ensures WellFormed(c) && Flatten(c) == msgs
    decreases |msgs|
  {
    if msgs == [] then Conversation([], [])
    else
      assert KnownRoles(msgs[1..]) by {
        assert forall i :: 0 <= i < |msgs[1..]| ==> msgs[1..][i] == msgs[i + 1];
      }
      var rest := Group(msgs[1..]);
      var m := msgs[0];
      assert msgs == [m] + msgs[1..];
      if m.role == Assistant then
        PrependAnswer(m, rest);
        Conversation([Turn([], m.content)] + rest.turns, rest.pending)
      else if |rest.turns| > 0 then
        var t := rest.turns[0];
        var t' := Turn([m] + t.instructions, t.answer);
        assert Instructional(t'.instructions) by {
          assert forall i :: 0 < i < |t'.instructions| ==> t'.instructions[i] == t.instructions[i - 1];
        }
        PrependToTurn(m, rest);
        Conversation([t'] + rest.turns[1..], rest.pending)
      else
        var pending := [m] + rest.pending;
        assert Instructional(pending) by {
          assert forall i :: 0 < i < |pending| ==> pending[i] == rest.pending[i - 1];
        }
        PrependToPending(m, rest);
        Conversation([], pending)
  }

  /** Every list of chat messages with known roles renders as the
      structured serialisation of its conversation. */
  lemma RenderIsSerializeOfGroup(msgs: seq<Message>)
    requires KnownRoles(msgs)
    ensures Render(msgs) == Ok(Serialize(Group(msgs)))
  {
    RenderIsSerialize(Group(msgs));
  }
}
