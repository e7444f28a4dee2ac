# Mistral-instruct prompt serialiser of csv-ui

This project models the prompt serialiser in `llm_handler.py` and proves properties of the model. The serialiser turns an ordered list of chat messages into the `[INST] … [/INST]` delimiter convention of the Mistral-7B-Instruct model that the module loads. It has two functions:

- `messages_to_prompt` loops over the messages.
  - It buffers the stripped contents of `system` and `user` messages.
  - On an `assistant` message it flushes the buffer as one instruction block, then adds the stripped answer and `</s>`.
  - It raises `ValueError` on any other role.
  - After the loop, a non-empty buffer becomes one trailing open instruction block.
  - It has no `return` statement, so it returns `None`.
- `completion_to_prompt` wraps one stripped completion string in the same markers.

Files:

- `python_str.dfy` (module `PyStr`): the Python built-ins the serialiser uses.
  - `str.strip()` with no argument, with Python's whitespace set written out by code point.
  - `str.join`.
- `llm_handler.dfy` (module `LlmHandler`): the data model and the operations.
  - The data model: `Role`, `Message`, the `ValueError` as `RoleError`, and `Outcome` for what a Python call observably does.
  - The pure specification: `Step`, `RunFrom`, `Close` and `Render`.
  - `BuildPrompt`: the imperative loop, proved equal to `Render`.
  - `MessagesToPrompt` (the function as written) and `MessagesToPromptIntended`.
  - `CompletionToPrompt`.
- `llm_handler_props.dfy` (module `LlmHandlerProps`): lemmas for the properties the serialiser promises.
  - It also defines a structured conversation type: a sequence of turns (instructions plus an answer), then the pending instructions.
  - It gives that type its own serialisation, `Serialize`, and proves that the loop renders every conversation exactly as `Serialize` does.

## Model

| member | source | states |
|---|---|---|
| LlmHandler.Step | llm_handler.py:30-38 | The definition of one loop iteration, with no contract of its own: a system or user message appends its stripped content to the buffer, an assistant message appends the block and the answer to the prompt and empties the buffer, any other role is the error. It is characterised by LlmHandlerProps.InstructionIsBuffered, LlmHandlerProps.SystemActsAsUser, LlmHandlerProps.AnswerFlushesBuffer and LlmHandlerProps.LoneAnswerHasEmptyBlock. |
| LlmHandler.RunFrom | llm_handler.py:29-38 | The definition of the loop as a fold of `Step`, stopping at the first error, with no contract of its own. It is characterised by LlmHandlerProps.RunFromAppend, LlmHandlerProps.RunFromOkIff, LlmHandlerProps.RunFromFailsAtFirstUnknown, LlmHandlerProps.PromptOnlyGrows and LlmHandlerProps.RunInstructions. |
| LlmHandler.Close | llm_handler.py:40-41 | The definition of the statement after the loop, with no contract of its own: a non-empty buffer becomes one trailing open block. It is characterised by LlmHandlerProps.RenderEnding and LlmHandlerProps.AnswerLeavesBufferEmpty. |
| LlmHandler.Render | llm_handler.py:24-41 | The definition of the whole serialisation, `RunFrom` from the empty state followed by `Close`, with no contract of its own. LlmHandler.BuildPrompt is proved equal to it; LlmHandlerProps.RenderFailsIffUnknownRole and LlmHandlerProps.RenderIsSerialize characterise it. |
| PyStr.IsSpace | llm_handler.py:31 | The definition of the whitespace set that the no-argument `.strip()` removes, code point by code point, with no contract of its own. The PyStr strip functions and lemmas are stated in terms of it. |
| PyStr.Strip | llm_handler.py:31 | The definition of the no-argument `.strip()` used at lines 31, 35 and 47, as `rstrip` after `lstrip`, with no contract of its own. It is characterised by PyStr.StripIsTrimmedSlice, PyStr.StripIsTrimmed, PyStr.StripIdempotent and PyStr.StripKeepsTrimmed. |
| LlmHandler.BuildPrompt | llm_handler.py:24-41 | The loop and the final block compute exactly `Render(messages)`. The result is the prompt built from the buffer and prompt state, or the error of the first unknown role, which stops the loop. |
| LlmHandler.MessagesToPrompt | llm_handler.py:24-43 | As written, the function raises exactly when `Render` fails, with the same error. Otherwise it returns `None`: the built prompt is discarded. |
| LlmHandler.MessagesToPromptIntended | llm_handler.py:24-41 | With the missing `return prompt` added, the function returns the prompt `Render` builds, or raises the same error. |
| LlmHandler.DiscardedPromptExample | llm_handler.py:24-43 | For a single user message, the as-written function returns `None`. The intended function returns `"[INST] " + strip(content) + " [/INST]"` for the same input. |
| LlmHandler.CompletionToPrompt | llm_handler.py:45-47 | `completion_to_prompt(c)` is exactly the prompt `messages_to_prompt` builds for the one-message conversation `[user: c]`, and for `[system: c]`. |
| LlmHandler.OneInstruction | llm_handler.py:40-41 | A conversation of one system or user message renders to `"[INST] " + strip(content) + " [/INST]"`. |
| LlmHandler.RoleFromName | llm_handler.py:30-38 | A role is classified by its name. It is `Other` exactly when the name is none of `system`, `user` or `assistant`. The name can be recovered from the role. |
| LlmHandlerProps.RenderFailsIffUnknownRole | llm_handler.py:29-38 | A prompt is built if and only if every role is known. Otherwise the error names the first message whose role is unknown. |
| LlmHandlerProps.RunFromOkIff | llm_handler.py:29-38 | From any state, the loop finishes if and only if no message has an unknown role. |
| LlmHandlerProps.RunFromFailsAtFirstUnknown | llm_handler.py:37-38 | A failing loop fails at a message with an unknown role. All messages before that one have known roles. |
| LlmHandlerProps.InstructionIsBuffered | llm_handler.py:30-31 | A system or user message appends its stripped content to the buffer and leaves the prompt unchanged. |
| LlmHandlerProps.SystemActsAsUser | llm_handler.py:30-31 | A system message and a user message with the same content are interchangeable at any position of any conversation. |
| LlmHandlerProps.AnswerFlushesBuffer | llm_handler.py:33-36 | An assistant message appends exactly `"[INST] " + "\n".join(buffer) + " [/INST]" + " " + strip(content) + "</s>"` to the prompt and leaves the buffer empty. |
| LlmHandlerProps.AnswerLeavesBufferEmpty | llm_handler.py:33-41 | After a conversation that is empty or ends with an answer, the buffer is empty and the rendering is the prompt alone. |
| LlmHandlerProps.LoneAnswerHasEmptyBlock | llm_handler.py:33-35 | An answer with nothing buffered still emits an empty instruction block: `"[INST]  [/INST] " + strip(content) + "</s>"`. |
| LlmHandlerProps.RenderEnding | llm_handler.py:40-41 | No messages render to `""`. A conversation ending with an answer renders to a prompt ending in `</s>`. One ending with an instruction renders to a prompt ending in the open marker ` [/INST]`. |
| LlmHandlerProps.PromptOnlyGrows | llm_handler.py:27-36 | The loop only appends: the prompt before any run is a prefix of the prompt after it. |
| LlmHandlerProps.RenderExtendsAfterAnswer | llm_handler.py:27-41 | If a conversation is empty or ends with an answer, its rendering is a prefix of the rendering of every continuation with known roles. |
| LlmHandlerProps.PendingBlockIsRewritten | llm_handler.py:30-31 | The converse: if a conversation ends with an instruction, appending one more instruction rewrites the open block. The old rendering is then never a prefix of the new one. |
| LlmHandlerProps.RunFromAppend | llm_handler.py:29-38 | Running the loop over `a + b` is running it over `a` and then, from the resulting state, over `b`. An error in `a` stops the run. |
| LlmHandlerProps.RunInstructions | llm_handler.py:30-31 | A run of system and user messages appends their stripped contents to the buffer, in order, and emits nothing. |
| LlmHandlerProps.RunTurn | llm_handler.py:30-36 | Instructions followed by an answer, run from an empty buffer, append the serialisation of that one turn and empty the buffer again. |
| LlmHandlerProps.RunTurns | llm_handler.py:29-36 | A sequence of turns appends the serialisations of the turns in order. |
| LlmHandlerProps.RenderIsSerialize | llm_handler.py:24-41 | For every well-formed structured conversation, the loop's rendering of its messages equals the structured serialisation: each turn's block and answer, then one open block for the pending instructions. |
| LlmHandlerProps.Group | llm_handler.py:29-36 | Every message list with known roles can be split after each answer into a well-formed structured conversation whose messages are exactly that list. |
| LlmHandlerProps.RenderIsSerializeOfGroup | llm_handler.py:24-41 | Every message list with known roles renders as the structured serialisation of its conversation. |
| PyStr.StripLeading | llm_handler.py:31 | `lstrip` returns a suffix of its input. Everything it drops is whitespace, and the result does not start with whitespace. |
| PyStr.StripTrailing | llm_handler.py:31 | `rstrip` returns a prefix of its input. Everything it drops is whitespace, and the result does not end with whitespace. |
| PyStr.StripIsTrimmedSlice | llm_handler.py:31 | `strip` returns one contiguous slice of its input, and everything cut off on either side is whitespace. |
| PyStr.StripIsTrimmed | llm_handler.py:31 | The result of `strip` neither starts nor ends with whitespace. |
| PyStr.StripIdempotent | llm_handler.py:31 | A property of the `.strip()` applied at lines 31, 35 and 47: stripping twice is the same as stripping once. |
| PyStr.StripKeepsTrimmed | llm_handler.py:31 | A property of the `.strip()` applied at lines 31, 35 and 47: a string with no leading and no trailing whitespace is its own strip. |
| PyStr.Join | llm_handler.py:34 | `sep.join(parts)` starts with the first part and ends with the last part. |
| PyStr.JoinFront | llm_handler.py:34 | A property of the `"\n".join` applied at lines 34 and 41: the join seen from the front is the first part, the separator, and the join of the remaining parts. |

## Left out

- The module-level database loading is not modelled: the SQLAlchemy engine, the read-only SQLite backup into memory and the `SELECT COUNT(*)` check (llm_handler.py:11-19). They are I/O against an external database.
- The tokenizer download, the `LlamaCPP` model, the HuggingFace embedding, `Settings`, `SQLDatabase`, `NLSQLTableQueryEngine` and `ask_sk1` are not modelled (llm_handler.py:21, 50-88). They are foreign library calls and model inference.
- lammacpp.py, app_ui.py and stream_backup.py are not part of this model. They are LangChain/Ollama configuration, Streamlit layout, pandas file I/O and SQLite writes.
- Message contents and the completion are modelled as strings. `str(message.content)` (llm_handler.py:31, 35) and `str(completion)` in `CompletionToPrompt` (llm_handler.py:47) are not modelled for non-string values (for example `None`, which becomes `"None"`), because the conversion of arbitrary Python objects is outside the serialiser.
- The role is modelled as a value with three known names and `Other(name)`, whose name is typed to exclude the three. The error carries the role's name but not the formatted text `f"Unknown message role {message.role}"`. For an enum-valued role that text depends on the Python version's formatting of enums.
- Whitespace follows Python's `str.isspace` set code point by code point. Unicode normalisation, case and encodings play no part in the serialiser and are not modelled.

## Findings

| source | as written | input that shows it | evidently intended | confidence | as-written member | corrected member |
|---|---|---|---|---|---|---|
| llm_handler.py:24-43 | `messages_to_prompt` builds `prompt` but has no `return` statement, so it returns `None` | `[user: "hi"]`: the prompt `"[INST] hi [/INST]"` is built and discarded | `return prompt` after the final block, as `completion_to_prompt` returns its string | high; not executed | LlmHandler.MessagesToPrompt (shown by LlmHandler.DiscardedPromptExample) | LlmHandler.MessagesToPromptIntended |
