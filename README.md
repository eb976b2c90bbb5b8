# Chatbot session and request composition, modelled in Dafny

This project models the core of a single-page Streamlit chatbot (`99-Project/01-ChatBot/main.py`).
The chatbot keeps the conversation history in the session state. Each turn it builds a
two-message request for a hosted language model, streams the reply, and records the exchange.

- `chat_types.dfy` (module `ChatTypes`): chat messages with their roles, and the outbound
  messages (`SystemMessage`, `HumanMessage`). It also holds the abstract backend outcome:
  either generation failed, or some chunks were streamed and the stream may have been
  interrupted.
- `request_composer.dfy` (module `RequestComposer`): the length-preference lookup with its
  fallback, the enhanced system prompt, and the request. The request is always exactly the
  system prompt followed by the user's text. It never contains earlier turns.
- `streaming.dfy` (module `Streaming`): the reply is the verbatim, in-order concatenation of the
  streamed chunks. `WriteStream` accumulates them in a loop.
- `session_store.dfy` (module `SessionStore`): the class `SessionState`, whose `messages` field
  is the session's "messages" entry (`None` while the key is absent). It has methods for
  initialising, appending, clearing, handling one turn and running the page once. The pure
  functions `TurnRecord`, `Replay` and `Transcript` state what turns record, and lemmas
  about them cover sequences of turns.

The generation backend is a parameter of the turn handler: a total function from the request
to a `StreamOutcome`. Whatever it answers, the history changes only by `TurnRecord`. That
record is either nothing, or the user's text followed by the whole reply.

## Model

| member | source | states |
|---|---|---|
| `RequestComposer.LengthInstruction` | 99-Project/01-ChatBot/main.py:86-94 | The lookup never fails and never returns an empty string. It returns the fallback instruction exactly when the label is not one of the four sidebar labels, and otherwise returns one of the table's instructions. |
| `RequestComposer.KnownLengthInstructions` | 99-Project/01-ChatBot/main.py:88-93 | Each of "간단", "보통", "자세함" and "매우 자세함" yields its own fixed instruction text. |
| `RequestComposer.LengthInstructionInjective` | 99-Project/01-ChatBot/main.py:88-93 | The four instructions are pairwise distinct, so two recognised labels with the same instruction are the same label. |
| `RequestComposer.EnhancedSystemPrompt` | 99-Project/01-ChatBot/main.py:110-111 | The enhanced prompt starts with the user's system prompt, continues with "\n\n답변 스타일: " and ends with the length instruction. Its length is the sum of the three parts. |
| `RequestComposer.EnhancedPromptDeterminesSystemPrompt` | 99-Project/01-ChatBot/main.py:111 | For a fixed length label, equal enhanced prompts come from equal system prompts. |
| `RequestComposer.EnhancedPromptDistinguishesLabels` | 99-Project/01-ChatBot/main.py:110-111 | For a fixed system prompt, two different recognised labels give different enhanced prompts, so the length choice always reaches the backend. |
| `RequestComposer.ComposeRequest` | 99-Project/01-ChatBot/main.py:114-117 | The request has exactly two messages: a system message carrying the enhanced prompt, then a human message carrying the user's text unchanged (also when empty). History is not an argument, so the request cannot depend on it. |
| `RequestComposer.ComposeRequestInjective` | 99-Project/01-ChatBot/main.py:114-117 | For a fixed length label, the request determines both the user's text and the system prompt it was built from. |
| `Streaming.ConcatSplit` | 99-Project/01-ChatBot/main.py:155 | Concatenating a stream split anywhere gives the same reply, so chunk boundaries carry no meaning. |
| `Streaming.ConcatChunkAt` | 99-Project/01-ChatBot/main.py:155 | Every chunk appears verbatim in the reply, right after the text of the chunks that arrived before it. |
| `Streaming.WriteStream` | 99-Project/01-ChatBot/main.py:155 | Consuming the stream returns a reply exactly when the stream is not interrupted. That reply is the in-order concatenation of all chunks. |
| `SessionStore.TurnRecord` | 99-Project/01-ChatBot/main.py:139-163 | A turn records either nothing or exactly two messages, never a lone user message. It records two exactly when text was submitted and the stream completed. The two are ("user", text) then ("assistant", reply). |
| `SessionStore.ReplayAppendsTranscript` | 99-Project/01-ChatBot/main.py:139-163 | Successive turns only add to the end. The earlier history stays a prefix, followed by each turn's record in turn order. |
| `SessionStore.CompletedTurnsInterleave` | 99-Project/01-ChatBot/main.py:158-159 | When every turn succeeds, n turns record 2n messages in chronological order: user 1, assistant 1, user 2, assistant 2, and so on. |
| `SessionStore.FailedTurnLeavesNoTrace` | 99-Project/01-ChatBot/main.py:140-163 | A turn whose generation or streaming raised leaves the same history as if it had never been submitted, wherever it falls among other turns. |
| `SessionStore.SessionState.constructor` | 99-Project/01-ChatBot/main.py:22 | A new session has no "messages" entry. |
| `SessionStore.SessionState.InitHistory` | 99-Project/01-ChatBot/main.py:22-24 | Creates an empty history only when none exists. An existing history is kept unchanged. |
| `SessionStore.SessionState.AddMessage` | 99-Project/01-ChatBot/main.py:80-82 | Appends exactly one (role, content) message. The old history is a prefix of the new one, and nothing else changes. |
| `SessionStore.SessionState.ClearHistory` | 99-Project/01-ChatBot/main.py:128-129 | The history becomes empty whatever it held, so clearing twice is the same as clearing once. |
| `SessionStore.SessionState.HandleTurn` | 99-Project/01-ChatBot/main.py:139-163 | Empty input does nothing and composes no request. Otherwise it composes the request from the settings and the text alone. The new history is the old one plus the `TurnRecord` of the backend's answer to that request, so a failure leaves the history exactly as before. |
| `SessionStore.SessionState.Run` | 99-Project/01-ChatBot/main.py:22-163 | One page run. A pressed clear button leaves an empty history and composes no request. Otherwise the history, created empty if absent, gains exactly the turn's record. |

## Left out

- The widgets and rendering are not modelled: title, sidebar select boxes, slider, text area, `print_messages`, `st.chat_message`, `st.info`, `st.error` and the settings captions. They are presentation only.
- `ChatOpenAI` and `llm.stream` are calls into LangChain and OpenAI. They are replaced by the `backend` parameter, whose answer is a `StreamOutcome`.
- The source builds the `ChatOpenAI` client before it composes the request. A failure there is modelled as the backend answering `GenerationFailed`. The model therefore still composes the request in that case, but no history change depends on it.
- `st.write_stream` is reduced to accumulating the chunks in order. How it renders them, and the partial text it shows before an interruption, are not modelled.
- `load_dotenv` and the LangSmith logging setup are environment and I/O setup.
- The temperature slider and the model-name catalog are passed straight to the backend with no logic of their own.
- The `RuntimeError` message text is not modelled. Only the fact that a failure occurred affects the history.
- `st.rerun` is not modelled as a restart. `Run` stops after clearing, because the fresh run sees neither the click nor any input.
- `chat_input` returns `None` when nothing was submitted. Both `None` and the empty string are falsy in the source, so the model represents "nothing submitted" by the empty string.
- Roles are the three enumerants `User`, `Assistant` and `System`. The source passes the strings "user" and "assistant".
- A clear racing with an in-flight turn is not modelled. Each run of the page is sequential.
