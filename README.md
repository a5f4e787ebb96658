# rust-rag request shaping and batch results, in Dafny

This project models the core of a retrieval-augmented-generation layer that
sits between application code and two backends: an Ollama inference server
and a Qdrant vector store. The model covers four parts:

- **Question** (`question.dfy`). A question is a value. It holds a system
  prompt, the question text, the context lines and a model name. It is built
  by `From<String>` or `From<&str>` and changed by setters that return the
  updated value. `get_prompt` renders it as three parts, one per line: the
  system prompt, the question, and the context lines joined by line breaks.
  `Into<GenerationRequest>` sends the model name and that prompt.
- **Chat** (`chat.dfy`). A chat is a class whose history is a field. The
  two `add_*_message` methods push one turn onto it in place. `into_request`
  builds the message list by pushing a system message and then extending
  with the history.
- **OllamaService** (`inference.dfy`). This covers single and batched
  generation and embedding calls. The client's network calls are the
  function-valued fields of the `Ollama` value (`ollama_api.dfy`): each
  request maps to a `Result`. The `join_all` fan-out is `JoinAll`, an
  order-preserving map. There are three result shapes:
  - strict: one `Result` per input;
  - parsed: `T::from` applied to each success;
  - collapsed: `r.ok()`, where each failure becomes `None`.
- **EmbeddingVector to SearchPoints** (`embedding.dfy`). This builds the
  search query from a vector. The vector passes through unchanged. The limit
  is 10, payloads are requested and vectors are not.

`strings.dfy` defines `Join` (Rust's `[String]::join`) and `Split`, its
inverse. The lemmas use `Split` to show that a rendered prompt reads back.
`wrappers.dfy` holds `Option` and `Result`.

Three facts about the code shape the model:

- `T::from` is an infallible `From`, so the backend call is the only
  failure source of the parsed variants. `ParseWith` adds none.
- The search limit is the constant 10.
- `set_embedding_vectors` and `prepare_for_upload` are declared without an
  implementation.

## Model

| member | source | states |
|---|---|---|
| Strings.Join | src/shared/question.rs:50 | the joined length is the sum of the part lengths plus one separator between each pair of neighbours; no parts join to the empty string |
| Strings.SplitJoin | src/shared/question.rs:50 | splitting a line-joined list at the separator gives the list back when no part contains the separator |
| Strings.JoinSplit | src/shared/question.rs:50 | joining the pieces of any split gives the original string back |
| Question.FromString | src/shared/question.rs:11-20 | stores the text as the question, with empty context, model "phi4" and the "…based on provided context." system prompt |
| Question.FromStr | src/shared/question.rs:22-31 | the same defaults, except the system prompt is spelled "…baased…" |
| Question.FromStringAndFromStrDiffer | src/shared/question.rs:11-31 | for every text the two conversions give different system prompts and agree on every other field |
| Question.SetSystemPrompt | src/shared/question.rs:41-44 | replaces the system prompt and leaves the question, context and model unchanged |
| Question.SetModel | src/shared/question.rs:62-65 | replaces the model and leaves the other three fields unchanged |
| Question.SetQuestion | src/shared/question.rs:67-70 | replaces the question text and leaves the other three fields unchanged |
| Question.SetContext | src/shared/question.rs:72-75 | replaces the context and leaves the other three fields unchanged |
| Question.SetThenGet | src/shared/question.rs:77-83 | `get_system_prompt` after `set_system_prompt(p)` returns p; `get_model` after `set_model(m)` returns m |
| Question.SettersCommute | src/shared/question.rs:41-75 | every two setters of different fields commute (all six pairs), and for each of the four fields a second set overrides the first |
| Question.GetPrompt | src/shared/question.rs:46-60 | the prompt starts with system prompt, newline, question, newline; its length is those plus the joined context; with no context it ends in a newline |
| Question.GetPromptIsJoin | src/shared/question.rs:47-58 | the empty-context branch agrees with joining an empty list; the prompt is the line-join of system prompt, question and context (or one empty line) |
| Question.GetPromptLines | src/shared/question.rs:46-60 | when no field holds a line break, splitting the prompt at line breaks gives back system prompt, question and context lines |
| Question.GetPromptInjective | src/shared/question.rs:46-60 | two such questions with non-empty context render the same prompt only if their system prompt, question and context are equal |
| Question.GetPromptIgnoresModel | src/shared/question.rs:46-60 | the prompt does not depend on the model |
| Question.IntoGenerationRequest | src/shared/question.rs:33-38 | the request carries the question's model and exactly `get_prompt()`; the request's separate system field stays unset |
| Chat.RenderRequest | src/shared/chat.rs:47-54 | the request has one message more than the history: first a system message with the stored system prompt, then the history in order; the model is the chat's |
| Chat.SystemMessageOnlyFirst | src/shared/chat.rs:44-54 | if the history holds only user and assistant turns, position i of the request is a system message exactly when i is 0 |
| Chat.RenderRequestAppend | src/shared/chat.rs:33-54 | adding a turn adds exactly that message at the end of the request |
| Chat.Chat.constructor | src/shared/chat.rs:12-18 | system prompt "You are a helpful assistant.", empty history, model "llama2:latest" |
| Chat.Chat.SetModel | src/shared/chat.rs:21-24 | sets the model; system prompt and history unchanged |
| Chat.Chat.SetSystemPrompt | src/shared/chat.rs:27-30 | sets the system prompt; model and history unchanged |
| Chat.Chat.AddUserMessage | src/shared/chat.rs:33-36 | the history becomes the old history plus one user message with the given content; the other fields are unchanged |
| Chat.Chat.AddAssistantMessage | src/shared/chat.rs:39-42 | the history becomes the old history plus one assistant message with the given content; the other fields are unchanged |
| Chat.Chat.IntoRequest | src/shared/chat.rs:47-54 | the request built by push-then-extend is `RenderRequest` of the chat's current state, and its only system message is the one at position 0 |
| Chat.RequestFromChat | src/shared/chat.rs:57-61 | `ChatMessageRequest::from(chat)` is the same request as `into_request` |
| Chat.Conversation | src/shared/chat.rs:27-54 | after setting a system prompt and adding user, assistant and user turns, the request is the system message followed by those turns in the order they were added |
| Embedding.IntoSearchPoints | src/shared/embedding.rs:21-31 | collection from the QDRANT_COLLECTION setting (panics if unset), vector equal to the embedding's components, limit 10, payload on, vectors off, the other modelled fields unset |
| Embedding.SearchPointsKeepVector | src/shared/embedding.rs:25 | the query's vector reads back as the embedding, and distinct embeddings give distinct queries |
| Inference.JoinAll | src/inference/ollama.rs:47-54 | same length as the input, and output i is the call's outcome for input i |
| Inference.CollectOk | src/inference/ollama.rs:67-70 | same length; position i is None exactly where result i is an error, and otherwise holds result i's value |
| Inference.JoinAllAppend | src/inference/ollama.rs:47-54 | one batch over a + b equals the batch over a followed by the batch over b |
| Inference.JoinAllIsolated | src/inference/ollama.rs:60-65 | replacing input j changes output j only: one item's outcome never affects another's |
| Inference.ParseWith | src/inference/ollama.rs:56-58 | Ok exactly when the call succeeded, holding `T::from` of the response; otherwise the wrapped client error |
| Inference.GenerateSeesRequestOnly | src/inference/ollama.rs:39-41 | `generate` depends only on the question's model and rendered prompt |
| Inference.GenerateAll | src/inference/ollama.rs:47-54 | same length as the questions (empty for none), and result i is `generate(qs[i])` |
| Inference.GenerateAndParse | src/inference/ollama.rs:56-58 | Ok(`T::from(r)`) exactly when `generate` returns Ok(r); otherwise its error, wrapped; no other failure |
| Inference.GenerateAndParseAllResults | src/inference/ollama.rs:60-65 | same length, and result i is `generate_and_parse(qs[i])` |
| Inference.GenerateAndParseAll | src/inference/ollama.rs:67-70 | same length; None at i exactly where the per-item result (and so `generate(qs[i])`) is an error; otherwise `T::from` of the response |
| Inference.ParseAllResultsFollowGenerateAll | src/inference/ollama.rs:60-65 | the parsed batch is the strict batch with `T::from` applied to each success |
| Inference.SecondCallFails | src/inference/ollama.rs:47-70 | if the second of two calls fails, the three shapes give [Ok(a), Err(e)], [Ok(from(a)), Err(e)] and [Some(from(a)), None] |
| Inference.EmbedAll | src/inference/ollama.rs:85-94 | same length, and result i is `embed(es[i])`, i.e. `embed_req(es[i].into_embed())` |
| Inference.EmbedAndParse | src/inference/ollama.rs:96-99 | Ok(`T::from(r)`) exactly when `embed` returns Ok(r); otherwise its error, wrapped |
| Inference.EmbedAndParseAllResults | src/inference/ollama.rs:101-106 | same length, and result i is `embed_and_parse(es[i])` |
| Inference.EmbedAndParseAll | src/inference/ollama.rs:108-111 | same length; None at i exactly where `embed(es[i])` fails; otherwise `T::from` of the response |
| Inference.EmbedParseAllResultsFollowEmbedAll | src/inference/ollama.rs:101-106 | the parsed embedding batch is the strict batch with `T::from` applied to each success |

`generate` (`Inference.Generate`), `embed_req` (`Inference.EmbedReq`),
`embed` (`Inference.Embed`), `get_system_prompt` (`Question.GetSystemPrompt`,
src/shared/question.rs:77-79) and `get_model` (`Question.GetModel`,
src/shared/question.rs:81-83) are one-line compositions or field reads. They
have no contract of their own. The rows above that mention them state their
properties; `Question.SetThenGet` covers the two getters.

`get_prompt` takes `&self`. It is a function here, so it cannot change the
question, and repeated calls give equal strings.

## Left out

- Network calls. `Ollama::generate` and `generate_embeddings` are the
  function-valued fields of the client value. The same request therefore
  always gets the same outcome. A real model's sampling is not modelled.
  `search_points` and `upsert_points` are not modelled.
- Concurrency. `join_all` is modelled as an ordered sequential map. Task
  scheduling and the unbounded fan-out are not modelled.
- `generate_stream` and `GenerationResponseStream`. These are streaming
  types from the client library.
- `OllamaService::new` and `OllamaService::default`. Both construct the
  client from a host and port; `default` reads them from the environment and
  panics if they are absent. The model takes the client value as given.
- src/db/qdrant.rs. It is I/O plumbing around the Qdrant client. The
  chunk-to-point conversion it uses is in `embedded_chunk.rs`, which is not
  part of this model.
- The `Embeddable` methods `set_embedding_vectors` and `prepare_for_upload`.
  They are declared without an implementation in this code. `into_embed`
  appears only as a function parameter.
- f32 arithmetic. Vector components are only passed along, so each one is
  its 32-bit pattern.
- The fields that the client library's request and response types, and
  Qdrant's `SearchPoints`, leave at their defaults. Only `offset`,
  `score_threshold` and `vector_name` are kept. `with_payload` and
  `with_vectors` are modelled as optional booleans, not as the selector
  types.
- The `Box::leak` of the rendered prompt in `Into<GenerationRequest>`. It
  only extends a lifetime.
- Reading `QDRANT_COLLECTION` is a lookup in an environment map, and the
  panic on a missing key is a precondition. Non-Unicode values are not
  modelled.
- Ownership. Consuming `self` in `into_request`, and Rust's move semantics
  in the setters, are not modelled. The chat is a mutable object, and the
  question is an immutable value.
