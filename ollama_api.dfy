/** The types of the `ollama-rs` client library that the core exchanges with
    the inference backend, and the client itself. Only the fields the core
    sets or reads are kept. */
module OllamaApi {
  import opened Wrappers

  /** An `f32` as its 32-bit pattern: the core only passes components along. */
  datatype F32 = F32(bits: bv32)

  /** `GenerationRequest::new(model_name, prompt)`: every optional field,
      among them the separate `system` field, is left unset. */
  datatype GenerationRequest = GenerationRequest(modelName: string, prompt: string, system: Option<string>)

  datatype GenerationResponse = GenerationResponse(model: string, response: string, done: bool)

  datatype GenerateEmbeddingsRequest = GenerateEmbeddingsRequest(modelName: string, input: seq<string>)

  datatype GenerateEmbeddingsResponse = GenerateEmbeddingsResponse(embeddings: seq<seq<F32>>)

  /** `ollama_rs::error::OllamaError`, whatever its cause. */
  datatype OllamaError = OllamaError(message: string)

  /** `MessageRole` of a chat message. */
  datatype MessageRole = User | Assistant | System | Tool

  datatype ChatMessage = ChatMessage(role: MessageRole, content: string)

  /** `ChatMessageRequest::new(model_name, messages)`. */
  datatype ChatMessageRequest = ChatMessageRequest(modelName: string, messages: seq<ChatMessage>)

  /** The `Ollama` client connected to `host:port`. Its two calls go over the
      network; here they are the answers of the server it talks to, one
      outcome per request. */
  datatype Ollama = Ollama(
    host: string,
    port: bv16,
    generate: GenerationRequest -> Result<GenerationResponse, OllamaError>,
    generateEmbeddings: GenerateEmbeddingsRequest -> Result<GenerateEmbeddingsResponse, OllamaError>)
}
