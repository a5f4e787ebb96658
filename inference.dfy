/** `OllamaService`: single and batched generation and embedding calls.
    A batch fans out one call per input and collects the outcomes in input
    order, whatever order they complete in; here that is an ordered map. */
module Inference {
  import opened Wrappers
  import opened OllamaApi
  import opened Question

  /** `anyhow::Error`, which here only ever wraps a client error. */
  datatype AnyError = FromOllama(cause: OllamaError)

  datatype OllamaService = OllamaService(ollama: Ollama)

  /** `join_all` over `xs.map(f)`: every outcome lands at its input's index. */
  function JoinAll<A, B>(f: A -> B, xs: seq<A>): (ys: seq<B>)
    ensures |ys| == |xs|
    ensures forall i :: 0 <= i < |xs| ==> ys[i] == f(xs[i])
  {
    if xs == [] then [] else [f(xs[0])] + JoinAll(f, xs[1..])
  }

  /** `map(|r| r.ok()).collect()`: every failure becomes `None`, in place. */
  function CollectOk<T, E>(rs: seq<Result<T, E>>): (os: seq<Option<T>>)
    ensures |os| == |rs|
    ensures forall i :: 0 <= i < |rs| ==> (os[i].None? <==> rs[i].Err?)
    ensures forall i :: 0 <= i < |rs| ==> os[i].Some? ==> os[i].value == rs[i].value
  {
    if rs == [] then [] else [rs[0].ToOption()] + CollectOk(rs[1..])
  }

  /** One batch over `a + b` is the batch over `a` followed by the batch
      over `b`. */
  lemma JoinAllAppend<A, B>(f: A -> B, a: seq<A>, b: seq<A>)
    ensures JoinAll(f, a + b) == JoinAll(f, a) + JoinAll(f, b)
  {
  }

  /** One input's outcome does not depend on the other inputs: replacing
      input `j` changes output `j` only. */
  lemma JoinAllIsolated<A, B>(f: A -> B, xs: seq<A>, j: nat, x: A)
    requires j < |xs|
    ensures JoinAll(f, xs[j := x]) == JoinAll(f, xs)[j := f(x)]
  {
  }

  /** `T::from` applied to a success; the client error is wrapped. */
  function ParseWith<R, T>(from: R -> T, r: Result<R, OllamaError>): (p: Result<T, AnyError>)
    ensures p.Ok? <==> r.Ok?
    ensures p.Ok? ==> p.value == from(r.value)
    ensures p.Err? ==> p.error == FromOllama(r.error)
  {
    match r
    case Ok(v) => Ok(from(v))
    case Err(e) => Err(FromOllama(e))
  }

  // ---------------------------------------------------------------- generation

  /** `generate`: the client's answer to the question's request. */
  function Generate(s: OllamaService, q: Question): Result<GenerationResponse, OllamaError>
  {
    s.ollama.generate(IntoGenerationRequest(q))
  }

  /** The backend sees only the model and the rendered prompt. */
  lemma GenerateSeesRequestOnly(s: OllamaService, q1: Question, q2: Question)
    requires q1.model == q2.model && GetPrompt(q1) == GetPrompt(q2)
    ensures Generate(s, q1) == Generate(s, q2)
  {
  }

  function GenerateAll(s: OllamaService, qs: seq<Question>): (rs: seq<Result<GenerationResponse, OllamaError>>)
    ensures |rs| == |qs|
    ensures forall i :: 0 <= i < |qs| ==> rs[i] == Generate(s, qs[i])
  {
    JoinAll(q => Generate(s, q), qs)
  }

  function GenerateAndParse<T>(s: OllamaService, from: GenerationResponse -> T, q: Question): (r: Result<T, AnyError>)
    ensures r.Ok? <==> Generate(s, q).Ok?
    ensures r.Ok? ==> r.value == from(Generate(s, q).value)
    ensures r.Err? ==> r.error == FromOllama(Generate(s, q).error)
  {
    ParseWith(from, Generate(s, q))
  }

  function GenerateAndParseAllResults<T>(s: OllamaService, from: GenerationResponse -> T, qs: seq<Question>): (rs: seq<Result<T, AnyError>>)
    ensures |rs| == |qs|
    ensures forall i :: 0 <= i < |qs| ==> rs[i] == GenerateAndParse(s, from, qs[i])
  {
    JoinAll(q => GenerateAndParse(s, from, q), qs)
  }

  function GenerateAndParseAll<T>(s: OllamaService, from: GenerationResponse -> T, qs: seq<Question>): (os: seq<Option<T>>)
    ensures |os| == |qs|
    ensures forall i :: 0 <= i < |qs| ==> (os[i].None? <==> GenerateAndParseAllResults(s, from, qs)[i].Err?)
    ensures forall i :: 0 <= i < |qs| ==> (os[i].None? <==> Generate(s, qs[i]).Err?)
    ensures forall i :: 0 <= i < |qs| ==> os[i].Some? ==> os[i].value == from(Generate(s, qs[i]).value)
  {
    CollectOk(GenerateAndParseAllResults(s, from, qs))
  }

  /** The parsed batch is the strict batch with `T::from` applied to every
      success: parsing adds no failure of its own. */
  lemma ParseAllResultsFollowGenerateAll<T>(s: OllamaService, from: GenerationResponse -> T, qs: seq<Question>)
    ensures GenerateAndParseAllResults(s, from, qs) == JoinAll(r => ParseWith(from, r), GenerateAll(s, qs))
  {
  }

  /** A failure of the second call leaves the first result in place: the batch
      is neither aborted nor turned into two failures. */
  lemma SecondCallFails<T>(s: OllamaService, from: GenerationResponse -> T, q1: Question, q2: Question,
                           answer: GenerationResponse, e: OllamaError)
    requires Generate(s, q1) == Ok(answer) && Generate(s, q2) == Err(e)
    ensures GenerateAll(s, [q1, q2]) == [Ok(answer), Err(e)]
    ensures GenerateAndParseAllResults(s, from, [q1, q2]) == [Ok(from(answer)), Err(FromOllama(e))]
    ensures GenerateAndParseAll(s, from, [q1, q2]) == [Some(from(answer)), None]
  {
  }

  // ---------------------------------------------------------------- embedding

  /** `embed_req`. */
  function EmbedReq(s: OllamaService, req: GenerateEmbeddingsRequest): Result<GenerateEmbeddingsResponse, OllamaError>
  {
    s.ollama.generateEmbeddings(req)
  }

  /** `embed`: the request that the embeddable value describes (its
      `into_embed`), sent through `embed_req`. */
  function Embed<E>(s: OllamaService, intoEmbed: E -> GenerateEmbeddingsRequest, emb: E): Result<GenerateEmbeddingsResponse, OllamaError>
  {
    EmbedReq(s, intoEmbed(emb))
  }

  /** `embed_all`, which builds and sends each request itself: the same
      outcomes as `embed`, item by item. */
  function EmbedAll<E>(s: OllamaService, intoEmbed: E -> GenerateEmbeddingsRequest, embs: seq<E>): (rs: seq<Result<GenerateEmbeddingsResponse, OllamaError>>)
    ensures |rs| == |embs|
    ensures forall i :: 0 <= i < |embs| ==> rs[i] == Embed(s, intoEmbed, embs[i])
  {
    JoinAll(e => EmbedReq(s, intoEmbed(e)), embs)
  }

  function EmbedAndParse<E, T>(s: OllamaService, intoEmbed: E -> GenerateEmbeddingsRequest,
                               from: GenerateEmbeddingsResponse -> T, emb: E): (r: Result<T, AnyError>)
    ensures r.Ok? <==> Embed(s, intoEmbed, emb).Ok?
    ensures r.Ok? ==> r.value == from(Embed(s, intoEmbed, emb).value)
    ensures r.Err? ==> r.error == FromOllama(Embed(s, intoEmbed, emb).error)
  {
    ParseWith(from, EmbedReq(s, intoEmbed(emb)))
  }

  function EmbedAndParseAllResults<E, T>(s: OllamaService, intoEmbed: E -> GenerateEmbeddingsRequest,
                                         from: GenerateEmbeddingsResponse -> T, embs: seq<E>): (rs: seq<Result<T, AnyError>>)
    ensures |rs| == |embs|
    ensures forall i :: 0 <= i < |embs| ==> rs[i] == EmbedAndParse(s, intoEmbed, from, embs[i])
  {
    JoinAll(e => EmbedAndParse(s, intoEmbed, from, e), embs)
  }

  function EmbedAndParseAll<E, T>(s: OllamaService, intoEmbed: E -> GenerateEmbeddingsRequest,
                                  from: GenerateEmbeddingsResponse -> T, embs: seq<E>): (os: seq<Option<T>>)
    ensures |os| == |embs|
    ensures forall i :: 0 <= i < |embs| ==> (os[i].None? <==> EmbedAndParseAllResults(s, intoEmbed, from, embs)[i].Err?)
    ensures forall i :: 0 <= i < |embs| ==> (os[i].None? <==> Embed(s, intoEmbed, embs[i]).Err?)
    ensures forall i :: 0 <= i < |embs| ==> os[i].Some? ==> os[i].value == from(Embed(s, intoEmbed, embs[i]).value)
  {
    CollectOk(EmbedAndParseAllResults(s, intoEmbed, from, embs))
  }

  /** The parsed embedding batch is the strict one with `T::from` applied to
      every success. */
  lemma EmbedParseAllResultsFollowEmbedAll<E, T>(s: OllamaService, intoEmbed: E -> GenerateEmbeddingsRequest,
                                                 from: GenerateEmbeddingsResponse -> T, embs: seq<E>)
    ensures EmbedAndParseAllResults(s, intoEmbed, from, embs) == JoinAll(r => ParseWith(from, r), EmbedAll(s, intoEmbed, embs))
  {
  }
}
