/** Embedding vectors and the similarity-search query built from one. */
module Embedding {
  import opened Wrappers
  import opened OllamaApi

  /** `EmbeddingVector(Vec<f32>)`. */
  datatype EmbeddingVector = EmbeddingVector(components: seq<F32>)

  /** Qdrant's `SearchPoints`, with the fields the conversion sets and three
      of the fields it leaves at their default. */
  datatype SearchPoints = SearchPoints(
    collectionName: string,
    vector: seq<F32>,
    limit: nat,
    withPayload: Option<bool>,
    withVectors: Option<bool>,
    offset: Option<nat>,
    scoreThreshold: Option<F32>,
    vectorName: Option<string>)

  const CollectionVariable: string := "QDRANT_COLLECTION"
  const SearchLimit: nat := 10

  /** `Into<SearchPoints> for EmbeddingVector`, with the process environment
      as `env`; the conversion panics when the collection variable is unset. */
  function IntoSearchPoints(v: EmbeddingVector, env: map<string, string>): (p: SearchPoints)
    requires CollectionVariable in env
    ensures p.collectionName == env[CollectionVariable]
    ensures p.vector == v.components
    ensures p.limit == 10
    ensures p.withPayload == Some(true) && p.withVectors == Some(false)
    ensures p.offset == None && p.scoreThreshold == None && p.vectorName == None
  {
    SearchPoints(env[CollectionVariable], v.components, SearchLimit, Some(true), Some(false), None, None, None)
  }

  /** The query carries the vector unchanged: it can be read back, and
      distinct vectors give distinct queries. */
  lemma SearchPointsKeepVector(v: EmbeddingVector, w: EmbeddingVector, env: map<string, string>)
    requires CollectionVariable in env
    ensures EmbeddingVector(IntoSearchPoints(v, env).vector) == v
    ensures IntoSearchPoints(v, env) == IntoSearchPoints(w, env) <==> v == w
  {
  }
}
