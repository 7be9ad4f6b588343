# Semantic knowledge-base lookup of the Thoughtful AI agent

This project models the one tool with real logic in the repository: `search_knowledge_base` in
`thoughtful_ai_agent/tools.py`. It answers questions about the EVA, CAM and PHIL agents. It
embeds the query and compares it with a lazily built cache of embeddings of a fixed
eleven-entry Q&A dataset. It returns the answer of the best-scoring entry when the cosine
similarity reaches 0.70.

The model has four modules:

- `Wrappers` (Wrappers.dfy): `Option`, `Result` and `Outcome`. These stand for Python's `None`
  and for calls that may raise.
- `Similarity` (Similarity.dfy): `_cosine_similarity` over exact reals. The square root
  `x ** 0.5` is a function parameter. Where a lemma needs a property of the square root, it
  requires `SqrtContract` (non-negative, and zero exactly at zero) or `ExactSqrt` (also
  `sqrt(x) * sqrt(x) == x`).
- `KnowledgeBase` (KnowledgeBase.dfy): `QA_DATASET`, and the process-wide cache
  `_EMBEDDINGS_CACHE`. The cache is the class `EmbeddingsCache`, whose `entries` field has type
  `Option<seq<EmbeddedEntry>>`. The remote embedding call `_get_embedding` is the class's
  constant `embed`, a function from text to `Result<Vector, string>`, so any call may fail.
  The ghost field `providerCalls` logs every text sent to the provider.
  `InitializeKnowledgeBase` is the early return of `_initialize_knowledge_base` and the
  assignment of the empty list to the cache. `AppendEmbeddings` is its loop over the dataset.
  Both are proved against pure specifications: `InitializeKnowledgeBase` against `Initialize`,
  and `AppendEmbeddings` against `Populate`.
- `Search` (Search.dfy): the best-match loop `BestMatch`, proved against the specification
  `BestOf`; the threshold decision `Decide`; and the tool `SearchKnowledgeBase`, proved against
  `SearchTool`. The tool returns a `SearchResult`: `MatchFound(score, answer)`,
  `NoMatch(score)` or `Error(message)`.

Two behaviours of the code are easy to misread, and the model follows the code in both:

- A failed initialization is never retried. The code sets the cache to `[]` before the loop
  (tools.py:99). It returns early whenever the cache is not `None` (tools.py:95-96). So a
  failure on item k leaves the first k records behind for good, and the cache then holds
  fewer than eleven records. `FailedInitIsNeverRetried` and
  `FailedFirstItemEmptiesKnowledgeBase` state this.
- The docstring promises a match at "confidence > 0.8" (tools.py:119). The code uses
  `best_score >= 0.70` (tools.py:135-137). The model uses 0.70, inclusive.

## Model

| member | source | states |
|---|---|---|
| `Similarity.Dot` | thoughtful_ai_agent/tools.py:83-85 | the sum of the products of paired components, stopping at the shorter vector as `zip` does; it is 0.0 when either vector is all zeros |
| `Similarity.DotIgnoresExcess` | thoughtful_ai_agent/tools.py:83 | components of the longer vector past the shorter one's length do not change the dot product |
| `Similarity.CosineSimilarity` | thoughtful_ai_agent/tools.py:78-90 | an empty vector or vectors of different lengths give 0.0; the division happens only when the product of the magnitudes is non-zero |
| `Similarity.ZeroVectorScoresZero` | thoughtful_ai_agent/tools.py:84-88 | if either vector is all zeros, the similarity is 0.0, whichever position it is in |
| `Similarity.MagnitudeGuard` | thoughtful_ai_agent/tools.py:84-88 | for the square-root contract, the product of the magnitudes is zero exactly when one vector is all zeros (both directions) |
| `Similarity.SquaredMagnitude` | thoughtful_ai_agent/tools.py:84-85 | the sum of squares is at least 0, is 0 for an all-zero vector, and is positive otherwise |
| `Similarity.DotSymmetric` | thoughtful_ai_agent/tools.py:83 | the dot product does not depend on argument order |
| `Similarity.CosineSymmetric` | thoughtful_ai_agent/tools.py:78-90 | cosine similarity is symmetric for all inputs, degenerate ones included |
| `Similarity.SelfSimilarity` | thoughtful_ai_agent/tools.py:78-90 | with the exact square root, a non-empty vector that is not all zeros has similarity exactly 1.0 with itself |
| `Similarity.CauchySchwarz` | thoughtful_ai_agent/tools.py:83-85 | the dot product squared is at most the product of the two sums of squares |
| `Similarity.CosineBounded` | thoughtful_ai_agent/tools.py:78-90 | with the exact square root, every similarity lies in [-1.0, 1.0] |
| `KnowledgeBase.Embedded` | thoughtful_ai_agent/tools.py:102-106 | the cached record copies the item's question and answer and holds the provider's vector |
| `KnowledgeBase.Populate` | thoughtful_ai_agent/tools.py:100-106 | embedding in dataset order stops at the first failure; the records are those of the items before it, with question and answer copied and the provider's vector; the error is that item's exception, and there is none exactly when every item was embedded |
| `KnowledgeBase.Initialize` | thoughtful_ai_agent/tools.py:92-107 | afterwards the cache is always set; if it was already set, it is unchanged, nothing is raised and no provider call is made |
| `KnowledgeBase.SuccessfulInitCachesDataset` | thoughtful_ai_agent/tools.py:99-106 | if a first initialization succeeds, the cache holds exactly one record per dataset item (11), in order; each has its question and answer copied and the provider's vector for that question; exactly 11 provider calls are made |
| `KnowledgeBase.FailedInitLeavesPrefix` | thoughtful_ai_agent/tools.py:99-101 | if item k fails, the cache is the set list of the k records before it, the error is item k's exception, and k + 1 questions were sent |
| `KnowledgeBase.InitializeRunsOnce` | thoughtful_ai_agent/tools.py:95-96 | after any initialization, success or failure, a second one changes nothing, raises nothing and calls no provider |
| `KnowledgeBase.EmbeddingsCache.constructor` | thoughtful_ai_agent/tools.py:59 | the cache starts as `None` with no provider calls |
| `KnowledgeBase.EmbeddingsCache.GetEmbedding` | thoughtful_ai_agent/tools.py:68-76 | returns the provider's answer for the text and logs one call |
| `KnowledgeBase.EmbeddingsCache.InitializeKnowledgeBase` | thoughtful_ai_agent/tools.py:92-107 | the new cache, the outcome and the calls appended to the log are those of `Initialize` on the old cache |
| `KnowledgeBase.EmbeddingsCache.AppendEmbeddings` | thoughtful_ai_agent/tools.py:99-106 | starting from the empty list, the loop leaves exactly `Populate`'s records, raises its error, and logs the questions of the items tried |
| `Search.Score` | thoughtful_ai_agent/tools.py:129 | the score of a record is the cosine similarity of the query vector with its embedding: 0.0 for an empty query or one whose length differs from the embedding's |
| `Search.BestOf` | thoughtful_ai_agent/tools.py:125-132 | the best score is the maximum of 0.0 and all scores; there is no answer exactly when it is 0.0; otherwise the answer is that of the first record reaching the maximum |
| `Search.BestMatch` | thoughtful_ai_agent/tools.py:125-132 | the loop's `best_score` and `best_match` are `BestOf` of the cached records |
| `Search.Decide` | thoughtful_ai_agent/tools.py:135-140 | a match exactly when the best score is at least 0.70; never an error; the best score is reported either way; a match carries the best answer |
| `Search.SearchTool` | thoughtful_ai_agent/tools.py:121-143 | the cache after the call is the cache after initialization, and it is always set |
| `Search.SearchKnowledgeBase` | thoughtful_ai_agent/tools.py:109-143 | the new cache, the result and the provider calls are those of `SearchTool` on the old cache |
| `Search.ResultClassification` | thoughtful_ai_agent/tools.py:121-143 | an error exactly when initialization or the query's embedding raised; a match exactly when neither raised and the best score reaches 0.70 |
| `Search.MatchIsFirstBestRecord` | thoughtful_ai_agent/tools.py:128-138 | a match has score at least 0.70 and no cached record scores higher; its answer is that of the first record with that score |
| `Search.FirstMaximumIsReturned` | thoughtful_ai_agent/tools.py:128-132 | the first record reaching a positive maximum gives the result; later records with equal scores never replace it |
| `Search.IdenticalEmbeddingMatches` | thoughtful_ai_agent/tools.py:128-137 | with the exact square root, a query vector equal to a cached record's non-zero embedding gives best score 1.0 and a match |
| `Search.TieKeepsEarlierRecord` | thoughtful_ai_agent/tools.py:130-132 | two records that both equal the query give the first one's answer with score 1.0 |
| `Search.ThresholdBoundary` | thoughtful_ai_agent/tools.py:135-140 | a score of 0.70 is a match and 0.6999 is not |
| `Search.FailedInitIsNeverRetried` | thoughtful_ai_agent/tools.py:95-101 | a failed first initialization is reported as that error and leaves fewer than 11 records; a second call keeps that cache and sends only its own query |
| `Search.CacheFixedAfterFirstCall` | thoughtful_ai_agent/tools.py:95-96 | after any call, a second call leaves the cache as it is and makes exactly one provider call |
| `Search.FailingProviderGivesError` | thoughtful_ai_agent/tools.py:142-143 | a provider that always raises makes every call, on any cache, an error result |
| `Search.EvaQueryMatches` | thoughtful_ai_agent/tools.py:11-23 | with a stub that maps the EVA questions to one vector, "What is EVA?" on a fresh cache gives a match with score 1.0 and the EVA answer |
| `Search.FailedFirstItemEmptiesKnowledgeBase` | thoughtful_ai_agent/tools.py:95-101 | if the first dataset item's embedding raises, the first call is that error, the cache stays `Some([])` for good, and a later call gives no match with score 0.0 |

## Left out

- `_get_client` and the remote call to the `text-embedding-004` model (tools.py:62-76). They
  are the oracle `embed`. The model treats it as a fixed function of the text, so a provider
  that answers differently over time is not modelled.
- Floating point. Scores, dot products and magnitudes are exact reals. `** 0.5` is a
  parameter that only has to meet `SqrtContract` or `ExactSqrt`. So the model does not
  capture rounding, or an underflow that makes the magnitude product zero for non-zero
  vectors.
- The text of the results, `{:.2f}` formatting included, and the
  `"Error searching knowledge base: "` prefix (tools.py:138-143). The result is the
  `SearchResult` datatype; `Error` carries the exception's message.
- The two `print` calls (tools.py:98, 107). They are console output.
- Concurrent first calls racing on the cache. The source has no lock, and the model is
  sequential.
- streamlit_app.py, the greeting agent, the agent constructors and the configuration files.
  They are UI, framework wiring and constant prompt text, with no logic of their own.
