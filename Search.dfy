/**
 * `search_knowledge_base` of thoughtful_ai_agent/tools.py: lazy initialization,
 * the query's embedding, the best-match loop and the 0.70 confidence threshold,
 * with every exception turned into an error result.
 */
module Search {
  import opened Wrappers
  import opened Similarity
  import opened KnowledgeBase

  /** The fixed confidence threshold. */
  const Threshold: real := 0.70

  /** What the tool reports, before it is formatted as text. */
  datatype SearchResult =
    | MatchFound(score: real, answer: string)
    | NoMatch(score: real)
    | Error(message: string)

  /** The loop's `best_score` and `best_match`. */
  datatype Best = Best(score: real, answer: Option<string>)

  /** The similarity of the query to one cached record. */
  function Score(query: Vector, entry: EmbeddedEntry, sqrt: real -> real): (r: real)
    ensures |query| == 0 || |query| != |entry.embedding| ==> r == 0.0
  {
    CosineSimilarity(query, entry.embedding, sqrt)
  }

  /** Record k has score `score` and every record before it scores strictly less. */
  ghost predicate IsFirstBest(query: Vector, entries: seq<EmbeddedEntry>, sqrt: real -> real, k: int, score: real)
  {
    && 0 <= k < |entries|
    && Score(query, entries[k], sqrt) == score
    && forall j :: 0 <= j < k ==> Score(query, entries[j], sqrt) < score
  }

  /**
   * The values of `best_score` and `best_match` after the loop has scanned
   * `entries`, starting from `0.0` and `None` and replacing only on a strictly
   * greater score. The score is the maximum of 0.0 and all scores; there is no
   * answer exactly when no score is positive, and otherwise the answer is that of
   * the first record reaching the maximum.
   */
  function BestOf(query: Vector, entries: seq<EmbeddedEntry>, sqrt: real -> real): (b: Best)
    ensures b.score >= 0.0
    ensures forall j :: 0 <= j < |entries| ==> Score(query, entries[j], sqrt) <= b.score
    ensures b.answer.None? <==> b.score == 0.0
    ensures b.answer.Some? ==>
      exists k :: IsFirstBest(query, entries, sqrt, k, b.score) && b.answer.value == entries[k].answer
    decreases |entries|
  {
    if entries == [] then Best(0.0, None)
    else
      var n := |entries| - 1;
      var prev := BestOf(query, entries[..n], sqrt);
      var score := Score(query, entries[n], sqrt);
      if score > prev.score then
        assert IsFirstBest(query, entries, sqrt, n, score);
        Best(score, Some(entries[n].answer))
      else
        prev
  }

  /** The loop of `search_knowledge_base` over the cached records. */
  method BestMatch(query: Vector, entries: seq<EmbeddedEntry>, sqrt: real -> real)
    returns (bestScore: real, bestMatch: Option<string>)
    ensures Best(bestScore, bestMatch) == BestOf(query, entries, sqrt)
  {
    bestScore, bestMatch := 0.0, None;
    for i := 0 to |entries|
      invariant Best(bestScore, bestMatch) == BestOf(query, entries[..i], sqrt)
    {
      var score := CosineSimilarity(query, entries[i].embedding, sqrt);
      if score > bestScore {
        bestScore := score;
        bestMatch := Some(entries[i].answer);
      }
      assert entries[..i + 1][..i] == entries[..i];
    }
    assert entries[..|entries|] == entries;
  }

  /**
   * The threshold decision: a match exactly when the best score is at least 0.70,
   * reporting the best score either way. Below the threshold the answer is dropped.
   */
  function Decide(best: Best): (r: SearchResult)
    requires best.score >= Threshold ==> best.answer.Some?
    ensures !r.Error?
    ensures r.MatchFound? <==> best.score >= Threshold
    ensures r.score == best.score
    ensures r.MatchFound? ==> best.answer == Some(r.answer)
  {
    if best.score >= Threshold then MatchFound(best.score, best.answer.value) else NoMatch(best.score)
  }

  /** The cache, the result and the provider calls of one `search_knowledge_base(query)` call. */
  datatype ToolStep = ToolStep(cache: Option<seq<EmbeddedEntry>>, result: SearchResult, calls: seq<string>)

  /**
   * `search_knowledge_base(query)` from cache state `cache`: initialize, embed
   * the query, scan the cache and decide; an exception from the initialization
   * or from the query's embedding becomes an `Error` carrying its message.
   */
  function SearchTool(cache: Option<seq<EmbeddedEntry>>, query: string, embed: Embedder, sqrt: real -> real): (t: ToolStep)
    ensures t.cache.Some?
    ensures t.cache == Initialize(cache, embed).cache
  {
    var init := Initialize(cache, embed);
    if init.outcome.Fail? then ToolStep(init.cache, Error(init.outcome.error), init.calls)
    else
      match embed(query)
      case Failure(e) => ToolStep(init.cache, Error(e), init.calls + [query])
      case Success(q) => ToolStep(init.cache, Decide(BestOf(q, init.cache.value, sqrt)), init.calls + [query])
  }

  /** `search_knowledge_base(query)`, on the process-wide cache `kb`. */
  method SearchKnowledgeBase(kb: EmbeddingsCache, query: string, sqrt: real -> real) returns (r: SearchResult)
    modifies kb
    ensures var t := SearchTool(old(kb.entries), query, kb.embed, sqrt);
      && kb.entries == t.cache
      && r == t.result
      && kb.providerCalls == old(kb.providerCalls) + t.calls
  {
    var init := kb.InitializeKnowledgeBase();
    if init.Fail? {
      return Error(init.error);
    }
    var queryEmbedding := kb.GetEmbedding(query);
    match queryEmbedding
    case Failure(e) =>
      r := Error(e);
    case Success(q) =>
      var bestScore, bestMatch := BestMatch(q, kb.entries.value, sqrt);
      r := Decide(Best(bestScore, bestMatch));
  }

  /**
   * The result is an error exactly when the initialization or the query's
   * embedding raised, and a match exactly when neither did and the best score
   * reaches 0.70.
   */
  lemma ResultClassification(cache: Option<seq<EmbeddedEntry>>, query: string, embed: Embedder, sqrt: real -> real)
    ensures var t := SearchTool(cache, query, embed, sqrt);
      var init := Initialize(cache, embed);
      && (t.result.Error? <==> init.outcome.Fail? || embed(query).Failure?)
      && (t.result.MatchFound? <==>
            && init.outcome.Pass? && embed(query).Success?
            && BestOf(embed(query).value, init.cache.value, sqrt).score >= Threshold)
  {
  }

  /**
   * A reported match carries a score of at least 0.70 and the answer of the first
   * cached record reaching the best score; no cached record scores higher.
   */
  lemma MatchIsFirstBestRecord(cache: Option<seq<EmbeddedEntry>>, query: string, embed: Embedder, sqrt: real -> real)
    requires SearchTool(cache, query, embed, sqrt).result.MatchFound?
    ensures var t := SearchTool(cache, query, embed, sqrt);
      var q := embed(query).value;
      && t.result.score >= Threshold
      && (forall j :: 0 <= j < |t.cache.value| ==> Score(q, t.cache.value[j], sqrt) <= t.result.score)
      && exists k :: IsFirstBest(q, t.cache.value, sqrt, k, t.result.score) && t.cache.value[k].answer == t.result.answer
  {
  }

  /**
   * The first record reaching the maximum, with a positive score, is the one
   * returned: later records with the same score never replace it.
   */
  lemma FirstMaximumIsReturned(query: Vector, entries: seq<EmbeddedEntry>, sqrt: real -> real, i: nat)
    requires i < |entries|
    requires Score(query, entries[i], sqrt) > 0.0
    requires forall j :: 0 <= j < |entries| ==> Score(query, entries[j], sqrt) <= Score(query, entries[i], sqrt)
    requires forall j :: 0 <= j < i ==> Score(query, entries[j], sqrt) < Score(query, entries[i], sqrt)
    ensures BestOf(query, entries, sqrt) == Best(Score(query, entries[i], sqrt), Some(entries[i].answer))
  {
  }

  /**
   * A query whose embedding equals the embedding of a cached record, and is not
   * all zeros, reaches the best score 1.0 and is reported as a match.
   */
  lemma IdenticalEmbeddingMatches(query: Vector, entries: seq<EmbeddedEntry>, sqrt: real -> real, i: nat)
    requires ExactSqrt(sqrt)
    requires i < |entries| && entries[i].embedding == query
    requires |query| > 0 && !AllZero(query)
    ensures BestOf(query, entries, sqrt).score == 1.0
    ensures Decide(BestOf(query, entries, sqrt)).MatchFound?
  {
    SelfSimilarity(query, sqrt);
    forall j | 0 <= j < |entries| ensures Score(query, entries[j], sqrt) <= 1.0 {
      CosineBounded(query, entries[j].embedding, sqrt);
    }
  }

  /**
   * Ties keep the earlier record: two records whose embeddings both equal the
   * query give the first one's answer.
   */
  lemma TieKeepsEarlierRecord(query: Vector, first: EmbeddedEntry, second: EmbeddedEntry, sqrt: real -> real)
    requires ExactSqrt(sqrt)
    requires |query| > 0 && !AllZero(query)
    requires first.embedding == query && second.embedding == query
    ensures BestOf(query, [first, second], sqrt) == Best(1.0, Some(first.answer))
  {
    SelfSimilarity(query, sqrt);
    assert [first, second][..1] == [first];
    assert [first][..0] == [];
  }

  /** The threshold is inclusive: 0.70 is a match, 0.6999 is not. */
  lemma ThresholdBoundary(answer: string)
    ensures Decide(Best(0.70, Some(answer))) == MatchFound(0.70, answer)
    ensures Decide(Best(0.6999, Some(answer))) == NoMatch(0.6999)
  {
  }

  /**
   * A first initialization that fails is reported as an error and leaves a
   * partial cache; every later call keeps that cache, sends only its query to the
   * provider and never retries the dataset.
   */
  lemma FailedInitIsNeverRetried(embed: Embedder, sqrt: real -> real, q1: string, q2: string)
    requires Initialize(None, embed).outcome.Fail?
    ensures var t1 := SearchTool(None, q1, embed, sqrt);
      var t2 := SearchTool(t1.cache, q2, embed, sqrt);
      && t1.result == Error(Initialize(None, embed).outcome.error)
      && |t1.cache.value| < |QaDataset|
      && t2.cache == t1.cache
      && t2.calls == [q2]
  {
  }

  /** After any call, a second call leaves the cache as it is and embeds only its own query. */
  lemma CacheFixedAfterFirstCall(cache: Option<seq<EmbeddedEntry>>, embed: Embedder, sqrt: real -> real, q1: string, q2: string)
    ensures var t1 := SearchTool(cache, q1, embed, sqrt);
      var t2 := SearchTool(t1.cache, q2, embed, sqrt);
      && t2.cache == t1.cache
      && t2.calls == [q2]
  {
  }

  /** An embedding provider that always raises makes every call an error, never an exception. */
  lemma FailingProviderGivesError(cache: Option<seq<EmbeddedEntry>>, query: string, embed: Embedder, sqrt: real -> real)
    requires forall text :: embed(text).Failure?
    ensures SearchTool(cache, query, embed, sqrt).result.Error?
  {
  }

  /** A provider stub giving the three EVA questions one vector and every other text another. */
  function EvaStub(text: string): Result<Vector, string>
  {
    if text == "What does the eligibility verification agent (EVA) do?" || text == "Tell me about EVA" || text == "What is EVA?"
    then Success([1.0, 0.0])
    else Success([0.0, 1.0])
  }

  /** With that stub, "What is EVA?" on a fresh cache is a match of score 1.0 with the EVA answer. */
  lemma EvaQueryMatches(sqrt: real -> real)
    requires ExactSqrt(sqrt)
    ensures SearchTool(None, "What is EVA?", EvaStub, sqrt).result == MatchFound(1.0, EvaAnswer)
  {
    var p := Populate(QaDataset, EvaStub);
    assert p.error.None?;
    var entries := p.entries;
    var q: Vector := [1.0, 0.0];
    assert entries[0] == Embedded(QaDataset[0], q);
    assert q[0] != 0.0;
    IdenticalEmbeddingMatches(q, entries, sqrt, 0);
    SelfSimilarity(q, sqrt);
    FirstMaximumIsReturned(q, entries, sqrt, 0);
  }

  /** A stub whose call for the first dataset question raises, and which answers every other text. */
  function FirstItemFailsStub(text: string): Result<Vector, string>
  {
    if text == "What does the eligibility verification agent (EVA) do?" then Failure("quota exceeded") else Success([1.0])
  }

  /**
   * As written, a failure on the first dataset item leaves an empty but set cache
   * behind: the first call reports the error, and every later call, although
   * the provider answers its query, searches no records and finds no match.
   */
  lemma FailedFirstItemEmptiesKnowledgeBase(sqrt: real -> real, query: string)
    requires query != "What does the eligibility verification agent (EVA) do?"
    ensures var t1 := SearchTool(None, query, FirstItemFailsStub, sqrt);
      var t2 := SearchTool(t1.cache, query, FirstItemFailsStub, sqrt);
      && t1.result == Error("quota exceeded")
      && t1.cache == Some([])
      && t2.result == NoMatch(0.0)
      && t2.cache == Some([])
  {
  }
}
