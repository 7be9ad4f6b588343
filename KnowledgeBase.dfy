/**
 * The fixed Q&A dataset and the lazily filled embeddings cache of
 * thoughtful_ai_agent/tools.py (`QA_DATASET`, `_EMBEDDINGS_CACHE`,
 * `_get_embedding`, `_initialize_knowledge_base`).
 */
module KnowledgeBase {
  import opened Wrappers
  import opened Similarity

  /** One question of the dataset with its canonical answer. */
  datatype QAEntry = QAEntry(question: string, answer: string)

  /** A cached record: the question, its answer and the question's embedding. */
  datatype EmbeddedEntry = EmbeddedEntry(question: string, answer: string, embedding: Vector)

  /**
   * The remote embedding call: given a text, either a vector or an exception
   * carrying its message.
   */
  type Embedder = string -> Result<Vector, string>

  const EvaAnswer: string := "EVA automates the process of verifying a patient's eligibility and benefits information in real-time, eliminating manual data entry errors and reducing claim rejections."
  const CamAnswer: string := "CAM streamlines the submission and management of claims, improving accuracy, reducing manual intervention, and accelerating reimbursements."
  const PhilAnswer: string := "PHIL automates the posting of payments to patient accounts, ensuring fast, accurate reconciliation of payments and reducing administrative burden."

  /** `QA_DATASET`: the eleven hard-coded entries, in source order. */
  const QaDataset: seq<QAEntry> := [
    QAEntry("What does the eligibility verification agent (EVA) do?", EvaAnswer),
    QAEntry("Tell me about EVA", EvaAnswer),
    QAEntry("What is EVA?", EvaAnswer),
    QAEntry("What does the claims processing agent (CAM) do?", CamAnswer),
    QAEntry("Tell me about CAM", CamAnswer),
    QAEntry("What is CAM?", CamAnswer),
    QAEntry("How does the payment posting agent (PHIL) work?", PhilAnswer),
    QAEntry("Tell me about PHIL", PhilAnswer),
    QAEntry("What is PHIL?", PhilAnswer),
    QAEntry("Tell me about Thoughtful AI's Agents.",
      "Thoughtful AI provides a suite of AI-powered automation agents designed to streamline healthcare processes. These include Eligibility Verification (EVA), Claims Processing (CAM), and Payment Posting (PHIL), among others."),
    QAEntry("What are the benefits of using Thoughtful AI's agents?",
      "Using Thoughtful AI's Agents can significantly reduce administrative costs, improve operational efficiency, and reduce errors in critical processes like claims management and payment posting.")
  ]

  /** The record appended to the cache for one dataset item. */
  function Embedded(item: QAEntry, embedding: Vector): (e: EmbeddedEntry)
    ensures e.question == item.question && e.answer == item.answer && e.embedding == embedding
  {
    EmbeddedEntry(item.question, item.answer, embedding)
  }

  /** The questions of a list of items, in order: the texts sent to the provider. */
  function Questions(items: seq<QAEntry>): (qs: seq<string>)
    ensures |qs| == |items|
  {
    if items == [] then [] else [items[0].question] + Questions(items[1..])
  }

  /** What the embedding loop leaves behind: the records appended, and the exception that stopped it, if any. */
  datatype Population = Population(entries: seq<EmbeddedEntry>, error: Option<string>) {
    /** How many items were sent to the provider: the records appended, plus the failing item. */
    function Tried(): nat
    {
      if error.Some? then |entries| + 1 else |entries|
    }
  }

  /**
   * Embedding `items` one by one, in order, stopping at the first failure: the
   * records are those of the items before the first failing one, each with its
   * question and answer copied and the provider's vector; the error is that
   * item's exception, and there is none exactly when every item was embedded.
   */
  function Populate(items: seq<QAEntry>, embed: Embedder): (p: Population)
    ensures |p.entries| <= |items|
    ensures forall j :: 0 <= j < |p.entries| ==>
      embed(items[j].question).Success? && p.entries[j] == Embedded(items[j], embed(items[j].question).value)
    ensures p.error.None? <==> |p.entries| == |items|
    ensures p.error.Some? ==> embed(items[|p.entries|].question) == Failure(p.error.value)
  {
    if items == [] then Population([], None)
    else
      match embed(items[0].question)
      case Failure(e) => Population([], Some(e))
      case Success(v) =>
        var rest := Populate(items[1..], embed);
        Population([Embedded(items[0], v)] + rest.entries, rest.error)
  }

  /** The cache, the outcome and the provider calls of one `_initialize_knowledge_base()` call. */
  datatype InitStep = InitStep(cache: Option<seq<EmbeddedEntry>>, outcome: Outcome<string>, calls: seq<string>)

  /**
   * `_initialize_knowledge_base()` from cache state `cache`: nothing happens when
   * the cache is set; otherwise the cache is set to the list of records embedded
   * before the first failure (it is set to `[]` before the loop starts), the
   * failure, if any, is raised, and one provider call is made per item tried.
   */
  function Initialize(cache: Option<seq<EmbeddedEntry>>, embed: Embedder): (s: InitStep)
    ensures s.cache.Some?
    ensures cache.Some? ==> s.cache == cache && s.outcome.Pass? && s.calls == []
  {
    if cache.Some? then InitStep(cache, Pass, [])
    else
      var p := Populate(QaDataset, embed);
      InitStep(Some(p.entries), if p.error.Some? then Fail(p.error.value) else Pass, Questions(QaDataset[..p.Tried()]))
  }

  /**
   * A successful first initialization caches exactly one record per dataset item,
   * in order, with the question and answer copied and the provider's vector for
   * that question, after exactly eleven provider calls.
   */
  lemma SuccessfulInitCachesDataset(embed: Embedder)
    requires Initialize(None, embed).outcome.Pass?
    ensures var s := Initialize(None, embed);
      && |s.cache.value| == |QaDataset| == 11
      && |s.calls| == 11
      && forall j :: 0 <= j < 11 ==>
        && s.cache.value[j].question == QaDataset[j].question
        && s.cache.value[j].answer == QaDataset[j].answer
        && embed(QaDataset[j].question) == Success(s.cache.value[j].embedding)
  {
  }

  /**
   * A first initialization that fails on item k leaves the cache set to the
   * records of the k items before it, reports that item's exception, and made
   * k + 1 provider calls.
   */
  lemma FailedInitLeavesPrefix(embed: Embedder)
    requires Initialize(None, embed).outcome.Fail?
    ensures var s := Initialize(None, embed);
      var k := |s.cache.value|;
      && k < |QaDataset|
      && embed(QaDataset[k].question) == Failure(s.outcome.error)
      && (forall j :: 0 <= j < k ==> s.cache.value[j] == Embedded(QaDataset[j], embed(QaDataset[j].question).value))
      && s.calls == Questions(QaDataset[..k + 1])
  {
  }

  /**
   * Initialization happens at most once: whatever the first call did, with or
   * without an error, a second call changes nothing and calls no provider.
   */
  lemma InitializeRunsOnce(cache: Option<seq<EmbeddedEntry>>, embed: Embedder)
    ensures var first := Initialize(cache, embed);
      Initialize(first.cache, embed) == InitStep(first.cache, Pass, [])
  {
  }

  /**
   * The process-wide cache `_EMBEDDINGS_CACHE` together with the embedding
   * client behind `_get_embedding`. `providerCalls` records every text sent to
   * the provider, in order.
   */
  class EmbeddingsCache {
    var entries: Option<seq<EmbeddedEntry>>
    const embed: Embedder
    ghost var providerCalls: seq<string>

    /** The module-level state at import time: no cache, no calls yet. */
    constructor (embed: Embedder)
      ensures entries.None? && this.embed == embed && providerCalls == []
    {
      entries := None;
      this.embed := embed;
      providerCalls := [];
    }

    /** `_get_embedding(text)`: one provider call. */
    method GetEmbedding(text: string) returns (r: Result<Vector, string>)
      modifies this`providerCalls
      ensures r == embed(text)
      ensures providerCalls == old(providerCalls) + [text]
    {
      r := embed(text);
      providerCalls := providerCalls + [text];
    }

    /** `_initialize_knowledge_base()`. */
    method InitializeKnowledgeBase() returns (outcome: Outcome<string>)
      modifies this
      ensures var s := Initialize(old(entries), embed);
        && entries == s.cache
        && outcome == s.outcome
        && providerCalls == old(providerCalls) + s.calls
    {
      if entries.Some? {
        return Pass;
      }
      entries := Some([]);
      outcome := AppendEmbeddings(QaDataset);
    }

    /**
     * The loop of `_initialize_knowledge_base()` over `items`, appending to a cache
     * that starts out empty; an exception leaves the records appended so far.
     */
    method AppendEmbeddings(items: seq<QAEntry>) returns (outcome: Outcome<string>)
      requires entries == Some([])
      modifies this
      ensures var p := Populate(items, embed);
        && entries == Some(p.entries)
        && outcome == (if p.error.Some? then Fail(p.error.value) else Pass)
        && providerCalls == old(providerCalls) + Questions(items[..p.Tried()])
    {
      ghost var p := Populate(items, embed);
      for i := 0 to |items|
        invariant i <= |p.entries|
        invariant entries == Some(p.entries[..i])
        invariant providerCalls == old(providerCalls) + Questions(items[..i])
      {
        var item := items[i];
        ghost var before := providerCalls;
        var embedding := GetEmbedding(item.question);
        assert items[..i + 1] == items[..i] + [item];
        QuestionsAppend(items[..i], item);
        assert providerCalls == old(providerCalls) + Questions(items[..i + 1]) by {
          assert providerCalls == before + [item.question];
        }
        match embedding
        case Failure(e) =>
          assert i == |p.entries|;
          assert p.entries[..i] == p.entries;
          return Fail(e);
        case Success(v) =>
          assert i < |p.entries|;
          assert p.entries[i] == Embedded(item, v);
          assert p.entries[..i + 1] == p.entries[..i] + [Embedded(item, v)];
          entries := Some(entries.value + [Embedded(item, v)]);
      }
      assert p.entries[..|items|] == p.entries;
      return Pass;
    }
  }

  /** The questions of `items + [item]` are those of `items` followed by `item`'s. */
  lemma {:induction false} QuestionsAppend(items: seq<QAEntry>, item: QAEntry)
    ensures Questions(items + [item]) == Questions(items) + [item.question]
  {
    if items != [] {
      assert (items + [item])[1..] == items[1..] + [item];
      QuestionsAppend(items[1..], item);
    }
  }
}
