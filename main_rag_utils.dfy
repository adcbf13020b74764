/** The retrieval layer of `eduragpt-main/lib/rag-utils.ts`: a fixed store of
    two chunks, a case-insensitive whole-query substring search cut to three
    results, one fixed answer and a cheat-sheet template around the topic.
    Everything here is deterministic and nothing changes the store. */
module MainRagUtils {
  import opened Seqs
  import opened Text
  import opened Chunks

  /** The module-level `documentChunks` array, which is never modified. */
  const DocumentChunks: seq<DocumentChunk> :=
    [
      DocumentChunk("chunk1",
        "Machine learning is a field of study that gives computers the ability to learn without being explicitly programmed.",
        Metadata("Machine Learning Lecture 1.pdf", 3)),
      DocumentChunk("chunk2",
        "Supervised learning is a type of machine learning where the algorithm learns from labeled training data.",
        Metadata("Machine Learning Lecture 1.pdf", 5))
    ]

  /** `chunk.content.toLowerCase().includes(query.toLowerCase())` */
  predicate Matches(query: string, chunk: DocumentChunk)
  {
    Contains(Lower(chunk.content), Lower(query))
  }

  /** `documentChunks.filter(...).slice(0, 3)` over a given store. */
  function Search(store: seq<DocumentChunk>, query: string): (r: seq<DocumentChunk>)
    ensures |r| <= 3
    ensures r <= Filter(store, (c: DocumentChunk) => Matches(query, c))
    ensures forall c :: c in r ==> c in store && Matches(query, c)
  {
    Take(Filter(store, (c: DocumentChunk) => Matches(query, c)), 3)
  }

  /** `searchDocuments(query)`: the search over the module's own store. */
  function SearchDocuments(query: string): (r: seq<DocumentChunk>)
    ensures |r| <= |DocumentChunks|
  {
    Search(DocumentChunks, query)
  }

  /** The search keeps store order: with fewer than four matches it returns
      all of them, otherwise the first three. */
  lemma SearchIsFirstMatches(store: seq<DocumentChunk>, query: string)
    ensures var matches := Filter(store, (c: DocumentChunk) => Matches(query, c));
      IsSubsequence(Search(store, query), store) &&
      (|matches| <= 3 ==> Search(store, query) == matches) &&
      (|matches| > 3 ==> Search(store, query) == matches[..3])
  {
    var matches := Filter(store, (c: DocumentChunk) => Matches(query, c));
    FilterIsSubsequence(store, (c: DocumentChunk) => Matches(query, c));
    PrefixIsSubsequence(Search(store, query), matches);
    SubsequenceTransitive(Search(store, query), matches, store);
  }

  lemma {:induction false} PrefixIsSubsequence(a: seq<DocumentChunk>, b: seq<DocumentChunk>)
    requires a <= b
    ensures IsSubsequence(a, b)
    decreases |b|
  {
    if a != [] {
      PrefixIsSubsequence(a[1..], b[1..]);
    }
  }

  lemma {:induction false} SubsequenceTransitive(a: seq<DocumentChunk>, b: seq<DocumentChunk>,
                                                  c: seq<DocumentChunk>)
    requires IsSubsequence(a, b) && IsSubsequence(b, c)
    ensures IsSubsequence(a, c)
    decreases |c|
  {
    if a != [] && c != [] {
      if b[0] == c[0] && IsSubsequence(b[1..], c[1..]) {
        if a[0] == b[0] && IsSubsequence(a[1..], b[1..]) {
          SubsequenceTransitive(a[1..], b[1..], c[1..]);
        } else {
          SubsequenceTransitive(a, b[1..], c[1..]);
        }
      } else {
        SubsequenceTransitive(a, b, c[1..]);
      }
    }
  }

  /** The empty query matches every chunk: the result is the first three of the store. */
  lemma EmptyQueryTakesFirst(store: seq<DocumentChunk>)
    ensures Search(store, "") == Take(store, 3)
  {
    forall c | c in store ensures Matches("", c) {
      ContainsEmpty(Lower(c.content));
    }
    FilterKeepsAll(store, (c: DocumentChunk) => Matches("", c));
  }

  /** The search ignores the case of the query. */
  lemma SearchIgnoresQueryCase(store: seq<DocumentChunk>, query: string)
    ensures Search(store, query) == Search(store, Lower(query))
  {
    LowerIdempotent(query);
    FilterCongruent(store, (c: DocumentChunk) => Matches(query, c),
                    (c: DocumentChunk) => Matches(Lower(query), c));
  }

  /** The answer text, the same for every query. */
  const RagAnswer: string :=
    "Based on your " +
    ("study materials, machine learning is a field of study that gives computers the ability to learn without being explicitly programmed. Supervised learning is a specific type of machine learning where the algorithm learns from labeled training data.")

  /** `generateRAGResponse(query)` */
  function GenerateRAGResponse(query: string): (r: Response)
    ensures r.text == RagAnswer
    ensures |r.sources| <= 3
    ensures var retrieved := SearchDocuments(query);
      |r.sources| == |retrieved| &&
      forall i :: 0 <= i < |retrieved| ==>
        r.sources[i] == Source(retrieved[i].metadata.source, retrieved[i].metadata.page)
  {
    Response(RagAnswer, SourcesOf(SearchDocuments(query)))
  }

  /** The indentation before the cheat sheet's `# ` heading. */
  const CheatSheetLead: string := "\n    "

  /** The cheat-sheet text before the topic. */
  const CheatSheetPrefix: string := CheatSheetLead + "# "

  /** The cheat-sheet text after the topic. */
  const CheatSheetSuffix: string := "\n" + CheatSheetBody

  /** The cheat-sheet text after the heading line. */
  const CheatSheetBody: string :=
    ("    \n"
     + "    ## Definition\n"
     + "    - A field of study that gives computers the ability to learn without being explicitly programmed\n"
     + "    \n"
     + "    ## Key Concepts\n"
     + "    - Supervised Learning: Learning from labeled data\n"
     + "    - Unsupervised Learning: Finding patterns in unlabeled data\n"
     + "    \n"
     + "    ## Common Algorithms\n"
     + "    - Linear Regression\n"
     + "    - Decision Trees\n"
     + "    - Neural Networks\n"
     + "    ")

  /** The cheat-sheet template filled in with the topic. */
  function CheatSheetText(topic: string): string
  {
    CheatSheetPrefix + topic + CheatSheetSuffix
  }

  /** `generateCheatSheet(topic)` */
  function GenerateCheatSheet(topic: string): (r: Response)
    ensures r.text == CheatSheetText(topic)
    ensures |r.sources| <= 3
    ensures var retrieved := SearchDocuments(topic);
      |r.sources| == |retrieved| &&
      forall i :: 0 <= i < |retrieved| ==>
        r.sources[i] == Source(retrieved[i].metadata.source, retrieved[i].metadata.page)
  {
    Response(CheatSheetText(topic), SourcesOf(SearchDocuments(topic)))
  }

  /** The sheet is the template head, the topic, then text that is the same
      for every topic. */
  lemma CheatSheetShape(topic: string)
    ensures var t := CheatSheetText(topic);
      t[..|CheatSheetPrefix| + |topic|] == CheatSheetPrefix + topic &&
      t[|CheatSheetPrefix| + |topic|..] == CheatSheetSuffix
  {
  }

  /** The cheat sheet has the heading line `# topic`, and different topics give
      different sheets. */
  lemma CheatSheetHeading(topic: string, other: string)
    ensures Contains(CheatSheetText(topic), "# " + topic + "\n")
    ensures topic != other ==> CheatSheetText(topic) != CheatSheetText(other)
  {
    HeadedTemplate(CheatSheetLead, CheatSheetBody, topic, other);
  }
}
