/** The retrieval layer of `eduragpt/lib/rag-utils.ts`: an in-memory store of
    document chunks, upload-time chunking by blank lines, keyword search with a
    random shuffle, and canned answer and cheat-sheet texts chosen by keywords.

    `Math.random` (used only through comparator-driven `sort` calls) is modelled
    as an arbitrary permutation: every order the sort may produce is allowed. */
module RagUtils {
  import opened Seqs
  import opened Text
  import opened Chunks

  // ---------------------------------------------------------------------
  // The initial store

  /** The thirteen chunks the module-level `documentChunks` array starts with. */
  const InitialChunks: seq<DocumentChunk> :=
    [
        DocumentChunk("chunk1",
          "Machine learning is a field of study that gives computers the ability to learn without being explicitly programmed.",
          Metadata("Machine Learning Lecture 1.pdf", 3)),
        DocumentChunk("chunk2",
          "Supervised learning is a type of machine learning where the algorithm learns from labeled training data.",
          Metadata("Machine Learning Lecture 1.pdf", 5)),
        DocumentChunk("chunk3",
          "Neural networks are computing systems inspired by the biological neural networks in animal brains.",
          Metadata("Machine Learning Lecture 3.pdf", 2)),
        DocumentChunk("chunk4",
          "Deep learning is a subset of machine learning that uses multi-layered neural networks to learn from data.",
          Metadata("Machine Learning Lecture 3.pdf", 4)),
        DocumentChunk("chunk5",
          "Data structures are specialized formats for organizing and storing data to enable efficient access and modification.",
          Metadata("Data Structures Notes.pdf", 1)),
        DocumentChunk("chunk6",
          "Arrays store elements in contiguous memory locations, allowing for constant-time access to elements using their indices.",
          Metadata("Data Structures Notes.pdf", 3)),
        DocumentChunk("chunk7",
          "Linked lists consist of nodes where each node contains data and a reference to the next node in the sequence.",
          Metadata("Data Structures Notes.pdf", 7)),
        DocumentChunk("chunk8",
          "Trees are hierarchical data structures with a root value and subtrees of children with a parent node.",
          Metadata("Data Structures Notes.pdf", 12)),
        DocumentChunk("chunk9",
          "Graphs are collections of nodes (vertices) connected by edges, representing relationships between objects.",
          Metadata("Data Structures Notes.pdf", 18)),
        DocumentChunk("chunk10",
          "Algorithms are step-by-step procedures or formulas for solving problems, especially by a computer.",
          Metadata("Algorithms Textbook Chapter 1.pdf", 2)),
        DocumentChunk("chunk11",
          "Sorting algorithms arrange elements in a specific order, such as numerical or lexicographical.",
          Metadata("Algorithms Textbook Chapter 3.pdf", 5)),
        DocumentChunk("chunk12",
          "Searching algorithms are designed to retrieve information stored within a data structure.",
          Metadata("Algorithms Textbook Chapter 4.pdf", 3)),
        DocumentChunk("chunk13",
          "Dynamic programming solves complex problems by breaking them down into simpler subproblems.",
          Metadata("Algorithms Textbook Chapter 5.pdf", 7))
      ]

  // ---------------------------------------------------------------------
  // Chunking an uploaded material

  /** The blank-line separator `addDocumentChunks` splits on. */
  const ParagraphSeparator: string := "\n\n"

  /** The chunk made from paragraph number `index` of material `name`:
      id `${name}-chunk-${index}`, page `Math.floor(index / 2) + 1`. */
  function ParagraphChunk(name: string, paragraph: string, index: nat): (c: DocumentChunk)
    ensures c.metadata.page >= 1
  {
    DocumentChunk(name + "-chunk-" + NatToString(index), paragraph,
                  Metadata(name, index / 2 + 1))
  }

  /** The chunks `forEach` pushes for `paragraphs`: one per paragraph whose
      trimmed text is not empty, numbered by its position among ALL paragraphs. */
  function ChunksOf(name: string, paragraphs: seq<string>): seq<DocumentChunk>
    decreases |paragraphs|
  {
    if paragraphs == [] then []
    else
      var n := |paragraphs| - 1;
      ChunksOf(name, paragraphs[..n])
        + (if IsBlank(paragraphs[n]) then [] else [ParagraphChunk(name, paragraphs[n], n)])
  }

  /** The positions of the paragraphs that are not blank, in increasing order. */
  function NonBlankIndices(paragraphs: seq<string>): (r: seq<nat>)
    ensures forall k :: 0 <= k < |r| ==> r[k] < |paragraphs| && !IsBlank(paragraphs[r[k]])
    decreases |paragraphs|
  {
    if paragraphs == [] then []
    else
      var n := |paragraphs| - 1;
      NonBlankIndices(paragraphs[..n]) + (if IsBlank(paragraphs[n]) then [] else [n])
  }

  predicate StrictlyIncreasing(xs: seq<nat>)
  {
    forall i, j :: 0 <= i < j < |xs| ==> xs[i] < xs[j]
  }

  /** Chunk `k` is the chunk of the `k`-th non-blank paragraph, in order. */
  lemma {:induction false} ChunksAtIndices(name: string, paragraphs: seq<string>)
    ensures var idx := NonBlankIndices(paragraphs);
      var cs := ChunksOf(name, paragraphs);
      |cs| == |idx| && StrictlyIncreasing(idx) &&
      forall k :: 0 <= k < |cs| ==> cs[k] == ParagraphChunk(name, paragraphs[idx[k]], idx[k])
    decreases |paragraphs|
  {
    if paragraphs != [] {
      var n := |paragraphs| - 1;
      var prefix := paragraphs[..n];
      ChunksAtIndices(name, prefix);
      forall k | 0 <= k < |NonBlankIndices(prefix)|
        ensures prefix[NonBlankIndices(prefix)[k]] == paragraphs[NonBlankIndices(prefix)[k]]
      {
      }
    }
  }

  /** The contents of the new chunks are exactly the non-blank paragraphs, in order. */
  lemma {:induction false} ChunkContents(name: string, paragraphs: seq<string>)
    ensures ContentsOf(ChunksOf(name, paragraphs)) == Filter(paragraphs, (p: string) => !IsBlank(p))
    decreases |paragraphs|
  {
    if paragraphs != [] {
      var n := |paragraphs| - 1;
      var nonBlank := (p: string) => !IsBlank(p);
      ChunkContents(name, paragraphs[..n]);
      SplitLast(paragraphs);
      FilterAppend(paragraphs[..n], [paragraphs[n]], nonBlank);
      ContentsOfAppend(ChunksOf(name, paragraphs[..n]),
        if IsBlank(paragraphs[n]) then [] else [ParagraphChunk(name, paragraphs[n], n)]);
    }
  }

  /** Two chunks of the same upload never share an id, and their pages never go down. */
  lemma ChunkIdsDistinctPagesOrdered(name: string, paragraphs: seq<string>)
    ensures var cs := ChunksOf(name, paragraphs);
      forall i, j :: 0 <= i < j < |cs| ==>
        cs[i].id != cs[j].id && 1 <= cs[i].metadata.page <= cs[j].metadata.page
  {
    var cs := ChunksOf(name, paragraphs);
    var idx := NonBlankIndices(paragraphs);
    ChunksAtIndices(name, paragraphs);
    forall i, j | 0 <= i < j < |cs|
      ensures cs[i].id != cs[j].id && 1 <= cs[i].metadata.page <= cs[j].metadata.page
    {
      var head := name + "-chunk-";
      var a, b := NatToString(idx[i]), NatToString(idx[j]);
      NatToStringInjective(idx[i], idx[j]);
      assert cs[i].id == head + a && cs[j].id == head + b;
      assert (head + a)[|head|..] == a;
      assert (head + b)[|head|..] == b;
    }
  }

  /** `addDocumentChunks`' loop: splits the content on blank lines and builds
      the chunk of every non-blank paragraph. */
  method BuildChunks(name: string, content: string) returns (newChunks: seq<DocumentChunk>)
    ensures newChunks == ChunksOf(name, Split(content, ParagraphSeparator))
  {
    var paragraphs := Split(content, ParagraphSeparator);
    newChunks := [];
    var index := 0;
    while index < |paragraphs|
      invariant 0 <= index <= |paragraphs|
      invariant newChunks == ChunksOf(name, paragraphs[..index])
    {
      TakeNext(paragraphs, index);
      if |Trim(paragraphs[index])| > 0 {
        newChunks := newChunks + [ParagraphChunk(name, paragraphs[index], index)];
      }
      index := index + 1;
    }
    assert paragraphs[..index] == paragraphs;
  }

  // ---------------------------------------------------------------------
  // Keyword search

  /** `query.toLowerCase().split(/\s+/)` */
  function QueryWords(query: string): seq<string>
  {
    SplitWords(Lower(query))
  }

  /** `word.length > 3 && content.toLowerCase().includes(word)` */
  predicate WordMatches(word: string, content: string)
  {
    Utf16Length(word) > 3 && Contains(Lower(content), word)
  }

  /** Some word of the query longer than three characters occurs in the chunk,
      ignoring case. */
  predicate IsRelevant(query: string, chunk: DocumentChunk)
  {
    var words := QueryWords(query);
    exists i :: 0 <= i < |words| && WordMatches(words[i], chunk.content)
  }

  /** `documentChunks.filter(...)`: the relevant chunks in store order. */
  function RelevantChunks(store: seq<DocumentChunk>, query: string): (r: seq<DocumentChunk>)
    ensures forall c :: c in r <==> c in store && IsRelevant(query, c)
  {
    Filter(store, (c: DocumentChunk) => IsRelevant(query, c))
  }

  /** A query whose words are all at most three characters long matches nothing. */
  lemma ShortWordsNeverMatch(query: string, chunk: DocumentChunk)
    requires forall w :: w in QueryWords(query) ==> Utf16Length(w) <= 3
    ensures !IsRelevant(query, chunk)
  {
  }

  /** A query that is a single word longer than three characters matches a chunk
      exactly when the chunk contains the word, ignoring case. */
  lemma SingleWordQuery(word: string, chunk: DocumentChunk)
    requires NoWhitespace(word) && Utf16Length(word) > 3
    ensures IsRelevant(word, chunk) <==> Contains(Lower(chunk.content), Lower(word))
  {
    var lower := Lower(word);
    LowerKeepsNoWhitespace(word);
    LowerKeepsUtf16Length(word);
    SplitWordsSingle(lower);
    var words := QueryWords(word);
    assert words == [lower];
    if IsRelevant(word, chunk) {
      var i :| 0 <= i < |words| && WordMatches(words[i], chunk.content);
      assert i == 0;
    }
    if Contains(Lower(chunk.content), lower) {
      assert WordMatches(words[0], chunk.content);
    }
  }

  /** What one call of `searchDocuments` may do, given the store `before` it
      starts from: with no relevant chunk it sorts the store itself into a random
      order and returns its first three; otherwise it leaves the store alone
      and returns the first three of a random reordering of the relevant ones. */
  ghost predicate SearchOutcome(before: seq<DocumentChunk>, after: seq<DocumentChunk>,
                                query: string, result: seq<DocumentChunk>)
  {
    var relevant := RelevantChunks(before, query);
    if relevant == [] then
      IsPermutation(before, after) && result == Take(after, 3)
    else
      after == before &&
      exists shuffled :: IsPermutation(relevant, shuffled) && result == Take(shuffled, 3)
  }

  lemma TakeMultiset(xs: seq<DocumentChunk>, n: nat)
    ensures multiset(Take(xs, n)) <= multiset(xs)
  {
    if n <= |xs| {
      assert xs == xs[..n] + xs[n..];
    }
  }

  /** A search returns at most three chunks, never a chunk more often than the
      store holds it, only relevant chunks when there are any, and otherwise
      three of the (reordered) store; the store keeps its contents. */
  lemma SearchResultProperties(before: seq<DocumentChunk>, after: seq<DocumentChunk>,
                               query: string, result: seq<DocumentChunk>)
    requires SearchOutcome(before, after, query, result)
    ensures multiset(after) == multiset(before)
    ensures multiset(result) <= multiset(before)
    ensures NoDuplicates(before) ==> NoDuplicates(result)
    ensures var relevant := RelevantChunks(before, query);
      if relevant == [] then |result| == Min(3, |before|)
      else |result| == Min(3, |relevant|) && forall c :: c in result ==> IsRelevant(query, c)
  {
    var relevant := RelevantChunks(before, query);
    if relevant == [] {
      TakeMultiset(after, 3);
      if NoDuplicates(before) {
        SubMultisetNoDuplicates(result, before);
      }
    } else {
      var shuffled :| IsPermutation(relevant, shuffled) && result == Take(shuffled, 3);
      TakeMultiset(shuffled, 3);
      FilterIsSubsequence(before, (c: DocumentChunk) => IsRelevant(query, c));
      SubsequenceMultiset(relevant, before);
      assert |shuffled| == |relevant| by {
        assert |multiset(shuffled)| == |multiset(relevant)|;
      }
      if NoDuplicates(before) {
        SubMultisetNoDuplicates(result, before);
      }
      forall c | c in result ensures IsRelevant(query, c) {
        assert c in multiset(result);
        assert c in multiset(relevant);
      }
    }
  }

  // ---------------------------------------------------------------------
  // Canned texts

  /** Answer to a query that mentions "machine learning". */
  const MachineLearningAnswer: string :=
    "Based on your " +
    ("study materials, machine learning is a field of study that gives computers the ability to learn without being explicitly programmed. It includes various approaches such as supervised learning, which uses labeled training data, and neural networks, which are inspired by biological neural networks in animal brains.")

  /** Answer to a query that mentions "data structure". */
  const DataStructureAnswer: string :=
    "According " +
    ("to your materials, data structures are specialized formats for organizing and storing data to enable efficient access and modification. Common data structures include arrays, which store elements in contiguous memory locations, and linked lists, which consist of nodes where each node contains data and a reference to the next node.")

  /** Answer to a query that mentions "algorithm". */
  const AlgorithmAnswer: string :=
    "Your study " +
    ("materials define algorithms as step-by-step procedures or formulas for solving problems, especially by a computer. They include sorting algorithms that arrange elements in a specific order, searching algorithms designed to retrieve information, and dynamic programming which solves complex problems by breaking them down into simpler subproblems.")

  /** Answer to a query that mentions "neural network" or "deep learning". */
  const NeuralNetworkAnswer: string :=
    "From your " +
    ("materials, neural networks are computing systems inspired by the biological neural networks in animal brains. Deep learning is described as a subset of machine learning that uses multi-layered neural networks to learn from data.")

  /** The fallback answer: the text before the verbatim query. */
  const FallbackPrefix: string :=
    "Based on the " +
    ("context from your study materials, I can see that you're asking about ")

  /** The fallback answer: the text after the verbatim query. */
  const FallbackSuffix: string :=
    ". The materials " +
    ("cover various topics including machine learning, data structures, and algorithms. However, I don't have specific information about your exact question in the provided context.")

  /** Cheat sheet for a topic that mentions "machine learning". */
  const MachineLearningSheet: string :=
    "\n      # Machine " +
    ("Learning\n"
     + "      \n"
     + "      ## Definition\n"
     + "      - A field of study that gives computers the ability to learn without being explicitly programmed\n"
     + "      \n"
     + "      ## Key Concepts\n"
     + "      - Supervised Learning: Learning from labeled data\n"
     + "      - Unsupervised Learning: Finding patterns in unlabeled data\n"
     + "      - Neural Networks: Computing systems inspired by biological neural networks\n"
     + "      - Deep Learning: Multi-layered neural networks for complex pattern recognition\n"
     + "      \n"
     + "      ## Common Algorithms\n"
     + "      - Linear Regression\n"
     + "      - Decision Trees\n"
     + "      - Support Vector Machines\n"
     + "      - K-means Clustering\n"
     + "      - Neural Networks\n"
     + "      ")

  /** Cheat sheet for a topic that mentions "data structure". */
  const DataStructureSheet: string :=
    "\n      # Data " +
    ("Structures\n"
     + "      \n"
     + "      ## Definition\n"
     + "      - Specialized formats for organizing and storing data to enable efficient access and modification\n"
     + "      \n"
     + "      ## Key Types\n"
     + "      - Arrays: Contiguous memory locations with constant-time access\n"
     + "      - Linked Lists: Nodes with data and references to next nodes\n"
     + "      - Trees: Hierarchical structures with parent-child relationships\n"
     + "      - Graphs: Collections of nodes connected by edges\n"
     + "      - Hash Tables: Key-value pairs with efficient lookup\n"
     + "      \n"
     + "      ## Operations\n"
     + "      - Insertion: Adding elements\n"
     + "      - Deletion: Removing elements\n"
     + "      - Traversal: Visiting all elements\n"
     + "      - Searching: Finding specific elements\n"
     + "      - Sorting: Arranging elements in order\n"
     + "      ")

  /** Cheat sheet for a topic that mentions "algorithm". */
  const AlgorithmSheet: string :=
    "\n      # Algorithms\n" +
    ("      \n"
     + "      ## Definition\n"
     + "      - Step-by-step procedures or formulas for solving problems\n"
     + "      \n"
     + "      ## Types\n"
     + "      - Sorting Algorithms: Arrange elements in specific order\n"
     + "      - Searching Algorithms: Retrieve information from data structures\n"
     + "      - Dynamic Programming: Break complex problems into simpler subproblems\n"
     + "      - Greedy Algorithms: Make locally optimal choices\n"
     + "      - Divide and Conquer: Break problems into subproblems, solve recursively\n"
     + "      \n"
     + "      ## Complexity Analysis\n"
     + "      - Time Complexity: How runtime scales with input size\n"
     + "      - Space Complexity: How memory usage scales with input size\n"
     + "      - Big O Notation: Upper bound of growth rate\n"
     + "      ")

  /** The general cheat sheet: the text before the topic. */
  const DefaultSheetPrefix: string := DefaultSheetLead + "# "

  /** The indentation before the general sheet's `# ` heading. */
  const DefaultSheetLead: string := "\n      "

  /** The general cheat sheet: the text after the topic. */
  const DefaultSheetSuffix: string := "\n" + DefaultSheetBody

  /** The general cheat sheet: the text after the heading line. */
  const DefaultSheetBody: string :=
    ("      \n"
     + "      ## Key Points\n"
     + "      - Important concept in computer science and data analysis\n"
     + "      - Related to information processing and problem-solving\n"
     + "      \n"
     + "      ## Applications\n"
     + "      - Used in various fields including software development\n"
     + "      - Helps in organizing and analyzing data efficiently\n"
     + "      \n"
     + "      ## Best Practices\n"
     + "      - Follow established patterns and principles\n"
     + "      - Optimize for performance and maintainability\n"
     + "      ")

  /** `text.toLowerCase().includes(keyword)` */
  predicate Mentions(text: string, keyword: string)
  {
    Contains(Lower(text), keyword)
  }

  /** The answer `generateRAGResponse` gives for `query`: the first keyword
      test that succeeds picks a fixed text, otherwise the query is echoed. */
  function ResponseText(query: string): string
  {
    if Mentions(query, "machine learning") then MachineLearningAnswer
    else if Mentions(query, "data structure") then DataStructureAnswer
    else if Mentions(query, "algorithm") then AlgorithmAnswer
    else if Mentions(query, "neural network") || Mentions(query, "deep learning") then NeuralNetworkAnswer
    else FallbackPrefix + query + FallbackSuffix
  }

  /** The cheat sheet `generateCheatSheet` writes for `topic`. */
  function CheatSheetText(topic: string): string
  {
    if Mentions(topic, "machine learning") then MachineLearningSheet
    else if Mentions(topic, "data structure") then DataStructureSheet
    else if Mentions(topic, "algorithm") then AlgorithmSheet
    else DefaultSheetPrefix + topic + DefaultSheetSuffix
  }

  /** True of none of the answer keywords. */
  predicate NoAnswerKeyword(query: string)
  {
    !Mentions(query, "machine learning") && !Mentions(query, "data structure")
    && !Mentions(query, "algorithm")
    && !Mentions(query, "neural network") && !Mentions(query, "deep learning")
  }

  /** Each fixed answer is given exactly when its keyword is the first that
      matches, and the echoing answer exactly when no keyword matches. */
  lemma ResponseTextIff(query: string)
    ensures ResponseText(query) == MachineLearningAnswer <==> Mentions(query, "machine learning")
    ensures ResponseText(query) == DataStructureAnswer <==>
      !Mentions(query, "machine learning") && Mentions(query, "data structure")
    ensures ResponseText(query) == AlgorithmAnswer <==>
      !Mentions(query, "machine learning") && !Mentions(query, "data structure")
      && Mentions(query, "algorithm")
    ensures ResponseText(query) == NeuralNetworkAnswer <==>
      !Mentions(query, "machine learning") && !Mentions(query, "data structure")
      && !Mentions(query, "algorithm")
      && (Mentions(query, "neural network") || Mentions(query, "deep learning"))
    ensures ResponseText(query) == FallbackPrefix + query + FallbackSuffix <==> NoAnswerKeyword(query)
  {
    var fallback := FallbackPrefix + query + FallbackSuffix;
    assert fallback[0] == 'B' && fallback[9] == 't';
    assert MachineLearningAnswer[9] == 'y';
    assert DataStructureAnswer[0] == 'A';
    assert AlgorithmAnswer[0] == 'Y';
    assert NeuralNetworkAnswer[0] == 'F';
    assert MachineLearningAnswer[0] == 'B';
  }

  /** The echoing answer quotes the query verbatim. */
  lemma FallbackQuotesQuery(query: string)
    requires NoAnswerKeyword(query)
    ensures Contains(ResponseText(query), query)
  {
    ContainsInfix(FallbackPrefix, query, FallbackSuffix);
  }

  /** Two queries that both get the echoing answer get the same answer only if
      they are the same query. */
  lemma FallbackInjective(q1: string, q2: string)
    requires NoAnswerKeyword(q1) && NoAnswerKeyword(q2)
    requires ResponseText(q1) == ResponseText(q2)
    ensures q1 == q2
  {
    var s1 := FallbackPrefix + q1 + FallbackSuffix;
    var s2 := FallbackPrefix + q2 + FallbackSuffix;
    assert |q1| == |q2|;
    assert q1 == s1[|FallbackPrefix|..|FallbackPrefix| + |q1|];
    assert q2 == s2[|FallbackPrefix|..|FallbackPrefix| + |q2|];
  }

  /** The three fixed cheat sheets are distinct, and each is used exactly when
      its keyword is the first that matches. */
  lemma FixedSheetsDistinct(topic: string)
    ensures MachineLearningSheet != DataStructureSheet
    ensures MachineLearningSheet != AlgorithmSheet
    ensures DataStructureSheet != AlgorithmSheet
    ensures Mentions(topic, "machine learning") ==> CheatSheetText(topic) == MachineLearningSheet
    ensures (!Mentions(topic, "machine learning") && Mentions(topic, "data structure"))
      ==> CheatSheetText(topic) == DataStructureSheet
    ensures (!Mentions(topic, "machine learning") && !Mentions(topic, "data structure")
             && Mentions(topic, "algorithm"))
      ==> CheatSheetText(topic) == AlgorithmSheet
  {
    assert MachineLearningSheet[9] == 'M';
    assert DataStructureSheet[9] == 'D';
    assert AlgorithmSheet[9] == 'A';
  }

  /** True of none of the cheat-sheet keywords. */
  predicate NoSheetKeyword(topic: string)
  {
    !Mentions(topic, "machine learning") && !Mentions(topic, "data structure")
    && !Mentions(topic, "algorithm")
  }

  /** The general cheat sheet carries the topic as its `# ` heading, and
      different topics get different sheets. */
  lemma DefaultSheetHeading(topic: string, other: string)
    requires NoSheetKeyword(topic) && NoSheetKeyword(other) && topic != other
    ensures Contains(CheatSheetText(topic), "# " + topic + "\n")
    ensures CheatSheetText(topic) != CheatSheetText(other)
  {
    HeadedTemplate(DefaultSheetLead, DefaultSheetBody, topic, other);
  }

  // ---------------------------------------------------------------------
  // The store

  /** The module-level `documentChunks` array. */
  class ChunkStore {
    var chunks: seq<DocumentChunk>

    constructor ()
      ensures chunks == InitialChunks
    {
      chunks := InitialChunks;
    }

    /** `addDocumentChunks(material)`: chunks the content, appends the new
        chunks to the store and returns them. */
    method AddDocumentChunks(name: string, content: string) returns (newChunks: seq<DocumentChunk>)
      modifies this
      ensures newChunks == ChunksOf(name, Split(content, ParagraphSeparator))
      ensures chunks == old(chunks) + newChunks
    {
      newChunks := BuildChunks(name, content);
      chunks := chunks + newChunks;
    }

    /** `searchDocuments(query)` */
    method SearchDocuments(query: string) returns (result: seq<DocumentChunk>)
      modifies this
      ensures SearchOutcome(old(chunks), chunks, query, result)
    {
      var relevant := RelevantChunks(chunks, query);
      if |relevant| == 0 {
        var sorted :| IsPermutation(chunks, sorted) by {
          assert IsPermutation(chunks, chunks);
        }
        chunks := sorted;
        result := Take(chunks, 3);
      } else {
        var shuffled :| IsPermutation(relevant, shuffled) by {
          assert IsPermutation(relevant, relevant);
        }
        result := Take(shuffled, Min(|relevant|, 3));
      }
    }

    /** `generateRAGResponse(query)`: the canned answer for the query and the
        sources of the chunks the search returned. */
    method GenerateRAGResponse(query: string) returns (response: Response)
      modifies this
      ensures response.text == ResponseText(query)
      ensures exists retrieved ::
        SearchOutcome(old(chunks), chunks, query, retrieved) && response.sources == SourcesOf(retrieved)
    {
      var relevant := SearchDocuments(query);
      response := Response(ResponseText(query), SourcesOf(relevant));
    }

    /** `generateCheatSheet(topic)`: the canned sheet for the topic and the
        sources of the chunks the search returned. */
    method GenerateCheatSheet(topic: string) returns (response: Response)
      modifies this
      ensures response.text == CheatSheetText(topic)
      ensures exists retrieved ::
        SearchOutcome(old(chunks), chunks, topic, retrieved) && response.sources == SourcesOf(retrieved)
    {
      var relevant := SearchDocuments(topic);
      response := Response(CheatSheetText(topic), SourcesOf(relevant));
    }
  }
}
