/** The cheat-sheet page of `eduragpt-main/app/cheatsheet/page.tsx`: a course
    and topic selection, a delayed generation step that concatenates the
    items of every selected topic, and the plain-text export used by copy and
    download. Toasts, the clipboard, printing and the download link itself are
    not modelled; the generation delay is a separate step. */
module CheatSheetPage {
  import opened Wrappers
  import opened Seqs
  import opened Text

  datatype CheatSheetItem = CheatSheetItem(
    id: string, title: string, content: string, source: string, page: nat)

  /** The `topics` record: the topics offered for each course key. */
  const Topics: map<string, seq<string>> := map[
    "machine-learning" := ["Supervised Learning", "Unsupervised Learning", "Neural Networks",
                           "Decision Trees", "Support Vector Machines", "Clustering",
                           "Dimensionality Reduction", "Evaluation Metrics"],
    "data-structures" := ["Arrays", "Linked Lists", "Stacks", "Queues", "Trees", "Graphs",
                          "Hash Tables", "Heaps"],
    "algorithms" := ["Sorting Algorithms", "Searching Algorithms", "Dynamic Programming",
                     "Greedy Algorithms", "Graph Algorithms", "Divide and Conquer",
                     "Backtracking", "String Algorithms"]
  ]

  /** The `mockCheatSheetContent` record: predefined items for two topics. */
  const MockContent: map<string, seq<CheatSheetItem>> :=
    map["Supervised Learning" := SupervisedLearningItems, "Neural Networks" := NeuralNetworksItems]

  const SupervisedLearningItems: seq<CheatSheetItem> := [
    CheatSheetItem("1", "Definition", SupervisedDefinition, Lecture1, 5),
    CheatSheetItem("2", "Types", SupervisedTypes, Lecture1, 7),
    CheatSheetItem("3", "Common Algorithms", SupervisedAlgorithms, Lecture2, 12)
  ]

  const NeuralNetworksItems: seq<CheatSheetItem> := [
    CheatSheetItem("4", "Definition", NeuralDefinition, Lecture5, 3),
    CheatSheetItem("5", "Components", NeuralComponents, Lecture5, 5),
    CheatSheetItem("6", "Training Process", NeuralTraining, Lecture6, 8)
  ]

  const Lecture1 := "Machine Learning Lecture 1.pdf"
  const Lecture2 := "Machine Learning Lecture 2.pdf"
  const Lecture5 := "Machine Learning Lecture 5.pdf"
  const Lecture6 := "Machine Learning Lecture 6.pdf"

  const SupervisedDefinition := "Supervised learning is a type of machine learning where the algorithm learns from labeled training data to make predictions or decisions."
  const SupervisedTypes := "Classification: Predicting discrete class labels\nRegression: Predicting continuous values"
  const SupervisedAlgorithms := "- Linear Regression\n- Logistic Regression\n- Decision Trees\n- Random Forests\n- Support Vector Machines\n- Neural Networks"
  const NeuralDefinition := "Neural networks are computing systems inspired by the biological neural networks in animal brains, consisting of artificial neurons that can learn from and make decisions based on input data."
  const NeuralComponents := "- Input Layer\n- Hidden Layers\n- Output Layer\n- Weights and Biases\n- Activation Functions"
  const NeuralTraining := "1. Forward Propagation: Input data passes through the network\n2. Loss Calculation: Compare output with expected result\n3. Backpropagation: Calculate gradients\n4. Weight Update: Adjust weights using an optimizer"

  // ---------------------------------------------------------------------
  // Topic selection

  /** `prev.includes(topic) ? prev.filter(t => t !== topic) : [...prev, topic]` */
  function Toggle(selected: seq<string>, topic: string): (r: seq<string>)
    ensures topic in r <==> topic !in selected
    ensures forall t :: t != topic ==> (t in r <==> t in selected)
  {
    if topic in selected then Filter(selected, (t: string) => t != topic) else selected + [topic]
  }

  /** A selection without repeated topics stays without repeated topics. */
  lemma ToggleKeepsNoDuplicates(selected: seq<string>, topic: string)
    requires NoDuplicates(selected)
    ensures NoDuplicates(Toggle(selected, topic))
  {
    if topic in selected {
      FilterNoDuplicates(selected, (t: string) => t != topic);
    }
  }

  /** Toggling an unselected topic on and off again restores the selection. */
  lemma {:induction false} ToggleTwiceRestores(selected: seq<string>, topic: string)
    requires topic !in selected
    ensures Toggle(Toggle(selected, topic), topic) == selected
  {
    var p := (t: string) => t != topic;
    FilterAppend(selected, [topic], p);
    FilterKeepsAll(selected, p);
  }

  /** Toggling a selected topic keeps the other topics in their order. */
  lemma ToggleOffKeepsOrder(selected: seq<string>, topic: string)
    requires topic in selected
    ensures IsSubsequence(Toggle(selected, topic), selected)
  {
    FilterIsSubsequence(selected, (t: string) => t != topic);
  }

  // ---------------------------------------------------------------------
  // Generation

  /** The item made for a topic without predefined content, at time `now`. */
  function GeneratedItem(topic: string, now: nat): (item: CheatSheetItem)
    ensures item.title == "Key Concepts" && item.source == "Generated from multiple sources"
    ensures item.page == 0
  {
    CheatSheetItem("generated-" + topic + "-" + NatToString(now), "Key Concepts",
                   GeneratedLead + topic + GeneratedTail, "Generated from multiple sources", 0)
  }

  /** The text of a generated item around its topic. */
  const GeneratedLead := "This is generated content for "
  const GeneratedTail := ". In a real implementation, this would be generated using RAG from your study materials."

  /** The two topics that have predefined content, each with three items. */
  lemma MockContentShape()
    ensures forall topic :: topic in MockContent <==> topic == "Supervised Learning" || topic == "Neural Networks"
    ensures forall topic :: topic in MockContent ==> |MockContent[topic]| == 3
  {
  }

  /** What one selected topic contributes: its predefined items in
      `content`, or one generated item. */
  function TopicItems(content: map<string, seq<CheatSheetItem>>, topic: string, now: nat): seq<CheatSheetItem>
  {
    if topic in content then content[topic] else [GeneratedItem(topic, now)]
  }

  /** A topic with predefined content contributes its three items; any other
      topic contributes exactly one generated item. */
  lemma TopicItemsShape(topic: string, now: nat)
    ensures topic in MockContent ==> |TopicItems(MockContent, topic, now)| == 3
    ensures topic !in MockContent ==> TopicItems(MockContent, topic, now) == [GeneratedItem(topic, now)]
    ensures topic in MockContent <==> topic == "Supervised Learning" || topic == "Neural Networks"
  {
    MockContentShape();
  }

  /** The generated content: the items of every selected topic, in selection
      order, with the predefined items taken from `content`. */
  function CheatSheetContent(content: map<string, seq<CheatSheetItem>>, topics: seq<string>, now: nat): seq<CheatSheetItem>
    decreases |topics|
  {
    if topics == [] then []
    else CheatSheetContent(content, topics[..|topics| - 1], now) + TopicItems(content, topics[|topics| - 1], now)
  }

  /** The last topic's items come last. */
  lemma CheatSheetContentLast(content: map<string, seq<CheatSheetItem>>, topics: seq<string>, now: nat)
    requires topics != []
    ensures var n := |topics| - 1;
      CheatSheetContent(content, topics, now) == CheatSheetContent(content, topics[..n], now) + TopicItems(content, topics[n], now)
  {
  }

  /** The content of a longer selection extends the content of a shorter one. */
  lemma {:induction false} CheatSheetContentAppend(content: map<string, seq<CheatSheetItem>>, a: seq<string>, b: seq<string>, now: nat)
    ensures CheatSheetContent(content, a + b, now) == CheatSheetContent(content, a, now) + CheatSheetContent(content, b, now)
    decreases |b|
  {
    if b == [] {
      assert a + b == a;
      var front := CheatSheetContent(content, a, now);
      assert CheatSheetContent(content, b, now) == [];
      assert front + [] == front;
    } else {
      var n := |b| - 1;
      var ab := a + b;
      assert ab[..|ab| - 1] == a + b[..n];
      assert ab[|ab| - 1] == b[n];
      var last := TopicItems(content, b[n], now);
      CheatSheetContentLast(content, ab, now);
      CheatSheetContentLast(content, b, now);
      CheatSheetContentAppend(content, a, b[..n], now);
      AppendAssoc(CheatSheetContent(content, a, now), CheatSheetContent(content, b[..n], now), last);
    }
  }

  /** The number of items: the predefined ones of each topic that has them,
      one for every other topic. */
  function ItemCount(content: map<string, seq<CheatSheetItem>>, topics: seq<string>): nat
    decreases |topics|
  {
    if topics == [] then 0
    else
      var t := topics[|topics| - 1];
      ItemCount(content, topics[..|topics| - 1]) + (if t in content then |content[t]| else 1)
  }

  lemma {:induction false} CheatSheetContentLength(content: map<string, seq<CheatSheetItem>>, topics: seq<string>, now: nat)
    requires forall t :: t in content ==> |content[t]| > 0
    ensures |CheatSheetContent(content, topics, now)| == ItemCount(content, topics)
    ensures |CheatSheetContent(content, topics, now)| >= |topics|
    decreases |topics|
  {
    if topics != [] {
      CheatSheetContentLength(content, topics[..|topics| - 1], now);
    }
  }

  /** The content of one more topic extends the content so far. */
  lemma CheatSheetContentStep(content: map<string, seq<CheatSheetItem>>, topics: seq<string>, i: nat, now: nat)
    requires i < |topics|
    ensures CheatSheetContent(content, topics[..i + 1], now)
            == CheatSheetContent(content, topics[..i], now) + TopicItems(content, topics[i], now)
  {
    var front := topics[..i + 1];
    assert front[..|front| - 1] == topics[..i];
    assert front[|front| - 1] == topics[i];
  }

  /** The `forEach` loop of the generation step. */
  method BuildCheatSheet(topics: seq<string>, now: nat) returns (generated: seq<CheatSheetItem>)
    ensures generated == CheatSheetContent(MockContent, topics, now)
  {
    generated := [];
    var i := 0;
    while i < |topics|
      invariant 0 <= i <= |topics|
      invariant generated == CheatSheetContent(MockContent, topics[..i], now)
    {
      var topic := topics[i];
      CheatSheetContentStep(MockContent, topics, i, now);
      if topic in MockContent {
        generated := generated + MockContent[topic];
      } else {
        generated := generated + [GeneratedItem(topic, now)];
      }
      i := i + 1;
    }
    assert topics[..i] == topics;
  }

  // ---------------------------------------------------------------------
  // Export

  /** `${item.title}\n${item.content}\nSource: ${item.source} (p. ${item.page})\n\n` */
  function ItemText(item: CheatSheetItem): (s: string)
    ensures |s| > 0
  {
    item.title + "\n" + item.content + "\nSource: " + item.source + PageEnding(item.page)
  }

  /** `cheatSheet.map(ItemText).join("")` */
  function ExportText(items: seq<CheatSheetItem>): string
    decreases |items|
  {
    if items == [] then [] else ItemText(items[0]) + ExportText(items[1..])
  }

  /** The export of a concatenation is the concatenation of the exports. */
  lemma {:induction false} ExportTextAppend(a: seq<CheatSheetItem>, b: seq<CheatSheetItem>)
    ensures ExportText(a + b) == ExportText(a) + ExportText(b)
    decreases |a|
  {
    if a == [] {
      assert a + b == b;
    } else {
      assert (a + b)[1..] == a[1..] + b;
      ExportTextAppend(a[1..], b);
    }
  }

  /** The export of one item is its block. */
  lemma ExportTextOne(item: CheatSheetItem)
    ensures ExportText([item]) == ItemText(item)
  {
    assert [item][1..] == [];
  }

  /** Every item's block ends with its page in parentheses and a blank line,
      so the export of a non-empty sheet ends that way too. */
  lemma ExportTextEnds(items: seq<CheatSheetItem>)
    requires items != []
    ensures var last := items[|items| - 1];
      EndsWith(ExportText(items), PageEnding(last.page))
  {
    var n := |items| - 1;
    var last := items[n];
    SplitLast(items);
    ExportTextAppend(items[..n], [last]);
    ExportTextOne(last);
    var front := last.title + "\n" + last.content + "\nSource: " + last.source;
    EndsWithLast(ExportText(items[..n]), front, PageEnding(last.page));
  }

  /** How an item's block ends: ` (p. N)` and a blank line. */
  function PageEnding(page: nat): string
  {
    " (p. " + NatToString(page) + ")\n\n"
  }

  /** The name of the downloaded file. */
  function DownloadFileName(course: string): (name: string)
    ensures |name| == |course| + 15
    ensures name[..|course|] == course && name[|course|..] == "-cheatsheet.txt"
  {
    course + "-cheatsheet.txt"
  }

  /** The page note shown under an item: `(p. N)` when the page is positive,
      nothing otherwise. */
  function PageNote(page: nat): (s: string)
    ensures s == [] <==> page == 0
    ensures page > 0 ==> Contains(s, NatToString(page))
  {
    if page > 0 then
      ContainsInfix("(p. ", NatToString(page), ")");
      "(p. " + NatToString(page) + ")"
    else []
  }

  // ---------------------------------------------------------------------
  // The page state

  class CheatSheetPage {
    var selectedCourse: string
    var selectedTopics: seq<string>
    var generating: bool
    var cheatSheet: seq<CheatSheetItem>
    /** The selection the generation timer's closure captured. */
    var pending: Option<seq<string>>

    /** The page is generating exactly while a non-empty captured selection
        waits for the timer. */
    ghost predicate Valid()
      reads this
    {
      (generating <==> pending.Some?) && (pending.Some? ==> pending.value != [])
    }

    constructor ()
      ensures Valid()
      ensures selectedCourse == "machine-learning" && selectedTopics == []
      ensures !generating && cheatSheet == [] && pending == None
    {
      selectedCourse := "machine-learning";
      selectedTopics := [];
      generating := false;
      cheatSheet := [];
      pending := None;
    }

    /** `handleTopicToggle(topic)` */
    method HandleTopicToggle(topic: string)
      requires Valid()
      modifies this
      ensures Valid()
      ensures selectedTopics == Toggle(old(selectedTopics), topic)
      ensures NoDuplicates(old(selectedTopics)) ==> NoDuplicates(selectedTopics)
      ensures selectedCourse == old(selectedCourse) && generating == old(generating)
      ensures cheatSheet == old(cheatSheet) && pending == old(pending)
    {
      if NoDuplicates(selectedTopics) {
        ToggleKeepsNoDuplicates(selectedTopics, topic);
      }
      selectedTopics := Toggle(selectedTopics, topic);
    }

    /** `handleSelectAll()`: the course's topics, if the course is known. */
    method HandleSelectAll()
      requires Valid()
      modifies this
      ensures Valid()
      ensures old(selectedCourse) in Topics ==> selectedTopics == Topics[old(selectedCourse)]
      ensures old(selectedCourse) !in Topics ==> selectedTopics == old(selectedTopics)
      ensures selectedCourse == old(selectedCourse) && generating == old(generating)
      ensures cheatSheet == old(cheatSheet) && pending == old(pending)
    {
      if selectedCourse in Topics {
        selectedTopics := Topics[selectedCourse];
      }
    }

    /** `handleDeselectAll()` */
    method HandleDeselectAll()
      requires Valid()
      modifies this
      ensures Valid()
      ensures selectedTopics == []
      ensures selectedCourse == old(selectedCourse) && generating == old(generating)
      ensures cheatSheet == old(cheatSheet) && pending == old(pending)
    {
      selectedTopics := [];
    }

    /** The course selector's `onValueChange`: a new course empties the selection. */
    method ChangeCourse(value: string)
      requires Valid()
      modifies this
      ensures Valid()
      ensures selectedCourse == value && selectedTopics == []
      ensures generating == old(generating) && cheatSheet == old(cheatSheet)
      ensures pending == old(pending)
    {
      selectedCourse := value;
      selectedTopics := [];
    }

    /** `handleGenerateCheatSheet()`: with no topic selected nothing changes (a
        toast is shown); otherwise generation starts with the current
        selection captured for the delayed step. The button is disabled while
        generating. */
    method HandleGenerateCheatSheet() returns (started: bool)
      requires Valid() && !generating
      modifies this
      ensures Valid()
      ensures started <==> old(selectedTopics) != []
      ensures !started ==> !generating && pending == None
      ensures started ==> generating && pending == Some(old(selectedTopics))
      ensures selectedCourse == old(selectedCourse) && selectedTopics == old(selectedTopics)
      ensures cheatSheet == old(cheatSheet)
    {
      if |selectedTopics| == 0 {
        started := false;
        return;
      }
      started := true;
      generating := true;
      pending := Some(selectedTopics);
    }

    /** The delayed step: builds the content of the captured selection, at
        time `now`, and ends generation. */
    method FinishGeneration(now: nat)
      requires Valid() && generating
      modifies this
      ensures Valid()
      ensures cheatSheet == CheatSheetContent(MockContent, old(pending).value, now)
      ensures !generating && pending == None
      ensures selectedCourse == old(selectedCourse) && selectedTopics == old(selectedTopics)
    {
      var generated := BuildCheatSheet(pending.value, now);
      cheatSheet := generated;
      generating := false;
      pending := None;
    }

    /** `handleCopyToClipboard()`: the text written to the clipboard. */
    method HandleCopyToClipboard() returns (text: string)
      ensures text == ExportText(cheatSheet)
    {
      text := ExportText(cheatSheet);
    }

    /** `handleDownload()`: the name and text of the downloaded file, the same
        text the copy action produces. */
    method HandleDownload() returns (fileName: string, text: string)
      ensures fileName == DownloadFileName(selectedCourse)
      ensures text == ExportText(cheatSheet)
    {
      text := ExportText(cheatSheet);
      fileName := DownloadFileName(selectedCourse);
    }
  }
}
