/** The knowledge-graph page of `eduragpt/app/visualize/page.tsx`: fourteen
    concept nodes plus one node per uploaded material, the random links from
    every material to concepts, the extra nodes a question adds, and the
    page state with its filters and clamped zoom. Coordinates, the force
    simulation, drawing and toasts are not modelled. */
module VisualizePage {
  import opened Wrappers
  import opened Seqs
  import opened Text
  import opened StudyMaterials
  import opened Graph

  // ---------------------------------------------------------------------
  // The base graph

  /** A concept node with its size. */
  function Concept(id: string, caption: string, group: string, size: nat): Node
  {
    Node(id, caption, group, Some(size))
  }

  /** A base edge with its width. */
  function Link(from: string, to: string, width: nat): Edge
  {
    Edge(from, to, Some(width), None)
  }

  const BaseNodes: seq<Node> := [
    Concept("1", "Machine Learning", "ml", 25),
    Concept("2", "Neural Networks", "ml", 20),
    Concept("3", "Deep Learning", "ml", 20),
    Concept("4", "Supervised Learning", "ml", 18),
    Concept("5", "Unsupervised Learning", "ml", 18),
    Concept("6", "Data Structures", "cs", 25),
    Concept("7", "Arrays", "cs", 15),
    Concept("8", "Linked Lists", "cs", 15),
    Concept("9", "Trees", "cs", 18),
    Concept("10", "Graphs", "cs", 18),
    Concept("11", "Algorithms", "cs", 25),
    Concept("12", "Sorting", "cs", 15),
    Concept("13", "Searching", "cs", 15),
    Concept("14", "Dynamic Programming", "cs", 18)
  ]

  const BaseEdges: seq<Edge> := [
    Link("1", "2", 3), Link("1", "3", 3), Link("1", "4", 2), Link("1", "5", 2), Link("2", "3", 3),
    Link("6", "7", 2), Link("6", "8", 2), Link("6", "9", 3), Link("6", "10", 3),
    Link("11", "12", 2), Link("11", "13", 2), Link("11", "14", 3),
    Link("9", "10", 2), Link("3", "4", 2)
  ]

  const BaseIds: seq<string> := ["1", "2", "3", "4", "5", "6", "7", "8", "9", "10", "11", "12", "13", "14"]

  /** The ids of the base graph, in order. */
  lemma BaseIdsListed()
    ensures NodeIds(BaseNodes) == BaseIds
  {
  }

  /** The fourteen base ids are distinct numerals. */
  lemma BaseIdsDistinct()
    ensures NoDuplicates(BaseIds)
    ensures forall i :: 0 <= i < |BaseIds| ==> |BaseIds[i]| > 0 && IsDigit(BaseIds[i][0])
  {
  }

  /** Every base edge joins two base nodes, and no base node is a material. */
  lemma BaseGraphWellFormed()
    ensures |BaseNodes| == 14 && |BaseEdges| == 14
    ensures EndpointsKnown(BaseNodes, BaseEdges)
    ensures forall i :: 0 <= i < |BaseNodes| ==> BaseNodes[i].group != MaterialGroup
  {
    BaseIdsListed();
  }

  // ---------------------------------------------------------------------
  // Material nodes

  /** The group of material nodes. */
  const MaterialGroup := "materials"

  /** The extensions `/\.(pdf|docx|pptx|jpg|png)$/i` removes. */
  const MaterialExtensions: seq<string> := [".pdf", ".docx", ".pptx", ".jpg", ".png"]

  /** Which extension a lower-cased name ends with, as a position in
      `MaterialExtensions`, or `|MaterialExtensions|` for none. At most one
      can match, so the order of the tests does not matter. */
  function MatchedExtension(lower: string): (k: nat)
    ensures k <= |MaterialExtensions|
    ensures k < |MaterialExtensions| ==> EndsWith(lower, MaterialExtensions[k])
  {
    if EndsWith(lower, ".pdf") then 0
    else if EndsWith(lower, ".docx") then 1
    else if EndsWith(lower, ".pptx") then 2
    else if EndsWith(lower, ".jpg") then 3
    else if EndsWith(lower, ".png") then 4
    else 5
  }

  /** `name.replace(/\.(pdf|docx|pptx|jpg|png)$/i, "")`: drops one trailing
      extension from the list, whatever its letter case. */
  function StripExtension(name: string): (r: string)
    ensures |r| <= |name| && r == name[..|r|]
  {
    var k := MatchedExtension(Lower(name));
    if k < |MaterialExtensions| then name[..|name| - |MaterialExtensions[k]|] else name
  }

  /** A name that ends in none of the extensions is kept; otherwise exactly
      the matched extension, in its own letter case, is removed. */
  lemma StripExtensionShape(name: string)
    ensures var k := MatchedExtension(Lower(name)); var r := StripExtension(name);
      (k == |MaterialExtensions| && r == name
       && forall j :: 0 <= j < |MaterialExtensions| ==> !EndsWith(Lower(name), MaterialExtensions[j]))
      || (k < |MaterialExtensions| && r + name[|r|..] == name && Lower(name[|r|..]) == MaterialExtensions[k])
  {
    var k := MatchedExtension(Lower(name));
    var r := StripExtension(name);
    assert r + name[|r|..] == name;
    if k < |MaterialExtensions| {
      LowerSuffix(name, |r|);
    } else {
      forall j | 0 <= j < |MaterialExtensions| ensures !EndsWith(Lower(name), MaterialExtensions[j]) {
        assert MaterialExtensions[j] in [".pdf", ".docx", ".pptx", ".jpg", ".png"];
      }
    }
  }

  /** Two suffixes that differ at the same distance from the end cannot
      both end one string. */
  lemma SuffixesDiffer(s: string, a: string, b: string, i: nat)
    requires EndsWith(s, a) && 0 < i <= |a| && i <= |b| && a[|a| - i] != b[|b| - i]
    ensures !EndsWith(s, b)
  {
    assert s[|s| - |a|..][|a| - i] == s[|s| - i];
    assert |b| <= |s| ==> s[|s| - |b|..][|b| - i] == s[|s| - i];
  }

  /** A lower-cased name made of anything followed by one of the extensions
      matches that extension. */
  lemma MatchedExtensionOf(prefix: string, k: nat)
    requires k < |MaterialExtensions|
    ensures MatchedExtension(prefix + MaterialExtensions[k]) == k
  {
    var e := MaterialExtensions[k];
    var lower := prefix + e;
    EndsWithAppend(prefix, e);
    if k == 1 {
      SuffixesDiffer(lower, ".docx", ".pdf", 1);
    } else if k == 2 {
      SuffixesDiffer(lower, ".pptx", ".pdf", 1);
      SuffixesDiffer(lower, ".pptx", ".docx", 4);
    } else if k == 3 {
      SuffixesDiffer(lower, ".jpg", ".pdf", 1);
      SuffixesDiffer(lower, ".jpg", ".docx", 1);
      SuffixesDiffer(lower, ".jpg", ".pptx", 1);
    } else if k == 4 {
      SuffixesDiffer(lower, ".png", ".pdf", 1);
      SuffixesDiffer(lower, ".png", ".docx", 1);
      SuffixesDiffer(lower, ".png", ".pptx", 1);
      SuffixesDiffer(lower, ".png", ".jpg", 3);
    }
  }

  /** A material named `base` plus one of the extensions, in any letter
      case, is shown as `base`. */
  lemma StripAppendedExtension(base: string, ext: string)
    requires Lower(ext) in MaterialExtensions
    ensures StripExtension(base + ext) == base
  {
    var k :| 0 <= k < |MaterialExtensions| && MaterialExtensions[k] == Lower(ext);
    LowerAppend(base, ext);
    MatchedExtensionOf(Lower(base), k);
    assert (base + ext)[..|base|] == base;
  }

  /** The node of the material at `index`. */
  function MaterialNode(name: string, index: nat): Node
  {
    Node("m-" + NatToString(index), StripExtension(name), MaterialGroup, Some(15))
  }

  /** `materials.map((material, index) => ...)` */
  function MaterialNodes(materials: seq<StudyMaterial>): (r: seq<Node>)
    ensures |r| == |materials|
    ensures forall i :: 0 <= i < |materials| ==> r[i] == MaterialNode(materials[i].name, i)
  {
    seq(|materials|, i requires 0 <= i < |materials| => MaterialNode(materials[i].name, i))
  }

  /** `generateNodes()`: the base nodes, then one node per material. */
  function GenerateNodes(materials: seq<StudyMaterial>): seq<Node>
  {
    BaseNodes + MaterialNodes(materials)
  }

  /** The generated list starts with the base nodes and has one node per
      material after them, with id `m-<index>`, group `materials`, size 15
      and the material's name without its extension. */
  lemma GeneratedNodesShape(materials: seq<StudyMaterial>)
    ensures var r := GenerateNodes(materials);
      |r| == 14 + |materials| && r[..14] == BaseNodes
      && forall i :: 0 <= i < |materials| ==>
        r[14 + i].id == "m-" + NatToString(i) && r[14 + i].group == MaterialGroup
        && r[14 + i].size == Some(15) && r[14 + i].caption == StripExtension(materials[i].name)
  {
    var r := GenerateNodes(materials);
    assert r[..14] == BaseNodes;
    forall i | 0 <= i < |materials|
      ensures r[14 + i] == MaterialNode(materials[i].name, i)
    {
      assert r[14 + i] == MaterialNodes(materials)[i];
    }
  }

  // ---------------------------------------------------------------------
  // Question nodes

  const MachineLearningExtras: seq<Node> := [
    Concept("ml-1", "Gradient Descent", "ml", 18),
    Concept("ml-2", "Backpropagation", "ml", 18),
    Concept("ml-3", "Feature Engineering", "ml", 16)
  ]

  const DataStructureExtras: seq<Node> := [
    Concept("ds-1", "Hash Tables", "cs", 18),
    Concept("ds-2", "Heaps", "cs", 16),
    Concept("ds-3", "Stacks & Queues", "cs", 17)
  ]

  /** The nodes a question adds: the first topic it mentions decides. */
  function QuestionExtras(question: string): seq<Node>
  {
    if Contains(Lower(question), "machine learning") then MachineLearningExtras
    else if Contains(Lower(question), "data structure") then DataStructureExtras
    else []
  }

  /** The nodes after a question: the generated nodes plus its extras. */
  function QuestionNodes(materials: seq<StudyMaterial>, question: string): seq<Node>
  {
    GenerateNodes(materials) + QuestionExtras(question)
  }

  /** "machine learning" wins over "data structure"; a question mentioning
      neither adds nothing; the two sets of extras differ. */
  lemma QuestionExtrasChoice(question: string)
    ensures QuestionExtras(question) == MachineLearningExtras <==> Contains(Lower(question), "machine learning")
    ensures QuestionExtras(question) == DataStructureExtras <==>
      !Contains(Lower(question), "machine learning") && Contains(Lower(question), "data structure")
    ensures QuestionExtras(question) == [] <==>
      !Contains(Lower(question), "machine learning") && !Contains(Lower(question), "data structure")
    ensures |QuestionExtras(question)| <= 3
  {
    assert MachineLearningExtras[0].id[0] == 'm' && DataStructureExtras[0].id[0] == 'd';
  }

  /** The extras a question can add: none, or one of the two fixed sets. */
  predicate KnownExtras(extra: seq<Node>)
  {
    extra == [] || extra == MachineLearningExtras || extra == DataStructureExtras
  }

  /** Material ids start with `m-`. */
  lemma MaterialIdShape(i: nat)
    ensures var id := "m-" + NatToString(i); |id| >= 3 && id[0] == 'm' && id[1] == '-' && id[2..] == NatToString(i)
  {
  }

  /** Every id of the generated graph, with any extras, is distinct. */
  lemma NodeIdsDistinct(materials: seq<StudyMaterial>, extra: seq<Node>)
    requires KnownExtras(extra)
    ensures NoDuplicates(NodeIds(BaseNodes + MaterialNodes(materials) + extra))
  {
    var ms := MaterialNodes(materials);
    var mids := NodeIds(ms);
    var xids := NodeIds(extra);
    BaseIdsListed();
    BaseIdsDistinct();
    NodeIdsAppend(BaseNodes, ms);
    NodeIdsAppend(BaseNodes + ms, extra);
    forall i | 0 <= i < |mids| ensures |mids[i]| >= 3 && mids[i][0] == 'm' && mids[i][1] == '-' {
      MaterialIdShape(i);
    }
    forall i, j | 0 <= i < j < |mids| ensures mids[i] != mids[j] {
      MaterialIdShape(i);
      MaterialIdShape(j);
      NatToStringInjective(i, j);
    }
    assert forall k :: 0 <= k < |xids| ==> |xids[k]| >= 3 && (xids[k][0] == 'd' || xids[k][1] == 'l');
    assert NoDuplicates(xids) by {
      if extra == MachineLearningExtras {
        assert xids == ["ml-1", "ml-2", "ml-3"];
      } else if extra == DataStructureExtras {
        assert xids == ["ds-1", "ds-2", "ds-3"];
      }
    }
    NoDuplicatesAppend(BaseIds, mids);
    forall i, k | 0 <= i < |BaseIds + mids| && 0 <= k < |xids| ensures (BaseIds + mids)[i] != xids[k] {
      if i >= |BaseIds| {
        assert (BaseIds + mids)[i] == mids[i - |BaseIds|];
      }
    }
    NoDuplicatesAppend(BaseIds + mids, xids);
  }

  // ---------------------------------------------------------------------
  // Edges

  /** The colour of material edges. */
  const MaterialEdgeColor := "rgba(139, 92, 246, 0.6)"

  /** `nodes.filter(n => n.group === "materials").map(n => n.id)` */
  function MaterialIds(nodes: seq<Node>): seq<string>
  {
    NodeIds(Filter(nodes, (n: Node) => n.group == MaterialGroup))
  }

  /** The ids of `nodes.filter(n => n.group !== "materials")`. */
  function ConceptIds(nodes: seq<Node>): seq<string>
  {
    NodeIds(Filter(nodes, (n: Node) => n.group != MaterialGroup))
  }

  /** One material edge. */
  function MaterialEdge(from: string, to: string): Edge
  {
    Edge(from, to, Some(1), Some(MaterialEdgeColor))
  }

  /** The edges from one material to the chosen concepts, in order. */
  function EdgesFrom(from: string, targets: seq<string>): (r: seq<Edge>)
    ensures |r| == |targets|
    ensures forall j :: 0 <= j < |targets| ==> r[j] == MaterialEdge(from, targets[j])
  {
    seq(|targets|, j requires 0 <= j < |targets| => MaterialEdge(from, targets[j]))
  }

  /** The edges of all materials, material by material. */
  function MaterialEdges(ids: seq<string>, targets: seq<seq<string>>): seq<Edge>
    requires |targets| == |ids|
  {
    if ids == [] then []
    else
      MaterialEdges(ids[..|ids| - 1], targets[..|ids| - 1])
      + EdgesFrom(ids[|ids| - 1], targets[|ids| - 1])
  }

  /** For each of `n` materials, two or three concept ids. */
  predicate ValidTargets(targets: seq<seq<string>>, n: nat, concepts: seq<string>)
  {
    |targets| == n
    && forall i :: 0 <= i < n ==>
      2 <= |targets[i]| <= 3 && forall j :: 0 <= j < |targets[i]| ==> targets[i][j] in concepts
  }

  /** Each material gets two or three edges, all of width 1 in the material
      colour, from a material id to a concept id. */
  lemma {:induction false} MaterialEdgesShape(ids: seq<string>, targets: seq<seq<string>>, concepts: seq<string>)
    requires ValidTargets(targets, |ids|, concepts)
    ensures var es := MaterialEdges(ids, targets);
      2 * |ids| <= |es| <= 3 * |ids|
      && forall k :: 0 <= k < |es| ==>
        es[k].from in ids && es[k].to in concepts && es[k] == MaterialEdge(es[k].from, es[k].to)
    decreases |ids|
  {
    if ids != [] {
      var n := |ids| - 1;
      var front := MaterialEdges(ids[..n], targets[..n]);
      assert ValidTargets(targets[..n], n, concepts) by {
        forall i | 0 <= i < n ensures targets[..n][i] == targets[i] { }
      }
      MaterialEdgesShape(ids[..n], targets[..n], concepts);
      var last := EdgesFrom(ids[n], targets[n]);
      var es := MaterialEdges(ids, targets);
      assert es == front + last;
      forall k | 0 <= k < |es|
        ensures es[k].from in ids && es[k].to in concepts && es[k] == MaterialEdge(es[k].from, es[k].to)
      {
        if k < |front| {
          assert es[k] == front[k];
          assert front[k].from in ids[..n];
        } else {
          assert es[k] == last[k - |front|];
        }
      }
    }
  }

  /** `generateEdges(nodes)`: the base edges, then for each material node two
      or three edges to concept nodes picked at random. With material nodes
      and no concept node the source indexes an empty list and throws, which
      is the `Failed` case. */
  method GenerateEdges(nodes: seq<Node>) returns (r: Outcome<seq<Edge>>)
    ensures r.Failed? <==> |MaterialIds(nodes)| > 0 && |ConceptIds(nodes)| == 0
    ensures r.Ok? ==> exists targets ::
                        (ValidTargets(targets, |MaterialIds(nodes)|, ConceptIds(nodes))
                         && r.value == BaseEdges + MaterialEdges(MaterialIds(nodes), targets))
  {
    var ids := MaterialIds(nodes);
    var concepts := ConceptIds(nodes);
    if |ids| > 0 && |concepts| == 0 {
      return Failed;
    }
    var materialEdges: seq<Edge> := [];
    ghost var targets: seq<seq<string>> := [];
    for k := 0 to |ids|
      invariant ValidTargets(targets, k, concepts)
      invariant materialEdges == MaterialEdges(ids[..k], targets)
    {
      var edges, chosen := ConnectMaterial(ids[k], concepts);
      MaterialEdgesStep(ids, targets, chosen);
      ValidTargetsStep(targets, chosen, concepts);
      materialEdges := materialEdges + edges;
      targets := targets + [chosen];
    }
    assert ids[..|ids|] == ids;
    r := Ok(BaseEdges + materialEdges);
  }

  /** The inner loop of `generateEdges`: two or three edges from one
      material to concepts picked at random. */
  method ConnectMaterial(from: string, concepts: seq<string>) returns (edges: seq<Edge>, ghost chosen: seq<string>)
    requires |concepts| > 0
    ensures 2 <= |chosen| <= 3 && forall j :: 0 <= j < |chosen| ==> chosen[j] in concepts
    ensures edges == EdgesFrom(from, chosen)
  {
    var numConnections :| 2 <= numConnections <= 3;
    edges := [];
    chosen := [];
    for c := 0 to numConnections
      invariant |chosen| == c && forall j :: 0 <= j < c ==> chosen[j] in concepts
      invariant edges == EdgesFrom(from, chosen)
    {
      var randomIndex :| 0 <= randomIndex < |concepts|;
      EdgesFromAppend(from, chosen, concepts[randomIndex]);
      edges := edges + [MaterialEdge(from, concepts[randomIndex])];
      chosen := chosen + [concepts[randomIndex]];
    }
  }

  /** One more chosen concept adds one edge at the end. */
  lemma EdgesFromAppend(from: string, chosen: seq<string>, to: string)
    ensures EdgesFrom(from, chosen + [to]) == EdgesFrom(from, chosen) + [MaterialEdge(from, to)]
  {
  }

  /** The edges of one more material come after those of the earlier ones. */
  lemma MaterialEdgesStep(ids: seq<string>, targets: seq<seq<string>>, chosen: seq<string>)
    requires |targets| < |ids|
    ensures var k := |targets|;
      MaterialEdges(ids[..k + 1], targets + [chosen]) == MaterialEdges(ids[..k], targets) + EdgesFrom(ids[k], chosen)
  {
    var k := |targets|;
    TakeNext(ids, k);
    assert (targets + [chosen])[..k] == targets;
  }

  /** Two or three valid choices for one more material keep the targets valid. */
  lemma ValidTargetsStep(targets: seq<seq<string>>, chosen: seq<string>, concepts: seq<string>)
    requires ValidTargets(targets, |targets|, concepts)
    requires 2 <= |chosen| <= 3 && forall j :: 0 <= j < |chosen| ==> chosen[j] in concepts
    ensures ValidTargets(targets + [chosen], |targets| + 1, concepts)
  {
    var t := targets + [chosen];
    assert forall i :: 0 <= i < |targets| ==> t[i] == targets[i];
  }

  /** `generateEdges` on a graph that starts with the base nodes: it does
      not fail, and every edge joins two of the graph's nodes. */
  method ConnectGraph(nodes: seq<Node>) returns (edges: seq<Edge>)
    requires BaseNodes <= nodes
    ensures EndpointsKnown(nodes, edges)
    ensures exists targets ::
              (ValidTargets(targets, |MaterialIds(nodes)|, ConceptIds(nodes))
               && edges == BaseEdges + MaterialEdges(MaterialIds(nodes), targets))
  {
    ConceptsExist(nodes);
    var r := GenerateEdges(nodes);
    ghost var targets :| ValidTargets(targets, |MaterialIds(nodes)|, ConceptIds(nodes))
      && r.value == BaseEdges + MaterialEdges(MaterialIds(nodes), targets);
    GeneratedEdgesKnown(nodes, targets);
    edges := r.value;
  }

  /** Filtering nothing in or everything in. */
  lemma FilterNone<T(!new)>(xs: seq<T>, p: T -> bool)
    requires forall x :: x in xs ==> !p(x)
    ensures Filter(xs, p) == []
  {
    if Filter(xs, p) != [] {
      assert Filter(xs, p)[0] in Filter(xs, p);
    }
  }

  /** No base node and no extra node is a material. */
  lemma ConceptGroups(extra: seq<Node>)
    requires KnownExtras(extra)
    ensures forall x :: x in BaseNodes ==> x.group != MaterialGroup
    ensures forall x :: x in extra ==> x.group != MaterialGroup
  {
    BaseGraphWellFormed();
    forall x | x in BaseNodes ensures x.group != MaterialGroup {
      var i :| 0 <= i < |BaseNodes| && BaseNodes[i] == x;
    }
  }

  /** Filtering three parts of which only the middle one qualifies. */
  lemma FilterMiddle<T(!new)>(a: seq<T>, b: seq<T>, c: seq<T>, p: T -> bool)
    requires forall x :: x in a ==> !p(x)
    requires forall x :: x in b ==> p(x)
    requires forall x :: x in c ==> !p(x)
    ensures Filter(a + b + c, p) == b
  {
    FilterAppend(a + b, c, p);
    FilterAppend(a, b, p);
    FilterNone(a, p);
    FilterKeepsAll(b, p);
    FilterNone(c, p);
    assert [] + b + [] == b;
  }

  /** Filtering three parts of which only the middle one is left out. */
  lemma FilterOutMiddle<T(!new)>(a: seq<T>, b: seq<T>, c: seq<T>, p: T -> bool)
    requires forall x :: x in a ==> p(x)
    requires forall x :: x in b ==> !p(x)
    requires forall x :: x in c ==> p(x)
    ensures Filter(a + b + c, p) == a + c
  {
    FilterAppend(a + b, c, p);
    FilterAppend(a, b, p);
    FilterKeepsAll(a, p);
    FilterNone(b, p);
    FilterKeepsAll(c, p);
    assert a + [] == a;
  }

  /** In the generated graph with any extras, the material ids are exactly
      the ids of the material nodes. */
  lemma GeneratedMaterialIds(materials: seq<StudyMaterial>, extra: seq<Node>)
    requires KnownExtras(extra)
    ensures MaterialIds(BaseNodes + MaterialNodes(materials) + extra) == NodeIds(MaterialNodes(materials))
  {
    ConceptGroups(extra);
    FilterMiddle(BaseNodes, MaterialNodes(materials), extra, (n: Node) => n.group == MaterialGroup);
  }

  /** In the generated graph with any extras, the concept ids are the base
      ids followed by the extras' ids, so concepts always exist. */
  lemma GeneratedConceptIds(materials: seq<StudyMaterial>, extra: seq<Node>)
    requires KnownExtras(extra)
    ensures ConceptIds(BaseNodes + MaterialNodes(materials) + extra) == BaseIds + NodeIds(extra)
  {
    ConceptGroups(extra);
    FilterOutMiddle(BaseNodes, MaterialNodes(materials), extra, (n: Node) => n.group != MaterialGroup);
    BaseIdsListed();
    NodeIdsAppend(BaseNodes, extra);
  }

  /** A graph that starts with the base nodes has concept nodes, so edge
      generation on it never fails. */
  lemma ConceptsExist(nodes: seq<Node>)
    requires BaseNodes <= nodes
    ensures |ConceptIds(nodes)| > 0
  {
    assert nodes[0] == BaseNodes[0];
    assert nodes[0] in Filter(nodes, (n: Node) => n.group != MaterialGroup);
  }

  /** Every edge of a generated graph joins two of its nodes. */
  lemma GeneratedEdgesKnown(nodes: seq<Node>, targets: seq<seq<string>>)
    requires BaseNodes <= nodes
    requires ValidTargets(targets, |MaterialIds(nodes)|, ConceptIds(nodes))
    ensures EndpointsKnown(nodes, BaseEdges + MaterialEdges(MaterialIds(nodes), targets))
  {
    var ids := MaterialIds(nodes);
    var concepts := ConceptIds(nodes);
    var es := BaseEdges + MaterialEdges(ids, targets);
    MaterialEdgesShape(ids, targets, concepts);
    BaseGraphWellFormed();
    forall id | id in NodeIds(BaseNodes) ensures id in NodeIds(nodes) {
      NodeIdsMembership(BaseNodes, id);
      NodeIdsMembership(nodes, id);
    }
    forall id | id in ids ensures id in NodeIds(nodes) {
      NodeIdsMembership(Filter(nodes, (n: Node) => n.group == MaterialGroup), id);
      NodeIdsMembership(nodes, id);
    }
    forall id | id in concepts ensures id in NodeIds(nodes) {
      NodeIdsMembership(Filter(nodes, (n: Node) => n.group != MaterialGroup), id);
      NodeIdsMembership(nodes, id);
    }
    forall k | 0 <= k < |es| ensures es[k].from in NodeIds(nodes) && es[k].to in NodeIds(nodes) {
      if k >= |BaseEdges| {
        assert es[k] == MaterialEdges(ids, targets)[k - |BaseEdges|];
      } else {
        assert es[k] == BaseEdges[k];
      }
    }
  }

  // ---------------------------------------------------------------------
  // The page state

  /** The page's `nodes`, `edges`, `zoomLevel`, `searchTerm`,
      `selectedCourse` and `isGenerating` state, and the question of a
      pending generation. */
  class VisualizePageState {
    var nodes: seq<Node>
    var edges: seq<Edge>
    var zoomLevel: real
    var searchTerm: string
    var selectedCourse: string
    var isGenerating: bool
    var pendingQuestion: Option<string>

    /** The graph has distinct ids and its edges join its nodes, the zoom is within its bounds, and `isGenerating` holds
        exactly while a generation is pending. */
    ghost predicate Valid()
      reads this
    {
      NoDuplicates(NodeIds(nodes)) && EndpointsKnown(nodes, edges)
      && MinZoom <= zoomLevel <= MaxZoom
      && (isGenerating <==> pendingQuestion.Some?)
    }

    /** The first render: nodes and edges generated from the materials. */
    constructor (materials: seq<StudyMaterial>)
      ensures Valid()
      ensures nodes == GenerateNodes(materials) && zoomLevel == 1.0
      ensures searchTerm == "" && selectedCourse == AllCourses && !isGenerating
      ensures exists targets ::
                (ValidTargets(targets, |MaterialIds(nodes)|, ConceptIds(nodes))
                 && edges == BaseEdges + MaterialEdges(MaterialIds(nodes), targets))
    {
      var generated := GenerateNodes(materials);
      NodeIdsDistinct(materials, []);
      assert BaseNodes + MaterialNodes(materials) + [] == generated;
      var connected := ConnectGraph(generated);
      nodes := generated;
      edges := connected;
      zoomLevel := 1.0;
      searchTerm := "";
      selectedCourse := AllCourses;
      isGenerating := false;
      pendingQuestion := None;
    }

    /** The search box's `onChange`. */
    method SetSearchTerm(term: string)
      requires Valid()
      modifies this
      ensures Valid()
      ensures searchTerm == term
      ensures nodes == old(nodes) && edges == old(edges) && zoomLevel == old(zoomLevel)
      ensures selectedCourse == old(selectedCourse) && isGenerating == old(isGenerating)
      ensures pendingQuestion == old(pendingQuestion)
    {
      searchTerm := term;
    }

    /** The course selector's `onValueChange`. */
    method SetCourse(course: string)
      requires Valid()
      modifies this
      ensures Valid()
      ensures selectedCourse == course
      ensures nodes == old(nodes) && edges == old(edges) && zoomLevel == old(zoomLevel)
      ensures searchTerm == old(searchTerm) && isGenerating == old(isGenerating)
      ensures pendingQuestion == old(pendingQuestion)
    {
      selectedCourse := course;
    }

    /** `handleZoomIn()` */
    method HandleZoomIn()
      requires Valid()
      modifies this
      ensures Valid()
      ensures zoomLevel == ZoomIn(old(zoomLevel)) && old(zoomLevel) <= zoomLevel
      ensures nodes == old(nodes) && edges == old(edges) && searchTerm == old(searchTerm)
      ensures selectedCourse == old(selectedCourse) && isGenerating == old(isGenerating)
      ensures pendingQuestion == old(pendingQuestion)
    {
      ZoomStaysInRange(zoomLevel);
      zoomLevel := if zoomLevel + 0.1 <= MaxZoom then zoomLevel + 0.1 else MaxZoom;
    }

    /** `handleZoomOut()` */
    method HandleZoomOut()
      requires Valid()
      modifies this
      ensures Valid()
      ensures zoomLevel == ZoomOut(old(zoomLevel)) && zoomLevel <= old(zoomLevel)
      ensures nodes == old(nodes) && edges == old(edges) && searchTerm == old(searchTerm)
      ensures selectedCourse == old(selectedCourse) && isGenerating == old(isGenerating)
      ensures pendingQuestion == old(pendingQuestion)
    {
      ZoomStaysInRange(zoomLevel);
      zoomLevel := if zoomLevel - 0.1 >= MinZoom then zoomLevel - 0.1 else MinZoom;
    }

    /** `handleGenerateFromQuestion()`: a blank question changes nothing (a
        toast asks for one); otherwise generation starts with that question.
        The button is disabled while generating. */
    method HandleGenerateFromQuestion(question: string) returns (started: bool)
      requires Valid() && !isGenerating
      modifies this
      ensures Valid()
      ensures started <==> !IsBlank(question)
      ensures started ==> isGenerating && pendingQuestion == Some(question)
      ensures !started ==> !isGenerating && pendingQuestion == old(pendingQuestion)
      ensures nodes == old(nodes) && edges == old(edges) && zoomLevel == old(zoomLevel)
      ensures searchTerm == old(searchTerm) && selectedCourse == old(selectedCourse)
    {
      if IsBlank(question) {
        started := false;
        return;
      }
      started := true;
      isGenerating := true;
      pendingQuestion := Some(question);
    }

    /** The two-second timer: the nodes become the generated nodes plus the
        question's extras, the edges are generated for them, and generation
        ends. */
    method FinishGeneration(materials: seq<StudyMaterial>)
      requires Valid() && pendingQuestion.Some?
      modifies this
      ensures Valid()
      ensures nodes == QuestionNodes(materials, old(pendingQuestion).value)
      ensures exists targets ::
                (ValidTargets(targets, |MaterialIds(nodes)|, ConceptIds(nodes))
                 && edges == BaseEdges + MaterialEdges(MaterialIds(nodes), targets))
      ensures !isGenerating && pendingQuestion == None
      ensures zoomLevel == old(zoomLevel) && searchTerm == old(searchTerm)
      ensures selectedCourse == old(selectedCourse)
    {
      var question := pendingQuestion.value;
      var generated := QuestionNodes(materials, question);
      NodeIdsDistinct(materials, QuestionExtras(question));
      var connected := ConnectGraph(generated);
      nodes := generated;
      edges := connected;
      isGenerating := false;
      pendingQuestion := None;
    }

    /** The drawing effect's computation: the shown nodes, the drawn edges
        and exactly one position per shown node (the coordinates of either
        layout are given by `place`). */
    method Frame(place: nat -> Point) returns (shown: seq<Node>, drawn: seq<Edge>, positions: map<string, Point>)
      requires Valid()
      ensures shown == FilterNodes(nodes, searchTerm, selectedCourse)
      ensures drawn == FilterEdges(edges, NodeIds(shown))
      ensures |positions| == |shown|
      ensures forall i :: 0 <= i < |shown| ==> shown[i].id in positions && positions[shown[i].id] == place(i)
    {
      shown, drawn, positions := PlanFrame(nodes, edges, searchTerm, selectedCourse, place);
    }
  }
}
