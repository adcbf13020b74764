/** The knowledge-graph page of `eduragpt-main/app/visualize/page.tsx`: a
    constant graph of fourteen concepts, filtered by a search term and a
    course, laid out on a circle and drawn at a clamped zoom. */
module MainVisualizePage {
  import opened Wrappers
  import opened Seqs
  import opened Graph
  import Text

  /** A node of the constant graph, which carries no size. */
  function Concept(id: string, caption: string, group: string): Node
  {
    Node(id, caption, group, None)
  }

  /** An edge of the constant graph, which carries no width or colour. */
  function Link(from: string, to: string): Edge
  {
    Edge(from, to, None, None)
  }

  const BaseNodes: seq<Node> := [
    Concept("1", "Machine Learning", "ml"),
    Concept("2", "Neural Networks", "ml"),
    Concept("3", "Deep Learning", "ml"),
    Concept("4", "Supervised Learning", "ml"),
    Concept("5", "Unsupervised Learning", "ml"),
    Concept("6", "Data Structures", "cs"),
    Concept("7", "Arrays", "cs"),
    Concept("8", "Linked Lists", "cs"),
    Concept("9", "Trees", "cs"),
    Concept("10", "Graphs", "cs"),
    Concept("11", "Algorithms", "cs"),
    Concept("12", "Sorting", "cs"),
    Concept("13", "Searching", "cs"),
    Concept("14", "Dynamic Programming", "cs")
  ]

  const BaseEdges: seq<Edge> := [
    Link("1", "2"), Link("1", "3"), Link("1", "4"), Link("1", "5"), Link("2", "3"),
    Link("6", "7"), Link("6", "8"), Link("6", "9"), Link("6", "10"),
    Link("11", "12"), Link("11", "13"), Link("11", "14"),
    Link("9", "10"), Link("3", "4")
  ]

  const BaseIds: seq<string> := ["1", "2", "3", "4", "5", "6", "7", "8", "9", "10", "11", "12", "13", "14"]

  /** The ids of the constant graph, in order. */
  lemma BaseIdsListed()
    ensures NodeIds(BaseNodes) == BaseIds
  {
  }

  /** The fourteen ids are distinct. */
  lemma BaseIdsDistinct()
    ensures NoDuplicates(BaseIds)
  {
    NoDuplicatesByKey(BaseIds, IdPosition);
  }

  /** Where an id of the constant graph stands in `BaseIds`: one less than
      the number it spells. */
  function IdPosition(id: string): int
  {
    if forall i :: 0 <= i < |id| ==> Text.IsDigit(id[i]) then Text.ParseNat(id) - 1 else -1
  }

  /** Every edge joins two nodes of the constant graph. */
  lemma BaseEndpointsKnown()
    ensures EndpointsKnown(BaseNodes, BaseEdges)
  {
    BaseIdsListed();
  }

  /** The constant graph has fourteen nodes with distinct ids and fourteen
      edges, and every edge joins two of its nodes. */
  lemma BaseGraphWellFormed()
    ensures |BaseNodes| == 14 && |BaseEdges| == 14
    ensures NoDuplicates(NodeIds(BaseNodes))
    ensures EndpointsKnown(BaseNodes, BaseEdges)
  {
    BaseIdsListed();
    BaseIdsDistinct();
    BaseEndpointsKnown();
  }

  /** With an empty search over every course, all of the constant graph is
      drawn. */
  lemma BaseGraphAllDrawn()
    ensures FilterEdges(BaseEdges, NodeIds(FilterNodes(BaseNodes, "", AllCourses))) == BaseEdges
  {
    BaseEndpointsKnown();
    EmptySearchDrawsAllEdges(BaseNodes, BaseEdges);
  }

  /** The page's constant graph and its `searchTerm`, `selectedCourse` and
      `zoomLevel` state. */
  class VisualizePageState {
    const nodes: seq<Node>
    const edges: seq<Edge>
    var searchTerm: string
    var selectedCourse: string
    var zoomLevel: real

    /** The graph is well formed and the zoom stays within its bounds. */
    ghost predicate Valid()
      reads this
    {
      NoDuplicates(NodeIds(nodes)) && EndpointsKnown(nodes, edges)
      && MinZoom <= zoomLevel <= MaxZoom
    }

    constructor ()
      ensures Valid()
      ensures nodes == BaseNodes && edges == BaseEdges
      ensures searchTerm == "" && selectedCourse == AllCourses && zoomLevel == 1.0
    {
      BaseIdsListed();
      BaseIdsDistinct();
      BaseEndpointsKnown();
      nodes := BaseNodes;
      edges := BaseEdges;
      searchTerm := "";
      selectedCourse := AllCourses;
      zoomLevel := 1.0;
    }

    /** The search box's `onChange`. */
    method SetSearchTerm(term: string)
      requires Valid()
      modifies this
      ensures Valid()
      ensures searchTerm == term && selectedCourse == old(selectedCourse) && zoomLevel == old(zoomLevel)
    {
      searchTerm := term;
    }

    /** The course selector's `onValueChange`. */
    method SetCourse(course: string)
      requires Valid()
      modifies this
      ensures Valid()
      ensures selectedCourse == course && searchTerm == old(searchTerm) && zoomLevel == old(zoomLevel)
    {
      selectedCourse := course;
    }

    /** `handleZoomIn()` */
    method HandleZoomIn()
      requires Valid()
      modifies this
      ensures Valid()
      ensures zoomLevel == ZoomIn(old(zoomLevel)) && old(zoomLevel) <= zoomLevel
      ensures searchTerm == old(searchTerm) && selectedCourse == old(selectedCourse)
    {
      ZoomStaysInRange(zoomLevel);
      zoomLevel := if zoomLevel + 0.1 <= MaxZoom then zoomLevel + 0.1 else MaxZoom;
    }

    /** `handleZoomOut()` */
    method HandleZoomOut()
      requires Valid()
      modifies this
      ensures Valid()
      ensures zoomLevel == ZoomOut(old(zoomLevel)) && zoomLevel <= old(zoomLevel)
      ensures searchTerm == old(searchTerm) && selectedCourse == old(selectedCourse)
    {
      ZoomStaysInRange(zoomLevel);
      zoomLevel := if zoomLevel - 0.1 >= MinZoom then zoomLevel - 0.1 else MinZoom;
    }

    /** The drawing effect's computation: the graph filtered by the current
        search and course, with exactly one position per shown node (the
        circular coordinates are given by `place`). */
    method Frame(place: nat -> Point) returns (shown: seq<Node>, drawn: seq<Edge>, positions: map<string, Point>)
      requires Valid()
      ensures shown == FilterNodes(nodes, searchTerm, selectedCourse)
      ensures drawn == FilterEdges(edges, NodeIds(shown))
      ensures |positions| == |shown|
      ensures forall i :: 0 <= i < |shown| ==> shown[i].id in positions && positions[shown[i].id] == place(i)
    {
      shown, drawn, positions := PlanFrame(nodes, edges, searchTerm, selectedCourse, place);
    }
  }
}
