/** The knowledge-graph logic both versions of `app/visualize/page.tsx` share:
    the node and edge records, the search-and-course filter, the edge filter
    on surviving endpoints, the position map of a frame, the two-line label
    wrap and the clamped zoom. Coordinates and drawing are not modelled. */
module Graph {
  import opened Wrappers
  import opened Seqs
  import opened Text

  /** A concept (or material) node; `size` is optional in the source, and the
      `label` field is called `caption` (`label` is a keyword here). */
  datatype Node = Node(id: string, caption: string, group: string, size: Option<nat>)

  /** A relation between two node ids, with its optional width and colour. */
  datatype Edge = Edge(from: string, to: string, width: Option<nat>, color: Option<string>)

  /** A position on the canvas; how it is computed is not modelled. */
  datatype Point = Point(x: real, y: real)

  /** The course filter value that shows every group. */
  const AllCourses := "all"

  // ---------------------------------------------------------------------
  // Filters

  /** `node.label.toLowerCase().includes(searchTerm.toLowerCase()) &&
      (selectedCourse === "all" || node.group === selectedCourse)` */
  predicate NodeVisible(n: Node, searchTerm: string, course: string)
  {
    Contains(Lower(n.caption), Lower(searchTerm)) && (course == AllCourses || n.group == course)
  }

  /** The nodes a frame shows. */
  function FilterNodes(nodes: seq<Node>, searchTerm: string, course: string): (r: seq<Node>)
    ensures forall n :: n in r <==> n in nodes && NodeVisible(n, searchTerm, course)
    ensures |r| <= |nodes|
  {
    Filter(nodes, (n: Node) => NodeVisible(n, searchTerm, course))
  }

  /** `nodes.map(node => node.id)` */
  function NodeIds(nodes: seq<Node>): (r: seq<string>)
    ensures |r| == |nodes|
    ensures forall i :: 0 <= i < |nodes| ==> r[i] == nodes[i].id
  {
    seq(|nodes|, i requires 0 <= i < |nodes| => nodes[i].id)
  }

  /** Listing ids distributes over concatenation. */
  lemma NodeIdsAppend(a: seq<Node>, b: seq<Node>)
    ensures NodeIds(a + b) == NodeIds(a) + NodeIds(b)
  {
  }

  /** An id is listed exactly when some node has it. */
  lemma NodeIdsMembership(nodes: seq<Node>, id: string)
    ensures id in NodeIds(nodes) <==> exists n :: n in nodes && n.id == id
  {
    var ids := NodeIds(nodes);
    if id in ids {
      var i :| 0 <= i < |ids| && ids[i] == id;
      assert nodes[i] in nodes;
    }
    if exists n :: n in nodes && n.id == id {
      var n :| n in nodes && n.id == id;
      var i :| 0 <= i < |nodes| && nodes[i] == n;
      assert ids[i] == id;
    }
  }

  /** `filteredNodeIds.includes(edge.from) && filteredNodeIds.includes(edge.to)` */
  predicate EdgeVisible(e: Edge, ids: seq<string>)
  {
    e.from in ids && e.to in ids
  }

  /** The edges a frame draws. */
  function FilterEdges(edges: seq<Edge>, ids: seq<string>): (r: seq<Edge>)
    ensures forall e :: e in r <==> e in edges && EdgeVisible(e, ids)
    ensures |r| <= |edges|
  {
    Filter(edges, (e: Edge) => EdgeVisible(e, ids))
  }

  /** Both filters keep their input order. */
  lemma FiltersKeepOrder(nodes: seq<Node>, edges: seq<Edge>, searchTerm: string, course: string,
                         ids: seq<string>)
    ensures IsSubsequence(FilterNodes(nodes, searchTerm, course), nodes)
    ensures IsSubsequence(FilterEdges(edges, ids), edges)
  {
    FilterIsSubsequence(nodes, (n: Node) => NodeVisible(n, searchTerm, course));
    FilterIsSubsequence(edges, (e: Edge) => EdgeVisible(e, ids));
  }

  /** With an empty search and every course, all nodes are shown. */
  lemma EmptySearchShowsAll(nodes: seq<Node>)
    ensures FilterNodes(nodes, "", AllCourses) == nodes
  {
    forall n | n in nodes ensures NodeVisible(n, "", AllCourses) {
      ContainsEmpty(Lower(n.caption));
    }
    FilterKeepsAll(nodes, (n: Node) => NodeVisible(n, "", AllCourses));
  }

  /** An edge is drawn exactly when it is an edge whose two endpoints are ids
      of shown nodes. */
  lemma ShownEdgesJoinShownNodes(nodes: seq<Node>, edges: seq<Edge>, searchTerm: string,
                                 course: string, e: Edge)
    ensures e in FilterEdges(edges, NodeIds(FilterNodes(nodes, searchTerm, course))) <==>
      e in edges
      && (exists a :: a in nodes && NodeVisible(a, searchTerm, course) && a.id == e.from)
      && (exists b :: b in nodes && NodeVisible(b, searchTerm, course) && b.id == e.to)
  {
    var shown := FilterNodes(nodes, searchTerm, course);
    NodeIdsMembership(shown, e.from);
    NodeIdsMembership(shown, e.to);
  }

  /** Filtering nodes with distinct ids leaves nodes with distinct ids. */
  lemma {:induction false} FilterKeepsIdsDistinct(nodes: seq<Node>, p: Node -> bool)
    requires NoDuplicates(NodeIds(nodes))
    ensures NoDuplicates(NodeIds(Filter(nodes, p)))
    decreases |nodes|
  {
    if nodes != [] {
      var rest := nodes[1..];
      assert NodeIds(nodes) == [nodes[0].id] + NodeIds(rest);
      assert NoDuplicates(NodeIds(rest)) by {
        forall i, j | 0 <= i < j < |rest| ensures NodeIds(rest)[i] != NodeIds(rest)[j] {
          assert NodeIds(rest)[i] == NodeIds(nodes)[i + 1];
          assert NodeIds(rest)[j] == NodeIds(nodes)[j + 1];
        }
      }
      FilterKeepsIdsDistinct(rest, p);
      var tail := NodeIds(Filter(rest, p));
      if p(nodes[0]) {
        assert NodeIds(Filter(nodes, p)) == [nodes[0].id] + tail;
        NodeIdsMembership(Filter(rest, p), nodes[0].id);
        forall i, j | 0 <= i < j < |tail| + 1
          ensures ([nodes[0].id] + tail)[i] != ([nodes[0].id] + tail)[j]
        {
          if i == 0 {
            assert ([nodes[0].id] + tail)[j] == tail[j - 1];
          }
        }
      } else {
        assert Filter(nodes, p) == Filter(rest, p);
      }
    }
  }

  /** Every endpoint of every edge is the id of some node. */
  predicate EndpointsKnown(nodes: seq<Node>, edges: seq<Edge>)
  {
    forall i :: 0 <= i < |edges| ==> edges[i].from in NodeIds(nodes) && edges[i].to in NodeIds(nodes)
  }

  /** When every node is shown, every edge of a well-formed graph is drawn. */
  lemma EmptySearchDrawsAllEdges(nodes: seq<Node>, edges: seq<Edge>)
    requires EndpointsKnown(nodes, edges)
    ensures FilterEdges(edges, NodeIds(FilterNodes(nodes, "", AllCourses))) == edges
  {
    EmptySearchShowsAll(nodes);
    forall e | e in edges ensures EdgeVisible(e, NodeIds(nodes)) {
      var i :| 0 <= i < |edges| && edges[i] == e;
    }
    FilterKeepsAll(edges, (e: Edge) => EdgeVisible(e, NodeIds(nodes)));
  }

  // ---------------------------------------------------------------------
  // Positions

  /** No later node in the list has the same id as node `i`. */
  predicate LastWithId(nodes: seq<Node>, i: nat)
    requires i < |nodes|
  {
    forall j :: i < j < |nodes| ==> nodes[j].id != nodes[i].id
  }

  /** The position map of `nodes`: node by node, the id of the node at each
      index is set to `place(index)`, so a later node overrides an earlier
      one with the same id. */
  function Positions(nodes: seq<Node>, place: nat -> Point): map<string, Point>
    decreases |nodes|
  {
    if nodes == [] then map[]
    else
      var n := |nodes| - 1;
      Positions(nodes[..n], place)[nodes[n].id := place(n)]
  }

  /** Taking one more node sets its position. */
  lemma PositionsStep(nodes: seq<Node>, place: nat -> Point, i: nat)
    requires i < |nodes|
    ensures Positions(nodes[..i + 1], place) == Positions(nodes[..i], place)[nodes[i].id := place(i)]
  {
    var front := nodes[..i + 1];
    assert front[..i] == nodes[..i];
    assert front[i] == nodes[i];
  }

  /** The ids of the nodes before the last one, and of the last one. */
  lemma NodeIdsSplitLast(nodes: seq<Node>)
    requires nodes != []
    ensures var n := |nodes| - 1;
      NodeIds(nodes) == NodeIds(nodes[..n]) + [nodes[n].id] && NodeIds(nodes[..n]) == NodeIds(nodes)[..n]
  {
    var n := |nodes| - 1;
    SplitLast(nodes);
    NodeIdsAppend(nodes[..n], [nodes[n]]);
  }

  /** The keys of the position map are exactly the ids of the nodes. */
  lemma {:induction false} PositionsKeys(nodes: seq<Node>, place: nat -> Point)
    ensures forall id :: id in Positions(nodes, place) <==> id in NodeIds(nodes)
    decreases |nodes|
  {
    if nodes != [] {
      var n := |nodes| - 1;
      PositionsKeys(nodes[..n], place);
      NodeIdsSplitLast(nodes);
    }
  }

  /** A node that no later node shares its id with keeps its own position. */
  lemma {:induction false} PositionsOfLast(nodes: seq<Node>, place: nat -> Point, i: nat)
    requires i < |nodes| && LastWithId(nodes, i)
    ensures nodes[i].id in Positions(nodes, place) && Positions(nodes, place)[nodes[i].id] == place(i)
    decreases |nodes|
  {
    var n := |nodes| - 1;
    if i < n {
      assert nodes[n].id != nodes[i].id;
      var front := nodes[..n];
      assert LastWithId(front, i) by {
        forall j | i < j < |front| ensures front[j].id != front[i].id {
          assert front[j] == nodes[j] && front[i] == nodes[i];
        }
      }
      PositionsOfLast(front, place, i);
    }
  }

  /** With distinct ids there is one position per node. */
  lemma {:induction false} PositionsSize(nodes: seq<Node>, place: nat -> Point)
    requires NoDuplicates(NodeIds(nodes))
    ensures |Positions(nodes, place)| == |nodes|
    decreases |nodes|
  {
    if nodes != [] {
      var n := |nodes| - 1;
      var ids := NodeIds(nodes);
      NodeIdsSplitLast(nodes);
      assert NoDuplicates(NodeIds(nodes[..n])) by {
        forall i, j | 0 <= i < j < n ensures NodeIds(nodes[..n])[i] != NodeIds(nodes[..n])[j] {
          assert ids[i] != ids[j];
        }
      }
      PositionsSize(nodes[..n], place);
      PositionsKeys(nodes[..n], place);
      NoDuplicatesNotBefore(ids, n);
    }
  }

  /** `filteredNodes.forEach((node, index) => { positions[node.id] = ... })`:
      the loop builds the position map of the shown nodes. */
  method AssignPositions(nodes: seq<Node>, place: nat -> Point) returns (positions: map<string, Point>)
    ensures positions == Positions(nodes, place)
  {
    positions := map[];
    for i := 0 to |nodes|
      invariant positions == Positions(nodes[..i], place)
    {
      PositionsStep(nodes, place, i);
      positions := positions[nodes[i].id := place(i)];
    }
    assert nodes[..|nodes|] == nodes;
  }

  /** What one frame computes before drawing: the shown nodes, the drawn
      edges and the position map. */
  method PlanFrame(nodes: seq<Node>, edges: seq<Edge>, searchTerm: string, course: string,
                   place: nat -> Point)
    returns (shown: seq<Node>, drawn: seq<Edge>, positions: map<string, Point>)
    ensures shown == FilterNodes(nodes, searchTerm, course)
    ensures drawn == FilterEdges(edges, NodeIds(shown))
    ensures forall id :: id in positions <==> exists n :: n in nodes && NodeVisible(n, searchTerm, course) && n.id == id
    ensures NoDuplicates(NodeIds(nodes)) ==>
              (|positions| == |shown|
               && forall i :: 0 <= i < |shown| ==> shown[i].id in positions && positions[shown[i].id] == place(i))
  {
    shown := FilterNodes(nodes, searchTerm, course);
    var ids := NodeIds(shown);
    drawn := FilterEdges(edges, ids);
    positions := AssignPositions(shown, place);
    PositionsKeys(shown, place);
    if NoDuplicates(NodeIds(nodes)) {
      FilterKeepsIdsDistinct(nodes, (n: Node) => NodeVisible(n, searchTerm, course));
      PositionsSize(shown, place);
      forall i | 0 <= i < |shown| ensures shown[i].id in positions && positions[shown[i].id] == place(i) {
        assert LastWithId(shown, i) by {
          forall j | i < j < |shown| ensures shown[j].id != shown[i].id {
            assert ids[i] != ids[j];
          }
        }
        PositionsOfLast(shown, place, i);
      }
    }
    forall id ensures id in positions <==> exists n :: n in nodes && NodeVisible(n, searchTerm, course) && n.id == id {
      NodeIdsMembership(shown, id);
    }
  }

  // ---------------------------------------------------------------------
  // Label wrapping

  /** How a node label is drawn. */
  datatype LabelLines = OneLine(text: string) | TwoLines(first: string, second: string)

  /** Labels of more than one space-separated word and more than ten UTF-16
      code units are drawn on two lines, the first holding the first half of
      the words (rounded up). */
  function WrapLabel(caption: string): (r: LabelLines)
    ensures r.TwoLines? <==> |Split(caption, " ")| > 1 && Utf16Length(caption) > 10
    ensures r.OneLine? ==> r.text == caption
  {
    var words := Split(caption, " ");
    if |words| > 1 && Utf16Length(caption) > 10 then
      var half := (|words| + 1) / 2;
      TwoLines(Join(words[..half], " "), Join(words[half..], " "))
    else
      OneLine(caption)
  }

  /** Four emoji and a short word make eleven UTF-16 code units, so the
      label is wrapped although it has only seven characters. */
  lemma WrapCountsCodeUnits()
    ensures WrapLabel("\U{1F600}\U{1F600}\U{1F600}\U{1F600} ab").TwoLines?
  {
    var caption := "\U{1F600}\U{1F600}\U{1F600}\U{1F600} ab";
    assert Utf16Length(caption) == 11;
    var e := '\U{1F600}';
    var cur: string := [];
    for k := 0 to 4
      invariant cur == caption[..k]
      invariant SplitFrom(caption, " ", []) == SplitFrom(caption[k..], " ", cur)
    {
      assert caption[k..][..1] == [e] != " ";
      assert caption[k..][1..] == caption[k + 1..];
      cur := cur + [caption[k]];
    }
    assert caption[4..][..1] == " ";
    assert |Split(caption, " ")| > 1;
  }

  /** The two lines of a wrapped label rejoin, with one space, to the label;
      the first line joins the first half of the words, rounded up, and the
      second the rest. */
  lemma WrapRejoins(caption: string)
    requires WrapLabel(caption).TwoLines?
    ensures WrapLabel(caption).first + " " + WrapLabel(caption).second == caption
    ensures var words := Split(caption, " "); var half := (|words| + 1) / 2;
      WrapLabel(caption).first == Join(words[..half], " ")
      && WrapLabel(caption).second == Join(words[half..], " ")
      && |words| - half <= half < |words|
  {
    var words := Split(caption, " ");
    var half := (|words| + 1) / 2;
    assert words == words[..half] + words[half..];
    JoinAppend(words[..half], words[half..], " ");
    JoinSplit(caption, " ");
  }

  // ---------------------------------------------------------------------
  // Zoom

  const MinZoom: real := 0.5
  const MaxZoom: real := 2.0

  /** `Math.min(prev + 0.1, 2)` */
  function ZoomIn(z: real): real
  {
    if z + 0.1 <= MaxZoom then z + 0.1 else MaxZoom
  }

  /** `Math.max(prev - 0.1, 0.5)` */
  function ZoomOut(z: real): real
  {
    if z - 0.1 >= MinZoom then z - 0.1 else MinZoom
  }

  /** From the range [0.5, 2] the zoom never leaves it; zooming in never
      shrinks it, zooming out never grows it, and each moves by 0.1 until it
      reaches its bound. */
  lemma ZoomStaysInRange(z: real)
    requires MinZoom <= z <= MaxZoom
    ensures MinZoom <= ZoomIn(z) <= MaxZoom && MinZoom <= ZoomOut(z) <= MaxZoom
    ensures z <= ZoomIn(z) && ZoomOut(z) <= z
    ensures z <= 1.9 ==> ZoomIn(z) == z + 0.1
    ensures z >= 0.6 ==> ZoomOut(z) == z - 0.1
    ensures ZoomIn(z) == z <==> z == MaxZoom
    ensures ZoomOut(z) == z <==> z == MinZoom
  {
  }
}
