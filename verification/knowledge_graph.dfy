/** The knowledge-graph view: entities placed at fixed coordinates, an
    id-to-entity lookup table folded from the entity list, one line per
    relationship between the two entities it joins, and one group per
    entity. */
module KnowledgeGraph {
  import opened Wrappers

  /** An entity of the graph, drawn as a circle centred at (x, y). */
  datatype Node = Node(id: string, x: int, y: int, color: string, kind: string)

  /** A relationship between the entities with ids `source` and `target`. */
  datatype Link = Link(source: string, target: string)

  /** A drawn line from (x1, y1) to (x2, y2). */
  datatype Line = Line(x1: int, y1: int, x2: int, y2: int)

  /** A drawn entity: its React key, the translation that places it, the
      fill of its circle and its caption. */
  datatype NodeGroup = NodeGroup(key: string, dx: int, dy: int, fill: string, caption: string)

  /** `nodeMap`: the nodes folded left to right into a table keyed by id,
      each node spread over what came before, so a later node with the same
      id replaces an earlier one. */
  function NodeMap(nodes: seq<Node>): map<string, Node>
    decreases |nodes|
  {
    if nodes == [] then map[]
    else
      var last := nodes[|nodes| - 1];
      NodeMap(nodes[..|nodes| - 1])[last.id := last]
  }

  /** The ids of `nodes`. */
  function Ids(nodes: seq<Node>): set<string> {
    set i | 0 <= i < |nodes| :: nodes[i].id
  }

  /** No two nodes share an id. */
  predicate DistinctIds(nodes: seq<Node>) {
    forall i, j :: 0 <= i < j < |nodes| ==> nodes[i].id != nodes[j].id
  }

  /** The keys of the table are exactly the ids of the nodes. */
  lemma {:induction false} NodeMapKeys(nodes: seq<Node>)
    ensures NodeMap(nodes).Keys == Ids(nodes)
    decreases |nodes|
  {
    if nodes != [] {
      var init := nodes[..|nodes| - 1];
      NodeMapKeys(init);
      assert Ids(nodes) == Ids(init) + {nodes[|nodes| - 1].id} by {
        forall id | id in Ids(nodes) ensures id in Ids(init) + {nodes[|nodes| - 1].id} {
          var i :| 0 <= i < |nodes| && nodes[i].id == id;
          if i < |nodes| - 1 {
            assert init[i].id == id;
          }
        }
        forall id | id in Ids(init) ensures id in Ids(nodes) {
          var i :| 0 <= i < |init| && init[i].id == id;
          assert nodes[i].id == id;
        }
      }
    }
  }

  /** A node whose id no later node repeats is what the table holds for that
      id: the last node with a given id wins. */
  lemma {:induction false} NodeMapLastWins(nodes: seq<Node>, i: nat)
    requires i < |nodes|
    requires forall j :: i < j < |nodes| ==> nodes[j].id != nodes[i].id
    ensures nodes[i].id in NodeMap(nodes) && NodeMap(nodes)[nodes[i].id] == nodes[i]
    decreases |nodes|
  {
    if i < |nodes| - 1 {
      var init := nodes[..|nodes| - 1];
      assert init[i] == nodes[i];
      forall j | i < j < |init|
        ensures init[j].id != init[i].id
      {
        assert init[j] == nodes[j];
      }
      NodeMapLastWins(init, i);
    }
  }

  /** With distinct ids every node is found under its own id. */
  lemma NodeMapFindsEveryNode(nodes: seq<Node>)
    requires DistinctIds(nodes)
    ensures forall i :: 0 <= i < |nodes| ==> nodes[i].id in NodeMap(nodes) && NodeMap(nodes)[nodes[i].id] == nodes[i]
  {
    forall i | 0 <= i < |nodes|
      ensures nodes[i].id in NodeMap(nodes) && NodeMap(nodes)[nodes[i].id] == nodes[i]
    {
      NodeMapLastWins(nodes, i);
    }
  }

  /** Both ends of `link` are in the table. */
  predicate Resolves(table: map<string, Node>, link: Link) {
    link.source in table && link.target in table
  }

  /** The line drawn for a link whose ends are both in the table: from the
      source entity's centre to the target entity's centre. */
  function LineFor(table: map<string, Node>, link: Link): Line
    requires Resolves(table, link)
  {
    Line(table[link.source].x, table[link.source].y, table[link.target].x, table[link.target].y)
  }

  /** The lines of the graph, one per link in link order; `None` when some
      end is missing from the table, where the page would fail reading a
      coordinate of `undefined`. */
  function LinkLines(table: map<string, Node>, links: seq<Link>): Option<seq<Line>> {
    if forall i :: 0 <= i < |links| ==> Resolves(table, links[i]) then
      Some(seq(|links|, i requires 0 <= i < |links| && Resolves(table, links[i]) => LineFor(table, links[i])))
    else
      None
  }

  /** The groups of the graph, one per node in node order. */
  function NodeGroups(nodes: seq<Node>): seq<NodeGroup> {
    seq(|nodes|, i requires 0 <= i < |nodes| =>
      NodeGroup(nodes[i].id, nodes[i].x, nodes[i].y, nodes[i].color, nodes[i].id))
  }

  /** The lines are drawn exactly when every link's ends are node ids; then
      there is one line per link, in link order, and with distinct ids each
      line runs from the centre of the node named as source to the centre of
      the node named as target. */
  lemma LinkLinesJoinNodes(nodes: seq<Node>, links: seq<Link>)
    ensures LinkLines(NodeMap(nodes), links).Some? <==>
      forall i :: 0 <= i < |links| ==> links[i].source in Ids(nodes) && links[i].target in Ids(nodes)
    ensures LinkLines(NodeMap(nodes), links).Some? ==> |LinkLines(NodeMap(nodes), links).value| == |links|
    ensures DistinctIds(nodes) && LinkLines(NodeMap(nodes), links).Some? ==>
      forall i :: 0 <= i < |links| ==>
        exists s, t :: (0 <= s < |nodes| && 0 <= t < |nodes|
          && nodes[s].id == links[i].source && nodes[t].id == links[i].target
          && LinkLines(NodeMap(nodes), links).value[i] == Line(nodes[s].x, nodes[s].y, nodes[t].x, nodes[t].y))
  {
    var table := NodeMap(nodes);
    NodeMapKeys(nodes);
    if DistinctIds(nodes) && LinkLines(table, links).Some? {
      NodeMapFindsEveryNode(nodes);
      forall i | 0 <= i < |links|
        ensures exists s, t :: (0 <= s < |nodes| && 0 <= t < |nodes|
          && nodes[s].id == links[i].source && nodes[t].id == links[i].target
          && LinkLines(table, links).value[i] == Line(nodes[s].x, nodes[s].y, nodes[t].x, nodes[t].y))
      {
        assert Resolves(table, links[i]);
        var s :| 0 <= s < |nodes| && nodes[s].id == links[i].source;
        var t :| 0 <= t < |nodes| && nodes[t].id == links[i].target;
        assert table[nodes[s].id] == nodes[s] && table[nodes[t].id] == nodes[t];
      }
    }
  }

  /** One group per node, in node order, placed at that node's centre; the
      group keys are distinct exactly when the node ids are. */
  lemma NodeGroupsPlaceNodes(nodes: seq<Node>)
    ensures |NodeGroups(nodes)| == |nodes|
    ensures forall i :: 0 <= i < |nodes| ==>
      NodeGroups(nodes)[i].dx == nodes[i].x && NodeGroups(nodes)[i].dy == nodes[i].y
      && NodeGroups(nodes)[i].caption == nodes[i].id && NodeGroups(nodes)[i].fill == nodes[i].color
    ensures DistinctIds(nodes) <==>
      forall i, j :: 0 <= i < j < |nodes| ==> NodeGroups(nodes)[i].key != NodeGroups(nodes)[j].key
  {
  }

  const GraphNodes: seq<Node> := [
    Node("Cartosat-3", 250, 150, "#4F46E5", "Satellite"),
    Node("RISAT-2B", 350, 300, "#4F46E5", "Satellite"),
    Node("Earth Obs", 400, 200, "#8B5CF6", "Mission"),
    Node("India", 200, 250, "#DB2777", "Location"),
    Node("HR Imagery", 550, 150, "#F59E0B", "Data"),
    Node("SAR Data", 500, 280, "#10B981", "Data")
  ]

  const GraphLinks: seq<Link> := [
    Link("Cartosat-3", "Earth Obs"),
    Link("RISAT-2B", "Earth Obs"),
    Link("Cartosat-3", "India"),
    Link("RISAT-2B", "India"),
    Link("Earth Obs", "HR Imagery"),
    Link("Earth Obs", "SAR Data"),
    Link("Cartosat-3", "HR Imagery"),
    Link("RISAT-2B", "SAR Data")
  ]

  /** The six entities of the page have distinct ids. (The list is a
      parameter equal to the constant so that the solver does not unfold
      the constant in every step.) */
  lemma GraphIdsDistinct(nodes: seq<Node>)
    requires nodes == GraphNodes
    ensures DistinctIds(nodes)
  {
    var ids := seq(|nodes|, i requires 0 <= i < |nodes| => nodes[i].id);
    assert ids == ["Cartosat-3", "RISAT-2B", "Earth Obs", "India", "HR Imagery", "SAR Data"];
    assert ids[0][0] == 'C' && ids[1][0] == 'R' && ids[2][0] == 'E';
    assert ids[3][0] == 'I' && ids[4][0] == 'H' && ids[5][0] == 'S';
  }

  /** The lines of the page, between these centres. */
  const GraphLineList: seq<Line> := [
    Line(250, 150, 400, 200), Line(350, 300, 400, 200),
    Line(250, 150, 200, 250), Line(350, 300, 200, 250),
    Line(400, 200, 550, 150), Line(400, 200, 500, 280),
    Line(250, 150, 550, 150), Line(350, 300, 500, 280)
  ]

  /** On the page every relationship resolves, so all eight lines are drawn.
      (Nodes and links are parameters equal to the constants, for the same
      reason as in `GraphIdsDistinct`.) */
  lemma GraphLines(nodes: seq<Node>, links: seq<Link>)
    requires nodes == GraphNodes && links == GraphLinks
    ensures LinkLines(NodeMap(nodes), links) == Some(GraphLineList)
  {
    var table := NodeMap(nodes);
    GraphIdsDistinct(nodes);
    NodeMapFindsEveryNode(nodes);
    var cartosat, risat, earthObs, india, imagery, sar := nodes[0], nodes[1], nodes[2], nodes[3], nodes[4], nodes[5];
    assert table[cartosat.id] == cartosat && table[risat.id] == risat && table[earthObs.id] == earthObs;
    assert table[india.id] == india && table[imagery.id] == imagery && table[sar.id] == sar;
    assert links == [
      Link(cartosat.id, earthObs.id), Link(risat.id, earthObs.id),
      Link(cartosat.id, india.id), Link(risat.id, india.id),
      Link(earthObs.id, imagery.id), Link(earthObs.id, sar.id),
      Link(cartosat.id, imagery.id), Link(risat.id, sar.id)
    ];
    assert forall i :: 0 <= i < |links| ==> Resolves(table, links[i]);
    var lines := LinkLines(table, links).value;
    assert |lines| == |GraphLineList|;
    forall i | 0 <= i < |lines|
      ensures lines[i] == GraphLineList[i]
    {
      assert lines[i] == LineFor(table, links[i]);
    }
    assert lines == GraphLineList;
  }
}
