/** The Connect fan-out right of the card: one connector from the card's
    right edge to each connected account (src/components/ConnectSimulationLayer.tsx). */
module ConnectSimulation {
  import opened Geometry
  import opened Products

  /** The card's right edge. */
  const START_X: real := CARD_CENTER_X + 300.0
  const CENTER_Y: real := 510.0
  /** The nodes sit 50 units past the card, plus one icon width. */
  const NODE_X: real := START_X + 50.0 + 64.0
  /** The branching column, 24 units before the nodes. */
  const MID_X: real := NODE_X - 24.0
  const CONNECT_CORNER_RADIUS: real := 20.0

  /** A connected account: its id and its height relative to the card's centre. */
  datatype ConnectNode = ConnectNode(id: string, yOffset: real)

  const NODES: seq<ConnectNode> := [
    ConnectNode("store", -80.0),
    ConnectNode("driver", 0.0),
    ConnectNode("creator", 80.0)
  ]

  /** The corner radius, clamped to half the run from the card to the branching column. */
  function SafeRadius(): (r: real)
    ensures 0.0 <= r <= CONNECT_CORNER_RADIUS
    ensures r <= Abs(MID_X - START_X) / 2.0
  {
    Min(CONNECT_CORNER_RADIUS, Abs(MID_X - START_X) / 2.0)
  }

  function NodeY(node: ConnectNode): real
  {
    CENTER_Y + node.yOffset
  }

  /** The connector of one node: straight when the node is within one unit of
      the card's centre height, else horizontal, down or up the branching
      column, horizontal into the node. */
  function NodePath(node: ConnectNode): (p: Path)
    ensures |p| == 2 || |p| == 6
    ensures |p| == 2 <==> Abs(node.yOffset) < 1.0
    ensures StartOf(p) == Point(START_X, CENTER_Y)
    ensures EndOf(p) == Point(NODE_X, NodeY(node))
    ensures |p| == 6 || node.yOffset == 0.0 ==> Orthogonal(p)
  {
    var start := Point(START_X, CENTER_Y);
    var nodeY := NodeY(node);
    if Abs(start.y - nodeY) < 1.0 then
      [M(start), L(Point(NODE_X, nodeY))]
    else
      var direction := if nodeY > start.y then 1.0 else -1.0;
      var r := SafeRadius();
      [ M(start),
        L(Point(MID_X - r, start.y)),
        Q(Point(MID_X, start.y), Point(MID_X, start.y + r * direction)),
        L(Point(MID_X, nodeY - r * direction)),
        Q(Point(MID_X, nodeY), Point(MID_X + r, nodeY)),
        L(Point(NODE_X, nodeY)) ]
  }

  /** The card edge is at 1000, the branching column at 1090, the nodes at
      1114, and the 90-unit run leaves the radius at its full 20. */
  lemma ConnectLayout()
    ensures START_X == 1000.0 && MID_X == 1090.0 && NODE_X == 1114.0
    ensures SafeRadius() == 20.0
  {
  }

  /** A bent connector turns at the branching column towards its node, one
      full radius from each horizontal. */
  lemma NodePathBend(node: ConnectNode)
    requires Abs(node.yOffset) >= 1.0
    ensures var p := NodePath(node);
      var d := if node.yOffset > 0.0 then 1.0 else -1.0;
      && p[1].to == Point(1070.0, CENTER_Y)
      && p[2] == Q(Point(MID_X, CENTER_Y), Point(MID_X, CENTER_Y + 20.0 * d))
      && p[3].to == Point(MID_X, NodeY(node) - 20.0 * d)
      && p[4] == Q(Point(MID_X, NodeY(node)), Point(1110.0, NodeY(node)))
  {
    ConnectLayout();
  }

  /** Nodes at opposite offsets get connectors that are mirror images in the
      card's centre line. */
  lemma NodePathsMirror(a: ConnectNode, b: ConnectNode)
    requires b.yOffset == -a.yOffset
    ensures NodePath(b) == MirrorY(NodePath(a), CENTER_Y)
  {
    var pa, pb, m := NodePath(a), NodePath(b), MirrorY(NodePath(a), CENTER_Y);
    assert |pb| == |m|;
    forall k | 0 <= k < |pb|
      ensures pb[k] == m[k]
    {
    }
  }

  /** Of the three nodes only the driver, level with the card, gets a straight
      line; the store bends up, the creator down, and the two mirror each other. */
  lemma NodeTable()
    ensures |NodePath(NODES[1])| == 2
    ensures |NodePath(NODES[0])| == 6 && NodePath(NODES[0])[3].to == Point(MID_X, 450.0)
    ensures |NodePath(NODES[2])| == 6 && NodePath(NODES[2])[3].to == Point(MID_X, 570.0)
    ensures NodePath(NODES[2]) == MirrorY(NodePath(NODES[0]), CENTER_Y)
    ensures forall k :: 0 <= k < |NODES| ==> Orthogonal(NodePath(NODES[k]))
  {
    NodePathBend(NODES[0]);
    NodePathBend(NODES[2]);
    NodePathsMirror(NODES[0], NODES[2]);
  }
}
