/** The Global Payouts bus below the card: one connector from the card's bottom
    centre to each recipient (src/components/GlobalPayoutsSimulationLayer.tsx). */
module GlobalPayoutsSimulation {
  import opened Geometry
  import opened Products

  /** A payout recipient: its id and its offset inside the payouts section. */
  datatype RecipientNode = RecipientNode(id: string, yOffset: real)

  const RECIPIENTS: seq<RecipientNode> := [
    RecipientNode("supplier-a", 55.0),
    RecipientNode("contractor-b", 155.0),
    RecipientNode("vendor-c", 255.0)
  ]

  const CARD_BOTTOM_Y: real := CARD_TOP_Y + 380.0
  /** The section is aligned with the right-hand grid line. */
  const SECTION_LEFT: real := (STAGE_WIDTH / 4.0) * 3.0
  const SECTION_TOP: real := 536.0
  /** Half the height of a recipient's node. */
  const NODE_HALF: real := 24.0
  /** The bus runs level with the centre of the middle recipient. */
  const PIPE_Y: real := SECTION_TOP + RECIPIENTS[1].yOffset + NODE_HALF
  /** The split column. */
  const INTERNAL_X: real := SECTION_LEFT + 40.0
  const TARGET_X: real := INTERNAL_X + NODE_HALF
  const PAYOUT_CORNER_RADIUS: real := 20.0

  /** Height of the centre of a recipient's node. */
  function TargetY(node: RecipientNode): real
  {
    SECTION_TOP + node.yOffset + NODE_HALF
  }

  /** The connector of one recipient: down from the card, a corner onto the bus,
      and then straight into a recipient level with the bus, or along the bus to
      the split column, a corner up or down it, and a corner into the recipient. */
  function GetNodePath(node: RecipientNode): (p: Path)
    ensures |p| == 4 || |p| == 8
    ensures |p| == 4 <==> Abs(TargetY(node) - PIPE_Y) < 1.0
    ensures StartOf(p) == Point(CARD_CENTER_X, CARD_BOTTOM_Y)
    ensures EndOf(p) == Point(TARGET_X, TargetY(node))
    ensures p[1] == L(Point(CARD_CENTER_X, PIPE_Y - PAYOUT_CORNER_RADIUS))
    ensures p[2] == Q(Point(CARD_CENTER_X, PIPE_Y), Point(CARD_CENTER_X + PAYOUT_CORNER_RADIUS, PIPE_Y))
    ensures |p| == 8 || TargetY(node) == PIPE_Y ==> Orthogonal(p)
  {
    var startX, startY := CARD_CENTER_X, CARD_BOTTOM_Y;
    var targetY := TargetY(node);
    var r := PAYOUT_CORNER_RADIUS;
    var p1 := Point(startX, startY);
    var p2 := Point(startX, PIPE_Y);
    var p3 := Point(INTERNAL_X, PIPE_Y);
    var p4 := Point(INTERNAL_X, targetY);
    var p5 := Point(TARGET_X, targetY);
    if Abs(targetY - PIPE_Y) < 1.0 then
      [ M(p1),
        L(Point(p1.x, p2.y - r)),
        Q(p2, Point(p1.x + r, p2.y)),
        L(p5) ]
    else
      var verticalDirection := if targetY > PIPE_Y then 1.0 else -1.0;
      [ M(p1),
        L(Point(p1.x, p2.y - r)),
        Q(p2, Point(p1.x + r, p2.y)),
        L(Point(p3.x - r, p3.y)),
        Q(p3, Point(p3.x, p3.y + r * verticalDirection)),
        L(Point(p4.x, p4.y - r * verticalDirection)),
        Q(p4, Point(p4.x + r, p4.y)),
        L(p5) ]
  }

  /** The card's bottom is at 620, the bus at 715, the split column at 1090 and
      the recipients' entry at 1114. */
  lemma PayoutLayout()
    ensures CARD_BOTTOM_Y == 620.0 && PIPE_Y == 715.0
    ensures SECTION_LEFT == 1050.0 && INTERNAL_X == 1090.0 && TARGET_X == 1114.0
  {
  }

  /** A recipient off the bus is reached by turning at the split column
      towards it, one radius from the bus and one radius before its height. */
  lemma BranchFollowsTarget(node: RecipientNode)
    requires Abs(TargetY(node) - PIPE_Y) >= 1.0
    ensures var p := GetNodePath(node);
      var d := if TargetY(node) > PIPE_Y then 1.0 else -1.0;
      && p[3] == L(Point(INTERNAL_X - PAYOUT_CORNER_RADIUS, PIPE_Y))
      && p[4] == Q(Point(INTERNAL_X, PIPE_Y), Point(INTERNAL_X, PIPE_Y + PAYOUT_CORNER_RADIUS * d))
      && p[5] == L(Point(INTERNAL_X, TargetY(node) - PAYOUT_CORNER_RADIUS * d))
      && p[6] == Q(Point(INTERNAL_X, TargetY(node)), Point(TARGET_X - 4.0, TargetY(node)))
  {
    PayoutLayout();
  }

  /** The radius is never clamped: the branch runs towards the recipient
      exactly when it lies at least two radii (40 units) off the bus. */
  lemma BranchForwardIff(node: RecipientNode)
    requires Abs(TargetY(node) - PIPE_Y) >= 1.0
    ensures var p := GetNodePath(node);
      var d := if TargetY(node) > PIPE_Y then 1.0 else -1.0;
      d * (p[5].to.y - p[4].to.y) >= 0.0 <==> Abs(TargetY(node) - PIPE_Y) >= 2.0 * PAYOUT_CORNER_RADIUS
  {
    var p := GetNodePath(node);
    var t := TargetY(node);
    var d := if t > PIPE_Y then 1.0 else -1.0;
    assert p[5].to.y - p[4].to.y == (t - PIPE_Y) - 2.0 * PAYOUT_CORNER_RADIUS * d;
    if d == 1.0 {
      assert Abs(t - PIPE_Y) == t - PIPE_Y;
    } else {
      assert Abs(t - PIPE_Y) == PIPE_Y - t;
      assert d * (p[5].to.y - p[4].to.y) == (PIPE_Y - t) - 2.0 * PAYOUT_CORNER_RADIUS;
    }
  }

  /** The middle recipient sits on the bus and gets the four-command path; the
      first branches up to 615 and the last down to 815, both 100 units off the
      bus, so both branches run forward. */
  lemma RecipientTable()
    ensures GetNodePath(RECIPIENTS[1]) ==
      [ M(Point(700.0, 620.0)), L(Point(700.0, 695.0)),
        Q(Point(700.0, 715.0), Point(720.0, 715.0)), L(Point(1114.0, 715.0)) ]
    ensures |GetNodePath(RECIPIENTS[0])| == 8 && EndOf(GetNodePath(RECIPIENTS[0])) == Point(1114.0, 615.0)
    ensures GetNodePath(RECIPIENTS[0])[4].to == Point(1090.0, 695.0)
    ensures |GetNodePath(RECIPIENTS[2])| == 8 && EndOf(GetNodePath(RECIPIENTS[2])) == Point(1114.0, 815.0)
    ensures GetNodePath(RECIPIENTS[2])[4].to == Point(1090.0, 735.0)
    ensures forall k :: 0 <= k < |RECIPIENTS| ==> Orthogonal(GetNodePath(RECIPIENTS[k]))
  {
    PayoutLayout();
    assert TargetY(RECIPIENTS[0]) == 615.0;
    assert TargetY(RECIPIENTS[1]) == 715.0;
    assert TargetY(RECIPIENTS[2]) == 815.0;
  }
}
