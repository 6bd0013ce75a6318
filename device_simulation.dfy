/** The phone and terminal devices left of the card, their connectors to the
    card's left edge, and the Radar frame around them
    (src/components/DeviceSimulationLayer.tsx). */
module DeviceSimulation {
  import opened Geometry
  import opened Products

  // ---------------------------------------------------------------------------
  // One device and its connector
  // ---------------------------------------------------------------------------

  const ASPECT_RATIO: real := 1.6
  /** The card spans 600 units around its centre. */
  const CARD_LEFT_EDGE: real := CARD_CENTER_X - 300.0
  /** The connector stops short of the card to leave room for its arrow head. */
  const ARROW_GAP: real := 8.0
  const DEVICE_CORNER_RADIUS: real := 20.0
  /** Devices less than this far above or below their target get a straight line. */
  const DEVICE_STRAIGHT_TOLERANCE: real := 5.0

  /** x of the connector's vertical leg, halfway between the device and the card. */
  function DeviceMidX(startX: real): (midX: real)
    ensures midX - startX == CARD_LEFT_EDGE - midX
  {
    (startX + CARD_LEFT_EDGE) / 2.0
  }

  /** The corner radius, clamped to half the horizontal run to the middle. */
  function SafeCornerRadius(startX: real): (r: real)
    ensures 0.0 <= r <= DEVICE_CORNER_RADIUS
    ensures r <= Abs(DeviceMidX(startX) - startX) / 2.0
    ensures r == DEVICE_CORNER_RADIUS || r == Abs(DeviceMidX(startX) - startX) / 2.0
  {
    Min(DEVICE_CORNER_RADIUS, Abs(DeviceMidX(startX) - startX) / 2.0)
  }

  function VerticalDir(startY: real, targetY: real): (d: real)
    ensures d == 1.0 || d == -1.0
    ensures d == 1.0 <==> targetY > startY
  {
    if targetY > startY then 1.0 else -1.0
  }

  /** The connector of a device centred at (x + width/2, y) to the card edge at
      height targetY: straight when the heights are within 5 units (it then
      stays at the device's own height), else horizontal, vertical at the
      middle, horizontal again, with clamped corners. */
  function DevicePath(x: real, y: real, width: real, targetY: real): (path: Path)
    ensures |path| == 2 || |path| == 6
    ensures |path| == 2 <==> Abs(targetY - y) < DEVICE_STRAIGHT_TOLERANCE
    ensures Orthogonal(path)
    ensures StartOf(path) == Point(x + width / 2.0, y)
    ensures EndOf(path) == Point(CARD_LEFT_EDGE - ARROW_GAP, if |path| == 2 then y else targetY)
  {
    var startX := x + width / 2.0;
    var startY := y;
    if Abs(targetY - startY) < DEVICE_STRAIGHT_TOLERANCE then
      [M(Point(startX, startY)), L(Point(CARD_LEFT_EDGE - ARROW_GAP, startY))]
    else
      var midX := DeviceMidX(startX);
      var r := SafeCornerRadius(startX);
      var dir := VerticalDir(startY, targetY);
      [ M(Point(startX, startY)),
        L(Point(midX - r, startY)),
        Q(Point(midX, startY), Point(midX, startY + r * dir)),
        L(Point(midX, targetY - r * dir)),
        Q(Point(midX, targetY), Point(midX + r, targetY)),
        L(Point(CARD_LEFT_EDGE - ARROW_GAP, targetY)) ]
  }

  /** The bent connector turns towards the target: its vertical leg lies at the
      middle x, from one radius past the device's height to one radius before
      the target's. */
  lemma DevicePathBend(x: real, y: real, width: real, targetY: real)
    requires Abs(targetY - y) >= DEVICE_STRAIGHT_TOLERANCE
    ensures var p := DevicePath(x, y, width, targetY);
      var startX := x + width / 2.0;
      var midX, r, dir := DeviceMidX(startX), SafeCornerRadius(startX), VerticalDir(y, targetY);
      && (dir == 1.0 <==> targetY > y)
      && p[1].to == Point(midX - r, y)
      && p[2].to == Point(midX, y + r * dir)
      && p[3].to == Point(midX, targetY - r * dir)
      && p[4].to == Point(midX + r, targetY)
  {
  }

  /** Thanks to the clamp, a device left of the card never has its corners
      overshoot: the first leg runs rightwards and the second corner ends
      before the card edge. */
  lemma DevicePathNoHorizontalOvershoot(x: real, y: real, width: real, targetY: real)
    requires Abs(targetY - y) >= DEVICE_STRAIGHT_TOLERANCE
    requires x + width / 2.0 <= CARD_LEFT_EDGE
    ensures var p := DevicePath(x, y, width, targetY);
      x + width / 2.0 <= p[1].to.x <= p[2].to.x <= p[4].to.x <= CARD_LEFT_EDGE
  {
    var startX := x + width / 2.0;
    var r := SafeCornerRadius(startX);
    assert Abs(DeviceMidX(startX) - startX) == (CARD_LEFT_EDGE - startX) / 2.0;
    assert r <= (CARD_LEFT_EDGE - startX) / 4.0;
  }

  /** The clamp does not cover the last leg: it runs rightwards into the card
      exactly when the device's centre is at most 368, since the second corner
      ends at (startX + 1200) / 4 for a centre between 320 and 400. */
  lemma DevicePathLastLegForwardIff(x: real, y: real, width: real, targetY: real)
    requires Abs(targetY - y) >= DEVICE_STRAIGHT_TOLERANCE
    requires x + width / 2.0 <= CARD_LEFT_EDGE
    ensures var p := DevicePath(x, y, width, targetY);
      p[4].to.x <= p[5].to.x <==> x + width / 2.0 <= 368.0
  {
    var startX := x + width / 2.0;
    var r := SafeCornerRadius(startX);
    assert Abs(DeviceMidX(startX) - startX) == (CARD_LEFT_EDGE - startX) / 2.0;
    if startX <= 320.0 {
      assert r == DEVICE_CORNER_RADIUS;
    } else {
      assert r == (CARD_LEFT_EDGE - startX) / 4.0;
    }
  }

  /** A device centred at 380 gets a last leg from 395 back to 392. */
  lemma DevicePathLastLegBackwards()
    ensures var p := DevicePath(320.0, 0.0, 120.0, 100.0);
      p[4].to.x == 395.0 && p[5].to.x == 392.0
  {
    assert SafeCornerRadius(380.0) == 5.0;
  }

  /** The radius is clamped horizontally only: the vertical leg runs towards
      the target exactly when the heights are at least two radii apart. */
  lemma DeviceVerticalLegForwardIff(x: real, y: real, width: real, targetY: real)
    requires Abs(targetY - y) >= DEVICE_STRAIGHT_TOLERANCE
    ensures var p := DevicePath(x, y, width, targetY);
      var dir := VerticalDir(y, targetY);
      dir * (p[3].to.y - p[2].to.y) >= 0.0 <==>
        Abs(targetY - y) >= 2.0 * SafeCornerRadius(x + width / 2.0)
  {
    var p := DevicePath(x, y, width, targetY);
    var r, dir := SafeCornerRadius(x + width / 2.0), VerticalDir(y, targetY);
    assert p[3].to.y - p[2].to.y == (targetY - y) - 2.0 * r * dir;
    if dir == 1.0 {
      assert Abs(targetY - y) == targetY - y;
    } else {
      assert Abs(targetY - y) == y - targetY;
      assert dir * (p[3].to.y - p[2].to.y) == (y - targetY) - 2.0 * r;
    }
  }

  // ---------------------------------------------------------------------------
  // The layer: which devices show, where they sit, the Radar frame
  // ---------------------------------------------------------------------------

  const POS_X: real := 140.0
  const CENTER_Y: real := 510.0
  const STACK_OFFSET: real := 150.0
  /** Stacked devices aim 50 units above and below the centre of the card edge. */
  const STACK_TARGET_OFFSET: real := 50.0
  const DEVICE_WIDTH: real := 120.0
  const DEVICE_HEIGHT: real := DEVICE_WIDTH * ASPECT_RATIO
  const PADDING: real := 20.0
  const HEADER_HEIGHT: real := 40.0

  datatype Frame = Frame(left: real, top: real, width: real, height: real)

  datatype DeviceLayout = DeviceLayout(
    showPhone: bool, showTerminal: bool,
    showRadarFrame: bool, showAuthBoostBadge: bool,
    isStacked: bool,
    phoneY: real, terminalY: real,
    phoneTargetY: real, terminalTargetY: real,
    contentTopY: real, contentBottomY: real,
    frame: Frame)

  /** The Radar frame around the content: the device column widened by the
      padding on both sides, the content widened by the padding below and by
      the padding and the header above. */
  function FrameAround(contentTopY: real, contentBottomY: real): (f: Frame)
    ensures f.left + PADDING == POS_X && f.left + f.width - PADDING == POS_X + DEVICE_WIDTH
    ensures f.top + HEADER_HEIGHT + PADDING == contentTopY
    ensures f.top + f.height - PADDING == contentBottomY
  {
    Frame(POS_X - PADDING, contentTopY - PADDING - HEADER_HEIGHT,
          DEVICE_WIDTH + PADDING * 2.0,
          (contentBottomY - contentTopY) + PADDING * 2.0 + HEADER_HEIGHT)
  }

  /** The layout for the given active products. */
  function LayoutFor(activeProducts: seq<ProductId>): (l: DeviceLayout)
    ensures l.showPhone == (Payments in activeProducts)
    ensures l.showTerminal == (Terminal in activeProducts)
    ensures l.isStacked <==> l.showPhone && l.showTerminal
    ensures l.showRadarFrame <==> Radar in activeProducts && (l.showPhone || l.showTerminal)
    ensures l.showAuthBoostBadge <==> AuthorizationBoost in activeProducts && (l.showPhone || l.showTerminal)
    ensures l.isStacked ==>
      (l.phoneY == 360.0 && l.terminalY == 660.0 &&
       l.phoneTargetY == 460.0 && l.terminalTargetY == 560.0 &&
       l.contentTopY == 264.0 && l.contentBottomY == 756.0)
    ensures !l.isStacked ==> l.phoneY == l.terminalY == l.phoneTargetY == l.terminalTargetY == 510.0
    ensures !l.isStacked && (l.showPhone || l.showTerminal) ==>
              l.contentTopY == 414.0 && l.contentBottomY == 606.0
    ensures l.frame == FrameAround(l.contentTopY, l.contentBottomY)
    ensures l.frame.left == 120.0 && l.frame.width == 160.0
  {
    var showPhone := Payments in activeProducts;
    var showTerminal := Terminal in activeProducts;
    var showRadar := Radar in activeProducts;
    var showAuthBoost := AuthorizationBoost in activeProducts;
    var isStacked := showPhone && showTerminal;
    var phoneY := if isStacked then CENTER_Y - STACK_OFFSET else CENTER_Y;
    var terminalY := if isStacked then CENTER_Y + STACK_OFFSET else CENTER_Y;
    var contentTopY :=
      if isStacked then phoneY - DEVICE_HEIGHT / 2.0
      else if showPhone || showTerminal then CENTER_Y - DEVICE_HEIGHT / 2.0
      else CENTER_Y;
    var contentBottomY :=
      if isStacked then terminalY + DEVICE_HEIGHT / 2.0
      else if showPhone || showTerminal then CENTER_Y + DEVICE_HEIGHT / 2.0
      else CENTER_Y;
    DeviceLayout(
      showPhone, showTerminal,
      showRadar && (showPhone || showTerminal),
      showAuthBoost && (showPhone || showTerminal),
      isStacked, phoneY, terminalY,
      if isStacked then CENTER_Y - STACK_TARGET_OFFSET else CENTER_Y,
      if isStacked then CENTER_Y + STACK_TARGET_OFFSET else CENTER_Y,
      contentTopY, contentBottomY,
      FrameAround(contentTopY, contentBottomY))
  }

  /** The connector of the phone, when the phone is shown. */
  function PhonePath(activeProducts: seq<ProductId>): (r: Option<Path>)
    ensures r.Some? <==> Payments in activeProducts
  {
    var l := LayoutFor(activeProducts);
    if l.showPhone then Some(DevicePath(POS_X, l.phoneY, DEVICE_WIDTH, l.phoneTargetY)) else None
  }

  /** The connector of the terminal, when the terminal is shown. */
  function TerminalPath(activeProducts: seq<ProductId>): (r: Option<Path>)
    ensures r.Some? <==> Terminal in activeProducts
  {
    var l := LayoutFor(activeProducts);
    if l.showTerminal then Some(DevicePath(POS_X, l.terminalY, DEVICE_WIDTH, l.terminalTargetY)) else None
  }

  /** Every shown device lies inside the Radar frame, below its header. */
  lemma FrameEnclosesDevices(activeProducts: seq<ProductId>)
    ensures var l := LayoutFor(activeProducts);
      && (l.showPhone ==>
            (l.frame.top + HEADER_HEIGHT + PADDING <= l.phoneY - DEVICE_HEIGHT / 2.0 &&
             l.phoneY + DEVICE_HEIGHT / 2.0 <= l.frame.top + l.frame.height - PADDING))
      && (l.showTerminal ==>
            (l.frame.top + HEADER_HEIGHT + PADDING <= l.terminalY - DEVICE_HEIGHT / 2.0 &&
             l.terminalY + DEVICE_HEIGHT / 2.0 <= l.frame.top + l.frame.height - PADDING))
  {
  }

  /** A single device sits on the card's centre line and is joined to it by a
      straight line from (200,510) to (392,510). */
  lemma SingleDeviceStraight(activeProducts: seq<ProductId>)
    requires !(Payments in activeProducts && Terminal in activeProducts)
    ensures PhonePath(activeProducts).Some? ==>
      PhonePath(activeProducts).value == [M(Point(200.0, 510.0)), L(Point(392.0, 510.0))]
    ensures TerminalPath(activeProducts).Some? ==>
      TerminalPath(activeProducts).value == [M(Point(200.0, 510.0)), L(Point(392.0, 510.0))]
  {
  }

  /** Stacked, the phone's connector bends down and the terminal's bends up,
      both with the full radius at x = 300, and their vertical legs (380..440
      and 580..640) are apart. */
  lemma StackedDevicesBend(activeProducts: seq<ProductId>)
    requires Payments in activeProducts && Terminal in activeProducts
    ensures var phone, terminal := PhonePath(activeProducts).value, TerminalPath(activeProducts).value;
      && phone[2].to == Point(300.0, 380.0) && phone[3].to == Point(300.0, 440.0)
      && EndOf(phone) == Point(392.0, 460.0)
      && terminal[2].to == Point(300.0, 640.0) && terminal[3].to == Point(300.0, 580.0)
      && EndOf(terminal) == Point(392.0, 560.0)
  {
    assert SafeCornerRadius(200.0) == 20.0;
  }
}
