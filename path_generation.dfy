/** The orthogonal (Manhattan) connector from a product icon down to the card
    (src/utils/pathGeneration.ts). */
module PathGeneration {
  import opened Geometry

  /** Options left out by the caller are `None` and take their defaults. */
  datatype OrthogonalPathConfig = OrthogonalPathConfig(
    startX: real, startY: real, endX: real, endY: real,
    cornerRadius: Option<real>, convergenceY: Option<real>)

  const DEFAULT_CORNER_RADIUS: real := 20.0
  const DEFAULT_CONVERGENCE_Y: real := 220.0

  function CornerRadiusOf(config: OrthogonalPathConfig): real
  {
    if config.cornerRadius.Some? then config.cornerRadius.value else DEFAULT_CORNER_RADIUS
  }

  function ConvergenceYOf(config: OrthogonalPathConfig): real
  {
    if config.convergenceY.Some? then config.convergenceY.value else DEFAULT_CONVERGENCE_Y
  }

  /** Sign of the horizontal run: +1 when the start lies left of the end. */
  function Direction(startX: real, endX: real): (d: real)
    ensures d == 1.0 || d == -1.0
    ensures d == 1.0 <==> startX < endX
  {
    if startX < endX then 1.0 else -1.0
  }

  /** Nearly aligned ends (less than one unit apart) are joined by a straight
      line; otherwise: drop, corner, horizontal run at the convergence line,
      corner, drop. The corner radius is used as given, never clamped. */
  function GenerateOrthogonalPath(config: OrthogonalPathConfig): (path: Path)
    ensures |path| == 2 || |path| == 6
    ensures |path| == 2 <==> Abs(config.startX - config.endX) < 1.0
    ensures StartOf(path) == Point(config.startX, config.startY)
    ensures EndOf(path) == Point(config.endX, config.endY)
    ensures config.startX == config.endX || |path| == 6 ==> Orthogonal(path)
  {
    var startX, startY, endX, endY := config.startX, config.startY, config.endX, config.endY;
    var cornerRadius := CornerRadiusOf(config);
    if Abs(startX - endX) < 1.0 then
      [M(Point(startX, startY)), L(Point(endX, endY))]
    else
      var direction := Direction(startX, endX);
      var horizontalY := ConvergenceYOf(config);
      var startDropY := horizontalY - cornerRadius;
      var endDropY := horizontalY + cornerRadius;
      [ M(Point(startX, startY)),
        L(Point(startX, startDropY)),
        Q(Point(startX, horizontalY), Point(startX + direction * cornerRadius, horizontalY)),
        L(Point(endX - direction * cornerRadius, horizontalY)),
        Q(Point(endX, horizontalY), Point(endX, endDropY)),
        L(Point(endX, endY)) ]
  }

  /** Aligned ends: exactly a moveto and a lineto (slightly slanted when the
      two x values differ by less than one unit without being equal). */
  lemma StraightWhenAligned(config: OrthogonalPathConfig)
    requires Abs(config.startX - config.endX) < 1.0
    ensures GenerateOrthogonalPath(config) ==
      [M(Point(config.startX, config.startY)), L(Point(config.endX, config.endY))]
  {
  }

  /** The shape of a routed connector: M, L, Q, L, Q, L; the first three points
      on the start's vertical, the last three on the end's vertical, the
      horizontal run on the convergence line, the corners one radius away. */
  lemma RoutedShape(config: OrthogonalPathConfig)
    requires Abs(config.startX - config.endX) >= 1.0
    ensures var p := GenerateOrthogonalPath(config);
      var r, h := CornerRadiusOf(config), ConvergenceYOf(config);
      && p[0].M? && p[1].L? && p[2].Q? && p[3].L? && p[4].Q? && p[5].L?
      && p[0].to.x == p[1].to.x == p[2].ctrl.x == config.startX
      && p[4].ctrl.x == p[4].to.x == p[5].to.x == config.endX
      && p[1].to.y == h - r
      && p[2].ctrl.y == p[2].to.y == p[3].to.y == p[4].ctrl.y == h
      && p[4].to.y == h + r
  {
  }

  /** The first corner turns towards the end, the second arrives from the start:
      the run starts at startX + d·r and stops at endX − d·r, d being the sign
      of endX − startX. */
  lemma RoutedCornersFollowDirection(config: OrthogonalPathConfig)
    requires Abs(config.startX - config.endX) >= 1.0
    ensures var p := GenerateOrthogonalPath(config);
      var r, d := CornerRadiusOf(config), Direction(config.startX, config.endX);
      && (d > 0.0 <==> config.startX < config.endX)
      && p[2].to.x == config.startX + d * r
      && p[3].to.x == config.endX - d * r
  {
  }

  /** Without a clamp the horizontal run keeps the connector's direction
      exactly when the ends are at least two radii apart; closer ends make it
      run backwards. */
  lemma RunForwardIffWideEnough(config: OrthogonalPathConfig)
    requires Abs(config.startX - config.endX) >= 1.0
    ensures var p := GenerateOrthogonalPath(config);
      var d := Direction(config.startX, config.endX);
      d * (p[3].to.x - p[2].to.x) >= 0.0 <==>
        Abs(config.endX - config.startX) >= 2.0 * CornerRadiusOf(config)
  {
    var p := GenerateOrthogonalPath(config);
    var d := Direction(config.startX, config.endX);
    var r := CornerRadiusOf(config);
    assert p[3].to.x - p[2].to.x == (config.endX - config.startX) - 2.0 * d * r;
    if d == 1.0 {
      assert Abs(config.endX - config.startX) == config.endX - config.startX;
    } else {
      assert Abs(config.endX - config.startX) == config.startX - config.endX;
      assert d * (p[3].to.x - p[2].to.x) == (config.startX - config.endX) - 2.0 * r;
    }
  }

  /** Close ends with the default radius: a 10-unit gap makes the run go from
      120 back to 90, past both corners. */
  lemma NoClampOnShortRun()
    ensures var p := GenerateOrthogonalPath(OrthogonalPathConfig(100.0, 0.0, 110.0, 200.0, None, None));
      p[2].to == Point(120.0, 220.0) && p[3].to == Point(90.0, 220.0)
  {
  }

  /** Omitted options fall back to a radius of 20 and a convergence line at 220. */
  lemma Defaults(startX: real, startY: real, endX: real, endY: real)
    requires Abs(startX - endX) >= 1.0
    ensures var p := GenerateOrthogonalPath(OrthogonalPathConfig(startX, startY, endX, endY, None, None));
      p[1].to.y == 200.0 && p[3].to.y == 220.0 && p[4].to.y == 240.0 &&
      Abs(p[2].to.x - startX) == 20.0
  {
  }

  /** A right-going connector from (100,0) to (300,200) through y = 100. */
  lemma RoutedExample()
    ensures GenerateOrthogonalPath(OrthogonalPathConfig(100.0, 0.0, 300.0, 200.0, Some(20.0), Some(100.0))) ==
      [ M(Point(100.0, 0.0)), L(Point(100.0, 80.0)),
        Q(Point(100.0, 100.0), Point(120.0, 100.0)), L(Point(280.0, 100.0)),
        Q(Point(300.0, 100.0), Point(300.0, 120.0)), L(Point(300.0, 200.0)) ]
  {
  }
}
