/**
 * The browser side that draws the pedigree: the `Tree` class with its layout
 * constants, the fixed spacing of generations applied by `draw`, the person box
 * centred on each node, the right-angled connector between a parent and a child
 * box, and the abbreviation of the first name.
 *
 * Coordinates follow the tree layout: a node's `x` runs across siblings and its
 * `y` across generations; the drawing puts `y` on the horizontal screen axis and
 * `x` on the vertical one.
 */
module TreeDrawing {
  import opened Wrappers

  /** A node position as the tree layout gives it. */
  datatype Position = Position(x: real, y: real)

  /** A point in the SVG user space: `x` horizontal, `y` vertical. */
  datatype Point = Point(x: real, y: real)

  /** The SVG path commands the connector uses: absolute move-to, horizontal and vertical line-to. */
  datatype Command = MoveTo(x: real, y: real) | HorizontalTo(x: real) | VerticalTo(y: real)

  /** An SVG rectangle: top-left corner and size. */
  datatype Rect = Rect(x: real, y: real, width: real, height: real)

  // ---------------------------------------------------------------------------
  // Path semantics

  /** Where a command leaves the pen when it starts at `current`. */
  function Step(command: Command, current: Point): Point
  {
    match command
    case MoveTo(x, y) => Point(x, y)
    case HorizontalTo(x) => Point(x, current.y)
    case VerticalTo(y) => Point(current.x, y)
  }

  /** The points the pen visits, one per command, starting from `current`. */
  function Trace(path: seq<Command>, current: Point): (points: seq<Point>)
    ensures |points| == |path|
    ensures path != [] ==> points[0] == Step(path[0], current)
    ensures forall i :: 0 < i < |path| ==> points[i] == Step(path[i], points[i - 1])
  {
    if path == [] then [] else
      var next := Step(path[0], current);
      [next] + Trace(path[1..], next)
  }

  /** Consecutive points differ in at most one coordinate: every segment is horizontal or vertical. */
  ghost predicate Orthogonal(points: seq<Point>)
  {
    forall i :: 0 < i < |points| ==> points[i - 1].x == points[i].x || points[i - 1].y == points[i].y
  }

  /** Horizontal and vertical line-to commands never draw a diagonal segment. */
  lemma {:induction false} LinesAreOrthogonal(path: seq<Command>, current: Point)
    requires forall i :: 0 <= i < |path| ==> !path[i].MoveTo?
    ensures Orthogonal([current] + Trace(path, current))
  {
    if path != [] {
      var next := Step(path[0], current);
      LinesAreOrthogonal(path[1..], next);
      var rest := [next] + Trace(path[1..], next);
      assert [current] + Trace(path, current) == [current] + rest;
      forall i | 0 < i < |rest| + 1
        ensures ([current] + rest)[i - 1].x == ([current] + rest)[i].x
             || ([current] + rest)[i - 1].y == ([current] + rest)[i].y
      {
        if i > 1 {
          assert ([current] + rest)[i - 1] == rest[i - 2] && ([current] + rest)[i] == rest[i - 1];
        }
      }
    }
  }

  function MirrorPoint(p: Point): Point
  {
    Point(-p.x, p.y)
  }

  /** The command with its horizontal coordinate, if any, negated. */
  function MirrorCommand(command: Command): Command
  {
    match command
    case MoveTo(x, y) => MoveTo(-x, y)
    case HorizontalTo(x) => HorizontalTo(-x)
    case VerticalTo(y) => VerticalTo(y)
  }

  /** The path with every horizontal coordinate negated. */
  function MirrorPath(path: seq<Command>): (mirrored: seq<Command>)
    ensures |mirrored| == |path|
    ensures forall i :: 0 <= i < |path| ==> mirrored[i] == MirrorCommand(path[i])
  {
    if path == [] then [] else [MirrorCommand(path[0])] + MirrorPath(path[1..])
  }

  /** Drawing a mirrored path visits the mirror images of the original's points. */
  lemma {:induction false} TraceMirror(path: seq<Command>, current: Point)
    ensures var points := Trace(path, current);
            var mirrored := Trace(MirrorPath(path), MirrorPoint(current));
            |mirrored| == |points| && forall i :: 0 <= i < |points| ==> mirrored[i] == MirrorPoint(points[i])
  {
    if path != [] {
      TraceMirror(path[1..], Step(path[0], current));
    }
  }

  // ---------------------------------------------------------------------------
  // Connector

  /**
   * `elbow`: the connector from a parent box to a child box, as a list of path
   * commands. `direction` is 1 (forward) or -1 (backward) and multiplies every
   * horizontal coordinate.
   */
  function Elbow(direction: real, boxWidth: real, source: Position, target: Position): (path: seq<Command>)
    ensures |path| == 4
    ensures path[0].MoveTo? && path[1].HorizontalTo? && path[2].VerticalTo? && path[3].HorizontalTo?
  {
    var sourceX := source.x;
    var sourceY := source.y + boxWidth / 2.0;
    var targetX := target.x;
    var targetY := target.y - boxWidth / 2.0;
    [ MoveTo(direction * sourceY, sourceX),
      HorizontalTo(direction * (sourceY + (targetY - sourceY) / 2.0)),
      VerticalTo(targetX),
      HorizontalTo(direction * targetY) ]
  }

  /**
   * The connector is three axis-parallel segments: it starts at the outer edge of
   * the source box, runs horizontally to the midway line, vertically to the
   * target's level, and horizontally to the near edge of the target box.
   */
  lemma ElbowRoute(direction: real, boxWidth: real, source: Position, target: Position, pen: Point)
    ensures var points := Trace(Elbow(direction, boxWidth, source, target), pen);
            var startX := source.y + boxWidth / 2.0;
            var endX := target.y - boxWidth / 2.0;
            && |points| == 4
            && Orthogonal(points)
            && points[0] == Point(direction * startX, source.x)
            && points[3] == Point(direction * endX, target.x)
            && points[1] == Point(direction * ((startX + endX) / 2.0), source.x)
            && points[2] == Point(direction * ((startX + endX) / 2.0), target.x)
  {
    var path := Elbow(direction, boxWidth, source, target);
    LinesAreOrthogonal(path[1..], Step(path[0], pen));
    assert Trace(path, pen) == [Step(path[0], pen)] + Trace(path[1..], Step(path[0], pen));
  }

  /** Switching the direction negates every horizontal coordinate of the connector and keeps the vertical ones. */
  lemma ElbowMirror(direction: real, boxWidth: real, source: Position, target: Position, pen: Point)
    ensures Elbow(-direction, boxWidth, source, target) == MirrorPath(Elbow(direction, boxWidth, source, target))
    ensures var forward := Trace(Elbow(direction, boxWidth, source, target), pen);
            var backward := Trace(Elbow(-direction, boxWidth, source, target), MirrorPoint(pen));
            forall i :: 0 <= i < 4 ==> backward[i].x == -forward[i].x && backward[i].y == forward[i].y
  {
    var path := Elbow(direction, boxWidth, source, target);
    var back := Elbow(-direction, boxWidth, source, target);
    forall i | 0 <= i < 4 ensures back[i] == MirrorCommand(path[i]) {
      var sourceY := source.y + boxWidth / 2.0;
      var targetY := target.y - boxWidth / 2.0;
      assert -direction * sourceY == -(direction * sourceY);
      assert -direction * targetY == -(direction * targetY);
      assert -direction * (sourceY + (targetY - sourceY) / 2.0) == -(direction * (sourceY + (targetY - sourceY) / 2.0));
    }
    TraceMirror(path, pen);
  }

  // ---------------------------------------------------------------------------
  // Boxes and the spacing of generations

  /** The `rect` of a person, relative to its node: `boxWidth` by `boxHeight`, centred on the node. */
  function PersonBox(boxWidth: real, boxHeight: real): (box: Rect)
    ensures box.width == boxWidth && box.height == boxHeight
    ensures box.x + box.width / 2.0 == 0.0 && box.y + box.height / 2.0 == 0.0
  {
    Rect(-(boxWidth / 2.0), -(boxHeight / 2.0), boxWidth, boxHeight)
  }

  /** The person box in user space: the node's group is translated to `(node.y, node.x)`. */
  function NodeBox(boxWidth: real, boxHeight: real, node: Position): (box: Rect)
    ensures box.x + box.width / 2.0 == node.y && box.y + box.height / 2.0 == node.x
  {
    var relative := PersonBox(boxWidth, boxHeight);
    Rect(relative.x + node.y, relative.y + node.x, relative.width, relative.height)
  }

  ghost predicate OnRightEdge(p: Point, box: Rect)
  {
    p.x == box.x + box.width && box.y <= p.y <= box.y + box.height
  }

  ghost predicate OnLeftEdge(p: Point, box: Rect)
  {
    p.x == box.x && box.y <= p.y <= box.y + box.height
  }

  /** Drawn forwards, the connector leaves the source box at its right edge and enters the target box at its left edge. */
  lemma ForwardElbowJoinsBoxes(boxWidth: real, boxHeight: real, source: Position, target: Position, pen: Point)
    requires boxHeight >= 0.0
    ensures var points := Trace(Elbow(1.0, boxWidth, source, target), pen);
            && OnRightEdge(points[0], NodeBox(boxWidth, boxHeight, source))
            && OnLeftEdge(points[3], NodeBox(boxWidth, boxHeight, target))
  {
    ElbowRoute(1.0, boxWidth, source, target, pen);
  }

  /**
   * Drawn backwards, the connector is mirrored but the boxes are not (their
   * translation does not use `direction`): a target further out than half a box
   * width is left of where the connector ends, so the two do not meet.
   */
  lemma BackwardElbowMissesTargetBox(boxWidth: real, boxHeight: real, source: Position, target: Position, pen: Point)
    requires target.y > boxWidth / 2.0
    ensures var points := Trace(Elbow(-1.0, boxWidth, source, target), pen);
            points[3].x < NodeBox(boxWidth, boxHeight, target).x
  {
    ElbowRoute(-1.0, boxWidth, source, target, pen);
  }

  /** The fixed-depth normalisation of `draw`: generation `depth` sits at `depth * 300`. */
  function NormalizedY(depth: nat): (y: real)
    ensures y >= 0.0 && (depth > 0 ==> y - NormalizedY(depth - 1) == 300.0)
  {
    depth as real * 300.0
  }

  /**
   * With the constants of `Tree` and normalised depths, a forward connector from
   * a node to its child crosses the 50-unit gap between the two boxes and turns
   * in its middle.
   */
  lemma NormalizedElbowCrossesGap(depth: nat, sourceX: real, targetX: real, pen: Point)
    ensures var points := Trace(Elbow(1.0, 250.0, Position(sourceX, NormalizedY(depth)),
                                      Position(targetX, NormalizedY(depth + 1))), pen);
            var left := NormalizedY(depth) + 125.0;
            && points[0].x == left
            && points[1].x == points[2].x == left + 25.0
            && points[3].x == left + 50.0
  {
    ElbowRoute(1.0, 250.0, Position(sourceX, NormalizedY(depth)), Position(targetX, NormalizedY(depth + 1)), pen);
  }

  /**
   * A connector drawn forwards from a node at `depth` to its child: it leaves the
   * parent's box 125 past the parent's normalised coordinate, turns at 150 and
   * enters the child's box at 175.
   */
  ghost predicate CrossesGap(path: seq<Command>, depth: nat)
  {
    var points := Trace(path, Point(0.0, 0.0));
    var left := NormalizedY(depth) + 125.0;
    && |points| == 4
    && points[0].x == left
    && points[1].x == points[2].x == left + 25.0
    && points[3].x == left + 50.0
  }

  // ---------------------------------------------------------------------------
  // Names

  /** `split(" ")`: the pieces between single spaces, empty pieces included; never an empty list. */
  function Split(s: string): (tokens: seq<string>)
    ensures |tokens| >= 1
    ensures forall i :: 0 <= i < |tokens| ==> ' ' !in tokens[i]
  {
    if s == [] then [""]
    else if s[0] == ' ' then [""] + Split(s[1..])
    else
      var rest := Split(s[1..]);
      [[s[0]] + rest[0]] + rest[1..]
  }

  /** `join(" ")`. */
  function Join(tokens: seq<string>): (joined: string)
    ensures |tokens| == 1 ==> joined == tokens[0]
    ensures tokens != [] ==> |joined| >= |tokens[0]| && joined[..|tokens[0]|] == tokens[0]
    ensures |tokens| > 1 ==> |joined| > |tokens[0]| && joined[|tokens[0]|] == ' '
  {
    if tokens == [] then ""
    else if |tokens| == 1 then tokens[0]
    else tokens[0] + " " + Join(tokens[1..])
  }

  /** Joining the pieces of a split gives back the string. */
  lemma {:induction false} JoinSplit(s: string)
    ensures Join(Split(s)) == s
  {
    if s != [] {
      var rest := Split(s[1..]);
      JoinSplit(s[1..]);
      if s[0] == ' ' {
        assert Split(s) == [""] + rest;
        assert Join(Split(s)) == "" + " " + Join(rest);
        assert s == [s[0]] + s[1..];
      } else {
        assert Split(s) == [[s[0]] + rest[0]] + rest[1..];
        if |rest| == 1 {
          assert Join(rest) == rest[0];
        } else {
          assert Join(rest) == rest[0] + " " + Join(rest[1..]);
          assert Join(Split(s)) == ([s[0]] + rest[0]) + " " + Join(rest[1..]);
        }
        assert s == [s[0]] + s[1..];
      }
    }
  }

  /** Splitting a string that starts with a space-free piece `t` puts `t` in front of the first piece. */
  lemma {:induction false} SplitPrefix(t: string, u: string)
    requires ' ' !in t
    ensures var tail := Split(u); Split(t + u) == [t + tail[0]] + tail[1..]
  {
    if t != [] {
      SplitPrefix(t[1..], u);
      assert (t + u)[1..] == t[1..] + u;
      assert (t + u)[0] == t[0];
      assert [t[0]] + (t[1..] + Split(u)[0]) == t + Split(u)[0];
    } else {
      assert t + u == u;
      assert t + Split(u)[0] == Split(u)[0];
    }
  }

  /** Splitting the join of space-free pieces gives the pieces back. */
  lemma {:induction false} SplitJoin(tokens: seq<string>)
    requires |tokens| >= 1
    requires forall i :: 0 <= i < |tokens| ==> ' ' !in tokens[i]
    ensures Split(Join(tokens)) == tokens
  {
    if |tokens| == 1 {
      SplitPrefix(tokens[0], "");
      assert tokens[0] + "" == tokens[0];
    } else {
      var rest := Join(tokens[1..]);
      SplitJoin(tokens[1..]);
      assert Split(" " + rest) == [""] + Split(rest) by {
        assert (" " + rest)[1..] == rest;
      }
      SplitPrefix(tokens[0], " " + rest);
      assert tokens[0] + " " + rest == tokens[0] + (" " + rest);
      assert tokens[0] + "" == tokens[0];
      assert [tokens[0]] + tokens[1..] == tokens;
    }
  }

  /** The first piece cut to its first character followed by a full stop. */
  function Abbreviate(token: string): string
  {
    (if token == [] then "" else token[..1]) + "."
  }

  /**
   * `getName`: the name with its first space-separated piece abbreviated to an
   * initial. The result has as many pieces as the name, the same pieces after the
   * first, and as first piece the first character and a full stop (only the full
   * stop when the name starts with a space or is empty).
   */
  function GetName(name: string): (abbreviated: string)
    ensures var before := Split(name);
            var after := Split(abbreviated);
            && |after| == |before|
            && after[1..] == before[1..]
            && after[0] == if before[0] == "" then "." else [before[0][0], '.']
  {
    var splitted := Split(name);
    var updated := splitted[0 := Abbreviate(splitted[0])];
    assert ' ' !in Abbreviate(splitted[0]);
    SplitJoin(updated);
    Join(updated)
  }

  // ---------------------------------------------------------------------------
  // The tree object

  /** A node of the laid-out hierarchy: the layout's coordinates, the depth, and the person's name. */
  class LayoutNode {
    var x: real
    var y: real
    const depth: nat
    const name: string

    constructor (x: real, y: real, depth: nat, name: string)
      ensures this.x == x && this.y == y && this.depth == depth && this.name == name
    {
      this.x := x;
      this.y := y;
      this.depth := depth;
      this.name := name;
    }

    function Location(): Position
      reads this
    {
      Position(x, y)
    }
  }

  /** A parent-to-child edge of the laid-out hierarchy. */
  datatype Link = Link(source: LayoutNode, target: LayoutNode)

  /** What `draw` puts on the page: one connector per link, one box and one name per node. */
  datatype Drawing = Drawing(paths: seq<seq<Command>>, boxes: seq<Rect>, names: seq<string>)

  /**
   * The tree drawer. The layout (`nodes` and `links`) is computed by a charting
   * library that is not part of this model and is passed to the constructor.
   */
  class Tree {
    const boxWidth: real := 250.0
    const boxHeight: real := 80.0
    const nodeWidth: real := 200.0
    const nodeHeight: real := 0.0
    const separation: real := 0.5
    const direction: real
    const root: LayoutNode?
    const nodes: seq<LayoutNode>
    const links: seq<Link>

    constructor (direction: real, root: LayoutNode?, nodes: seq<LayoutNode>, links: seq<Link>)
      ensures boxWidth == 250.0 && boxHeight == 80.0
      ensures nodeWidth == 200.0 && nodeHeight == 0.0 && separation == 0.5
      ensures this.direction == direction && this.root == root && this.nodes == nodes && this.links == links
    {
      this.direction := direction;
      this.root := root;
      this.nodes := nodes;
      this.links := links;
    }

    /**
     * What the layout guarantees about its links: both ends are among the laid-out
     * nodes and the target is one generation further out than the source.
     */
    ghost predicate LinksJoinGenerations()
    {
      forall l :: l in links ==>
        l.source in nodes && l.target in nodes && l.target.depth == l.source.depth + 1
    }

    /** The connector drawn for a link, from the current positions of its two nodes. */
    function LinkPath(link: Link): seq<Command>
      reads link.source, link.target
    {
      Elbow(direction, boxWidth, link.source.Location(), link.target.Location())
    }

    /** The person box drawn for a node, from its current position. */
    function Box(node: LayoutNode): Rect
      reads node
    {
      NodeBox(boxWidth, boxHeight, node.Location())
    }

    /**
     * `draw`: fails with "Missing root" when there is no root; otherwise places
     * every node at the fixed depth spacing, keeping its other coordinate, and then
     * draws the connectors and the boxes from the new positions.
     */
    method Draw() returns (drawing: Result<Drawing, string>)
      modifies nodes
      ensures forall n :: n in nodes ==> n.x == old(n.x)
      ensures root == null ==> drawing == Failure("Missing root") && forall n :: n in nodes ==> n.y == old(n.y)
      ensures root != null ==> drawing.Success? && forall n :: n in nodes ==> n.y == NormalizedY(n.depth)
      ensures drawing.Success? ==>
                && |drawing.value.paths| == |links|
                && (forall i :: 0 <= i < |links| ==> drawing.value.paths[i] == LinkPath(links[i]))
                && |drawing.value.boxes| == |nodes| == |drawing.value.names|
                && (forall i :: 0 <= i < |nodes| ==> drawing.value.boxes[i] == Box(nodes[i]))
                && (forall i :: 0 <= i < |nodes| ==> drawing.value.names[i] == GetName(nodes[i].name))
      ensures drawing.Success? && direction == 1.0 && LinksJoinGenerations() ==>
                forall i :: 0 <= i < |links| ==> CrossesGap(drawing.value.paths[i], links[i].source.depth)
    {
      if root == null {
        return Failure("Missing root");
      }
      var i := 0;
      while i < |nodes|
        invariant 0 <= i <= |nodes|
        invariant forall j :: 0 <= j < i ==> nodes[j].y == NormalizedY(nodes[j].depth)
        invariant forall n :: n in nodes ==> n.x == old(n.x)
      {
        nodes[i].y := NormalizedY(nodes[i].depth);
        i := i + 1;
      }
      var paths := seq(|links|, k requires 0 <= k < |links| reads (set l | l in links :: l.source) + (set l | l in links :: l.target) => LinkPath(links[k]));
      var boxes := seq(|nodes|, k requires 0 <= k < |nodes| reads nodes => Box(nodes[k]));
      var names := seq(|nodes|, k requires 0 <= k < |nodes| => GetName(nodes[k].name));
      forall i | 0 <= i < |links| && direction == 1.0 && LinksJoinGenerations()
        ensures CrossesGap(paths[i], links[i].source.depth)
      {
        var link := links[i];
        assert link in links;
        NormalizedElbowCrossesGap(link.source.depth, link.source.x, link.target.x, Point(0.0, 0.0));
      }
      drawing := Success(Drawing(paths, boxes, names));
    }
  }
}
