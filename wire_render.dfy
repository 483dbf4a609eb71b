/** What a wire frame hands to the page: the curve through its nodes
    (`generateWirePath`), the tension-dependent stroke colour and the opacity. */
module WireRender {
  import opened Basics
  import opened WirePhysics

  /** One SVG path command: `M x y`, `Q cx cy, x y` or `L x y`. */
  datatype Command = Move(to: Point) | Quad(control: Point, to: Point) | Line(to: Point)

  function Midpoint(a: Node, b: Node): Point
  {
    Point((a.x + b.x) / 2.0, (a.y + b.y) / 2.0)
  }

  /** The curve of a chain: nothing for fewer than two nodes; otherwise a move to
      node 0, one quadratic segment per inner node (controlled by that node and
      ending halfway to the next one), and a straight line to the last node. */
  ghost predicate IsWirePath(nodes: seq<Node>, path: seq<Command>)
  {
    if |nodes| < 2 then path == []
    else
      |path| == |nodes|
      && path[0] == Move(Pos(nodes[0]))
      && (forall i :: 1 <= i < |nodes| - 1 ==> path[i] == Quad(Pos(nodes[i]), Midpoint(nodes[i], nodes[i + 1])))
      && path[|nodes| - 1] == Line(Pos(nodes[|nodes| - 1]))
  }

  /** The path is determined by the nodes. */
  lemma WirePathUnique(nodes: seq<Node>, p: seq<Command>, q: seq<Command>)
    requires IsWirePath(nodes, p) && IsWirePath(nodes, q)
    ensures p == q
  {
    if |nodes| >= 2 {
      forall i | 0 <= i < |p|
        ensures p[i] == q[i]
      {
        if 1 <= i < |nodes| - 1 {
          assert p[i] == Quad(Pos(nodes[i]), Midpoint(nodes[i], nodes[i + 1])) == q[i];
        }
      }
    }
  }

  function IsQuad(c: Command): nat
  {
    if c.Quad? then 1 else 0
  }

  function QuadCount(path: seq<Command>): nat
  {
    if |path| == 0 then 0 else QuadCount(path[..|path| - 1]) + IsQuad(path[|path| - 1])
  }

  lemma {:induction false} QuadCountAllQuads(path: seq<Command>, lo: nat, hi: nat)
    requires lo <= hi <= |path|
    requires forall i :: lo <= i < hi ==> path[i].Quad?
    ensures QuadCount(path[..hi]) == QuadCount(path[..lo]) + (hi - lo)
    decreases hi - lo
  {
    if lo < hi {
      QuadCountAllQuads(path, lo, hi - 1);
      assert path[..hi][..hi - 1] == path[..hi - 1];
    }
  }

  /** A chain of n >= 2 nodes is drawn with exactly n - 2 quadratic segments. */
  lemma WirePathQuadCount(nodes: seq<Node>, path: seq<Command>)
    requires IsWirePath(nodes, path) && |nodes| >= 2
    ensures QuadCount(path) == |nodes| - 2
  {
    var n := |nodes|;
    assert path[..1] == [path[0]];
    assert QuadCount(path[..1]) == 0 by {
      assert path[..1][..0] == [];
    }
    forall i | 1 <= i < n - 1
      ensures path[i].Quad?
    {
      assert path[i] == Quad(Pos(nodes[i]), Midpoint(nodes[i], nodes[i + 1]));
    }
    QuadCountAllQuads(path, 1, n - 1);
    assert path[..n] == path;
    assert path[..n][..n - 1] == path[..n - 1];
  }

  /** `generateWirePath`, accumulating the commands in a loop. */
  method GenerateWirePath(nodes: seq<Node>) returns (path: seq<Command>)
    ensures IsWirePath(nodes, path)
  {
    if |nodes| < 2 {
      return [];
    }
    path := [Move(Pos(nodes[0]))];
    for i := 1 to |nodes| - 1
      invariant |path| == i
      invariant path[0] == Move(Pos(nodes[0]))
      invariant forall k :: 1 <= k < i ==> path[k] == Quad(Pos(nodes[k]), Midpoint(nodes[k], nodes[k + 1]))
    {
      var xc := (nodes[i].x + nodes[i + 1].x) / 2.0;
      var yc := (nodes[i].y + nodes[i + 1].y) / 2.0;
      path := path + [Quad(Point(nodes[i].x, nodes[i].y), Point(xc, yc))];
    }
    var last := nodes[|nodes| - 1];
    path := path + [Line(Point(last.x, last.y))];
  }

  // ---------------------------------------------------------------------
  // Tension and colour
  // ---------------------------------------------------------------------

  /** Tension from the distance between the two ends: 0 up to 90% of the wire
      length, rising linearly, 1 from 130% on. */
  function Tension(currentDist: real): (t: real)
    ensures 0.0 <= t <= 1.0
    ensures currentDist <= WIRE_LENGTH * 0.9 ==> t == 0.0
    ensures currentDist >= WIRE_LENGTH * 1.3 ==> t == 1.0
  {
    Max(0.0, Min(1.0, (currentDist - WIRE_LENGTH * 0.9) / (WIRE_LENGTH * 0.4)))
  }

  lemma TensionMonotone(d1: real, d2: real)
    requires d1 <= d2
    ensures Tension(d1) <= Tension(d2)
  {
    assert (d1 - WIRE_LENGTH * 0.9) / (WIRE_LENGTH * 0.4) <= (d2 - WIRE_LENGTH * 0.9) / (WIRE_LENGTH * 0.4);
  }

  /** Strictly between the two thresholds the tension grows strictly with the distance. */
  lemma TensionStrictInRange(d1: real, d2: real)
    requires WIRE_LENGTH * 0.9 <= d1 < d2 <= WIRE_LENGTH * 1.3
    ensures Tension(d1) < Tension(d2)
  {
    assert (d1 - WIRE_LENGTH * 0.9) / (WIRE_LENGTH * 0.4) < (d2 - WIRE_LENGTH * 0.9) / (WIRE_LENGTH * 0.4);
  }

  datatype Rgb = Rgb(r: int, g: int, b: int)

  /** The stroke colour: from rgb(255, 107, 53) when slack to rgb(225, 87, 38) when taut. */
  function TensionColor(tension: real): (c: Rgb)
    ensures 0.0 <= tension <= 1.0 ==> 225 <= c.r <= 255 && 87 <= c.g <= 107 && 38 <= c.b <= 53
    ensures tension == 0.0 ==> c == Rgb(255, 107, 53)
    ensures tension == 1.0 ==> c == Rgb(225, 87, 38)
  {
    Rgb(JsRound(255.0 - tension * 30.0), JsRound(107.0 - tension * 20.0), JsRound(53.0 - tension * 15.0))
  }

  /** More tension never makes a component brighter. */
  lemma TensionColorDarkens(t1: real, t2: real)
    requires t1 <= t2
    ensures TensionColor(t2).r <= TensionColor(t1).r
    ensures TensionColor(t2).g <= TensionColor(t1).g
    ensures TensionColor(t2).b <= TensionColor(t1).b
  {
    JsRoundMonotone(255.0 - t2 * 30.0, 255.0 - t1 * 30.0);
    JsRoundMonotone(107.0 - t2 * 20.0, 107.0 - t1 * 20.0);
    JsRoundMonotone(53.0 - t2 * 15.0, 53.0 - t1 * 15.0);
  }

  /** Detached wires are drawn faded. */
  function Opacity(detached: bool): (o: real)
    ensures 0.0 < o <= 1.0
    ensures o == 1.0 <==> !detached
    ensures detached ==> o == 0.3
  {
    if detached then 0.3 else 1.0
  }

  /** What one wire draws in one frame: its path, stroke, opacity and the
      position of its connection dot. */
  datatype WireFrame = WireFrame(path: seq<Command>, stroke: Rgb, opacity: real, dot: Point)

  /** The tension of a chain, from the distance between its two ends. */
  function ChainTension(nodes: seq<Node>, norm: (real, real) -> real): real
    requires |nodes| > 0
  {
    var first := nodes[0];
    var last := nodes[|nodes| - 1];
    Tension(norm(last.x - first.x, last.y - first.y))
  }

  ghost predicate RendersAs(nodes: seq<Node>, detached: bool, anchor: Point, norm: (real, real) -> real, f: WireFrame)
  {
    |nodes| > 0
    && IsWirePath(nodes, f.path)
    && f.stroke == TensionColor(ChainTension(nodes, norm))
    && f.opacity == Opacity(detached)
    && f.dot == anchor
  }

  /** The rendering tail of the per-wire step: the path, stroke and opacity of the wire. */
  method RenderWire(nodes: seq<Node>, detached: bool, anchor: Point, norm: (real, real) -> real) returns (f: WireFrame)
    requires |nodes| > 0
    ensures RendersAs(nodes, detached, anchor, norm, f)
    ensures 225 <= f.stroke.r <= 255 && 87 <= f.stroke.g <= 107 && 38 <= f.stroke.b <= 53
  {
    var firstNode := nodes[0];
    var lastNode := nodes[|nodes| - 1];
    var currentDist := norm(lastNode.x - firstNode.x, lastNode.y - firstNode.y);
    var tension := Tension(currentDist);
    var path := GenerateWirePath(nodes);
    var opacity := if detached then 0.3 else 1.0;
    var stroke := TensionColor(tension);
    f := WireFrame(path, stroke, opacity, anchor);
  }
}
