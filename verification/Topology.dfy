/**
 Compiled logical workspaces: displays placed on a plane and explicit edge links.
 Coordinates are mathematical reals.
 */
module Topology {
  import opened Base

  datatype Edge = Left | Right | Top | Bottom {
    function Opposite(): Edge {
      match this
      case Left => Right
      case Right => Left
      case Top => Bottom
      case Bottom => Top
    }
  }

  const EDGES: seq<Edge> := [Left, Right, Top, Bottom]

  datatype Rect = Rect(x: real, y: real, width: real, height: real)

  datatype Display = Display(host: HostId, width: real, height: real, bounds: Rect)

  datatype LinkTarget = LinkTarget(display: DisplayId, edge: Edge)

  datatype WorkspaceData = WorkspaceData(
    epoch: U64,
    protocolEpoch: U64,
    displays: map<DisplayId, Display>,
    links: map<(DisplayId, Edge), LinkTarget>)

  /** What the workspace compiler guarantees of every display it admits. */
  predicate Compiled(w: WorkspaceData) {
    forall d | d in w.displays ::
      w.displays[d].host != NIL && w.displays[d].width > 0.0 && w.displays[d].height > 0.0
  }

  type Workspace = w: WorkspaceData | Compiled(w)
    witness WorkspaceData(0, 0, map[], map[])

  datatype Pointer = Pointer(display: DisplayId, x: real, y: real)

  datatype Transition = Transition(
    sourceDisplay: DisplayId,
    sourceHost: HostId,
    sourceEdge: Edge,
    destDisplay: DisplayId,
    destHost: HostId,
    destEdge: Edge,
    position: real,
    pointer: Pointer)

  function OwnerOf(w: Workspace, d: DisplayId): Option<HostId> {
    if d in w.displays then Some(w.displays[d].host) else None
  }

  predicate Contains(w: Workspace, p: Pointer) {
    && p.display in w.displays
    && 0.0 <= p.x <= w.displays[p.display].width
    && 0.0 <= p.y <= w.displays[p.display].height
  }

  const GEOMETRY_EPSILON: real := 0.000000001

  predicate Close(a: real, b: real) {
    -GEOMETRY_EPSILON <= a - b <= GEOMETRY_EPSILON
  }

  predicate Touches(source: Rect, candidate: Rect, edge: Edge) {
    match edge
    case Left => Close(candidate.x + candidate.width, source.x)
    case Right => Close(candidate.x, source.x + source.width)
    case Top => Close(candidate.y + candidate.height, source.y)
    case Bottom => Close(candidate.y, source.y + source.height)
  }

  function Crossing(bounds: Rect, edge: Edge, position: real): real {
    if edge == Left || edge == Right
    then bounds.y + position * bounds.height
    else bounds.x + position * bounds.width
  }

  predicate Covers(bounds: Rect, edge: Edge, coordinate: real, terminal: bool) {
    var vertical := edge == Left || edge == Right;
    var start := if vertical then bounds.y else bounds.x;
    var end := if vertical then bounds.y + bounds.height else bounds.x + bounds.width;
    && start - GEOMETRY_EPSILON <= coordinate
    && (coordinate < end - GEOMETRY_EPSILON || (terminal && Close(coordinate, end)))
  }

  function Scale(position: real, extent: real): (r: real)
    requires 0.0 <= position <= 1.0 && extent > 0.0
    ensures 0.0 <= r <= extent
  {
    assert 0.0 <= (1.0 - position) * extent == extent - position * extent;
    position * extent
  }

  predicate Vertical(edge: Edge) {
    edge == Left || edge == Right
  }

  /** The point lies on the edge and divides it in the given proportion. */
  predicate LiesAlong(d: Display, edge: Edge, position: real, p: Pointer) {
    if Vertical(edge) then p.x == (if edge == Left then 0.0 else d.width) && p.y == position * d.height
    else p.y == (if edge == Top then 0.0 else d.height) && p.x == position * d.width
  }

  /** Where a crossing lands: on the entered edge, at the same normalized position. */
  function Landing(display: DisplayId, d: Display, edge: Edge, position: real): (p: Pointer)
    requires 0.0 <= position <= 1.0 && d.width > 0.0 && d.height > 0.0
    ensures p.display == display && 0.0 <= p.x <= d.width && 0.0 <= p.y <= d.height
    ensures LiesAlong(d, edge, position, p)
  {
    match edge
    case Left => Pointer(display, 0.0, Scale(position, d.height))
    case Right => Pointer(display, d.width, Scale(position, d.height))
    case Top => Pointer(display, Scale(position, d.width), 0.0)
    case Bottom => Pointer(display, Scale(position, d.width), d.height)
  }

  /** A transition of `w`: both hosts own their displays and the pointer lands inside. */
  predicate Sound(w: Workspace, t: Transition) {
    && OwnerOf(w, t.sourceDisplay) == Some(t.sourceHost)
    && OwnerOf(w, t.destDisplay) == Some(t.destHost)
    && t.destEdge == t.sourceEdge.Opposite()
    && t.pointer.display == t.destDisplay
    && Contains(w, t.pointer)
  }

  /**
   Resolves an explicit configured link at a normalized edge position. The result echoes
   the crossing it was asked for.
   */
  function Resolve(w: Workspace, source: DisplayId, edge: Edge, position: real): (r: Option<Transition>)
    ensures r.Some? ==>
              && r.value.sourceDisplay == source
              && r.value.sourceEdge == edge
              && r.value.position == position
              && Sound(w, r.value)
  {
    if !(0.0 <= position <= 1.0) || source !in w.displays || (source, edge) !in w.links then
      None
    else
      var target := w.links[(source, edge)];
      if target.display !in w.displays then
        None
      else
        var from, to := w.displays[source], w.displays[target.display];
        if target.edge != edge.Opposite()
           || !Touches(from.bounds, to.bounds, edge)
           || !Covers(to.bounds, edge, Crossing(from.bounds, edge, position), Close(position, 1.0))
        then
          None
        else
          Some(Transition(source, from.host, edge, target.display, to.host, target.edge, position,
                          Landing(target.display, to, target.edge, position)))
  }

  // ---------------------------------------------------------------- what a crossing is in the plane

  /** Where a rectangle's edge lies, across its own direction. */
  function Line(b: Rect, edge: Edge): real {
    match edge
    case Left => b.x
    case Right => b.x + b.width
    case Top => b.y
    case Bottom => b.y + b.height
  }

  /** The edge from its beginning to its end, along its own direction. */
  function Span(b: Rect, edge: Edge): (real, real) {
    if Vertical(edge) then (Line(b, Top), Line(b, Bottom)) else (Line(b, Left), Line(b, Right))
  }

  /** The point dividing an edge in a proportion, as distance along it. */
  function Along(span: (real, real), position: real): real {
    (1.0 - position) * span.0 + position * span.1
  }

  /** A crossing is configured exactly where a link leads from the edge to the facing edge of another placed display,
      the two edges lie on one line, and the point of crossing lies on the other edge, its end belonging to it only for
      a crossing at the very end; tolerances are a billionth. The crossing names the link's display and both hosts. */
  lemma {:induction false} ResolvesExactly(w: Workspace, source: DisplayId, edge: Edge, position: real)
    ensures var r := Resolve(w, source, edge, position);
            && (r.Some? <==>
                  && 0.0 <= position <= 1.0 && source in w.displays && (source, edge) in w.links
                  && var target := w.links[(source, edge)];
                     && target.display in w.displays && target.edge == edge.Opposite()
                     && var (from, to) := (w.displays[source].bounds, w.displays[target.display].bounds);
                        var at := Along(Span(from, edge), position);
                        && -0.000000001 <= Line(from, edge) - Line(to, target.edge) <= 0.000000001
                        && Span(to, target.edge).0 - 0.000000001 <= at
                        && (|| at < Span(to, target.edge).1 - 0.000000001
                            || (position >= 0.999999999 && at <= Span(to, target.edge).1 + 0.000000001)))
            && (r.Some? ==>
                  && r.value.destDisplay == w.links[(source, edge)].display
                  && LiesAlong(w.displays[r.value.destDisplay], edge.Opposite(), position, r.value.pointer))
  {
    hide Along, Landing;
    if source in w.displays {
      var b := w.displays[source].bounds;
      AlongIsCrossing(b.y, b.height, position);
      AlongIsCrossing(b.x, b.width, position);
      assert Along(Span(b, edge), position) == Crossing(b, edge, position);
    }
  }

  lemma {:induction false} AlongIsCrossing(start: real, extent: real, position: real)
    ensures Along((start, start + extent), position) == start + position * extent
  {
    assert (1.0 - position) * start == start - position * start;
    assert position * (start + extent) == position * start + position * extent;
  }
}
