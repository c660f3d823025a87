/**
  Bodies of the physics world as plain records, and the two library calls the
  layout code relies on: the bounds Bodies.rectangle and Bodies.circle give a new
  body, and Query.region, which keeps the bodies whose bounds overlap a box.
*/
module Geometry {

  type BodyId = nat

  /** The labels the game gives its bodies ('playerBall', 'ground', 'platform', ...). */
  datatype Label =
    | PlayerBall | Ground | Platform | Coin | FinishLine | Background
    | LeftLimit | RightLimit | UpperLimit

  datatype Point = Point(x: real, y: real)

  /** A body: its identity, its label (the field is `tag`, since `label` is a Dafny keyword), position and bounds. */
  datatype Body = Body(id: BodyId, tag: Label, x: real, y: real,
                       minX: real, maxX: real, minY: real, maxY: real)

  /** A query region, with closed sides. */
  datatype Box = Box(minX: real, maxX: real, minY: real, maxY: real)

  /** The body Bodies.rectangle builds: centred at (x, y), width w, height h. */
  function Rectangle(id: BodyId, tag: Label, x: real, y: real, w: real, h: real): Body
  {
    Body(id, tag, x, y, x - w / 2.0, x + w / 2.0, y - h / 2.0, y + h / 2.0)
  }

  /**
    The body Bodies.circle builds: centred at (x, y) with radius r, bounded by
    the circle itself rather than by the regular polygon Matter approximates it
    with, whose bounds can be up to about 1.3% smaller.
  */
  function Circle(id: BodyId, tag: Label, x: real, y: real, r: real): Body
  {
    Body(id, tag, x, y, x - r, x + r, y - r, y + r)
  }

  /** Bounds.overlaps: closed intervals intersect on both axes. */
  predicate Overlaps(b: Body, box: Box)
  {
    b.minX <= box.maxX && b.maxX >= box.minX && b.minY <= box.maxY && b.maxY >= box.minY
  }

  /** Query.region: the bodies whose bounds overlap the box, in world order. */
  function Region(bodies: seq<Body>, box: Box): (r: seq<Body>)
    ensures |r| <= |bodies|
  {
    if bodies == [] then []
    else (if Overlaps(bodies[0], box) then [bodies[0]] else []) + Region(bodies[1..], box)
  }

  /** A body is in the query result exactly when it is in the world and overlaps the box. */
  lemma {:induction false} RegionMember(bodies: seq<Body>, box: Box, b: Body)
    ensures b in Region(bodies, box) <==> b in bodies && Overlaps(b, box)
  {
    if bodies != [] {
      RegionMember(bodies[1..], box, b);
      assert bodies == [bodies[0]] + bodies[1..];
    }
  }

  /** A query after adding one body: the new body is found exactly when it overlaps. */
  lemma {:induction false} RegionAppend(bodies: seq<Body>, b: Body, box: Box)
    ensures Region(bodies + [b], box) == Region(bodies, box) + (if Overlaps(b, box) then [b] else [])
  {
    if bodies != [] {
      assert (bodies + [b])[1..] == bodies[1..] + [b];
      RegionAppend(bodies[1..], b, box);
    } else {
      assert [b][1..] == [];
    }
  }
}
