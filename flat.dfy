/** The flat side view of cylinders.py: `render_flat`, which draws every
    frustum segment of an object as a trapezoid, stacking them by a running
    vertical offset, and `render_revolve`, which delegates to it when the
    angle is zero and otherwise returns nothing. */
module Flat {
  import opened Shading

  /** One geometry tuple: (start radius, end radius, height, material name). */
  datatype Segment = Segment(r1: real, r2: real, h: real, material: string)

  datatype Point = Point(x: real, y: real)

  /** A `path` element: the corners of its outline in drawing order (move to
      the first, lines to the rest), the gradient id it is filled with, and
      the horizontal translation of its `transform`. */
  datatype Path = Path(corners: seq<Point>, fill: string, dx: real)

  /** Rendered markup: the `defs` gradients followed by the paths. */
  datatype Markup = Markup(defs: seq<Gradient>, paths: seq<Path>)

  /** What a renderer returns: (markup, total height, width). */
  datatype Rendered = Rendered(markup: Markup, height: real, width: real)

  /** Python's `None` or a value. */
  datatype Option<T> = None | Some(value: T)

  /** `max(r1, r2)` of one segment. */
  function Outer(s: Segment): (m: real)
    ensures s.r1 <= m && s.r2 <= m
    ensures m == s.r1 || m == s.r2
  {
    if s.r1 < s.r2 then s.r2 else s.r1
  }

  /** The largest `max(r1, r2)` among the first n segments, scanned in
      storage order as Python's `max` does. */
  function Widest(g: seq<Segment>, n: nat): (m: real)
    requires 0 < n <= |g|
    ensures forall i :: 0 <= i < n ==> Outer(g[i]) <= m
  {
    if n == 1 then Outer(g[0])
    else
      var sofar := Widest(g, n - 1);
      if sofar < Outer(g[n - 1]) then Outer(g[n - 1]) else sofar
  }

  /** The maximum is the outer radius of one of the segments it ranges over. */
  lemma {:induction false} WidestAttained(g: seq<Segment>, n: nat) returns (w: nat)
    requires 0 < n <= |g|
    ensures w < n && Outer(g[w]) == Widest(g, n)
  {
    if n == 1 {
      w := 0;
    } else if Widest(g, n - 1) < Outer(g[n - 1]) {
      w := n - 1;
    } else {
      w := WidestAttained(g, n - 1);
    }
  }

  /** `max(max(r1, r2) for r1, r2, _, _ in geometry)`: the largest radius of
      the object. Python's `max` raises on an empty sequence, hence the
      precondition. */
  function MaxRadius(g: seq<Segment>): real
    requires |g| > 0
  {
    Widest(g, |g|)
  }

  /** The summed height of the first n segments: the running offset
      `v_offset` once they are drawn. */
  function Rise(g: seq<Segment>, n: nat): real
    requires n <= |g|
  {
    if n == 0 then 0.0 else Rise(g, n - 1) + g[n - 1].h
  }

  /** The trapezoid of one segment whose running offset is v: from y = v - 0.5
      (half a unit of overlap with the segment before) to y = v + h, corners
      at x = +-r1 and x = +-r2, translated right by dx. */
  function SegmentPath(s: Segment, v: real, dx: real, key: string): (p: Path)
    ensures |p.corners| == 5 && p.corners[0] == p.corners[4]
    ensures p.corners[0].y == p.corners[1].y == v - 0.5
    ensures p.corners[2].y == p.corners[3].y == v + s.h
    ensures p.corners[1].x == -p.corners[0].x && p.corners[2].x == -p.corners[3].x
    ensures p.corners[0].x == s.r1 && p.corners[3].x == s.r2
    ensures p.fill == s.material + key && p.dx == dx
    ensures 0.0 <= s.r1 && 0.0 <= s.r2 ==>
      forall k :: 0 <= k < 5 ==> -Outer(s) <= p.corners[k].x <= Outer(s)
    ensures 0.0 <= s.h ==> forall k :: 0 <= k < 5 ==> v - 0.5 <= p.corners[k].y <= v + s.h
  {
    var y1, y2 := v - 0.5, v + s.h;
    Path([Point(s.r1, y1), Point(-s.r1, y1), Point(-s.r2, y2), Point(s.r2, y2), Point(s.r1, y1)],
         s.material + key, dx)
  }

  /** Path i of `render_flat(materials, geometry)`: segment i's trapezoid at
      the summed height of the segments before it, shifted right by the
      largest radius. */
  function PathAt(g: seq<Segment>, i: nat, key: string): (p: Path)
    requires i < |g|
    ensures |p.corners| == 5
  {
    SegmentPath(g[i], Rise(g, i), MaxRadius(g), key)
  }

  /** The whole result of `render_flat(materials, geometry)` with namespace
      key `key`: the gradients, then one path per segment in storage order;
      the total height and twice the largest radius. */
  function FlatRender(materials: seq<Entry>, g: seq<Segment>, key: string): Rendered
    requires |g| > 0
  {
    Rendered(
      Markup(RenderMaterials(materials, key), seq(|g|, i requires 0 <= i < |g| => PathAt(g, i, key))),
      Rise(g, |g|), 2.0 * MaxRadius(g))
  }

  /** `render_flat`: walks the geometry in storage order, appending one path
      per segment and advancing the running offset by the segment's height. */
  method RenderFlat(materials: seq<Entry>, geometry: seq<Segment>, key: string) returns (r: Rendered)
    requires |geometry| > 0
    ensures r == FlatRender(materials, geometry, key)
  {
    var vOffset := 0.0;
    var hOffset := MaxRadius(geometry);
    var defs := RenderMaterials(materials, key);
    var paths: seq<Path> := [];
    var i := 0;
    while i < |geometry|
      invariant 0 <= i <= |geometry|
      invariant vOffset == Rise(geometry, i)
      invariant |paths| == i
      invariant forall j {:trigger paths[j]} :: 0 <= j < i ==> paths[j] == PathAt(geometry, j, key)
    {
      var s := geometry[i];
      paths := paths + [SegmentPath(s, vOffset, hOffset, key)];
      vOffset := vOffset + s.h;
      i := i + 1;
    }
    ghost var spec := FlatRender(materials, geometry, key);
    assert spec.markup.paths == paths;
    r := Rendered(Markup(defs, paths), vOffset, 2.0 * hOffset);
  }

  /** `render_revolve(materials, geometry, angle)`: exactly the flat
      rendering when the angle is zero, `None` for any other angle (the
      geometry is then never inspected, so it may be empty). */
  method RenderRevolve(materials: seq<Entry>, geometry: seq<Segment>, angle: real, key: string)
    returns (r: Option<Rendered>)
    requires angle == 0.0 ==> |geometry| > 0
    ensures angle == 0.0 ==> r == Some(FlatRender(materials, geometry, key))
    ensures angle != 0.0 ==> r == None
  {
    if angle == 0.0 {
      var flat := RenderFlat(materials, geometry, key);
      return Some(flat);
    }
    return None;
  }

  /** With non-negative heights the running offset never decreases. */
  lemma {:induction false} RiseMonotone(g: seq<Segment>, i: nat, j: nat)
    requires i <= j <= |g|
    requires forall k :: 0 <= k < |g| ==> 0.0 <= g[k].h
    ensures 0.0 <= Rise(g, i) <= Rise(g, j)
    decreases j, i
  {
    if j == 0 {
    } else if i == j {
      RiseMonotone(g, 0, i);
    } else {
      RiseMonotone(g, i, j - 1);
    }
  }

  /** Placement: path i is segment i's trapezoid in storage order, filled
      with `material + key`; it spans y from (sum of the heights before it)
      - 0.5 to that sum plus its own height, so each path overlaps the one
      before by half a unit, the first starts at -0.5 and the last ends at
      the total height. */
  lemma FlatStacking(materials: seq<Entry>, g: seq<Segment>, key: string)
    requires |g| > 0
    ensures var r := FlatRender(materials, g, key);
      && |r.markup.paths| == |g|
      && (forall i :: 0 <= i < |g| ==>
            && r.markup.paths[i].fill == g[i].material + key
            && r.markup.paths[i].corners[0].x == g[i].r1
            && r.markup.paths[i].corners[3].x == g[i].r2
            && r.markup.paths[i].corners[0].y == Rise(g, i) - 0.5
            && r.markup.paths[i].corners[2].y == Rise(g, i) + g[i].h)
      && (forall i, j {:trigger r.markup.paths[i], r.markup.paths[j]} :: 0 <= i && j == i + 1 && j < |g| ==>
            r.markup.paths[j].corners[0].y == r.markup.paths[i].corners[2].y - 0.5)
      && r.markup.paths[0].corners[0].y == -0.5
      && r.markup.paths[|g| - 1].corners[2].y == r.height
  {
    var r := FlatRender(materials, g, key);
    forall i, j | 0 <= i && j == i + 1 && j < |g|
      ensures r.markup.paths[j].corners[0].y == r.markup.paths[i].corners[2].y - 0.5
    {
      assert r.markup.paths[i] == PathAt(g, i, key);
      assert r.markup.paths[j] == PathAt(g, j, key);
    }
  }

  /** The width is twice the largest radius, every corner (after the
      translation) lies in [0, width], and the widest segment touches both
      edges. */
  lemma FlatWidth(materials: seq<Entry>, g: seq<Segment>, key: string)
    requires |g| > 0
    requires forall i :: 0 <= i < |g| ==> 0.0 <= g[i].r1 && 0.0 <= g[i].r2
    ensures var r := FlatRender(materials, g, key);
      && 0.0 <= r.width
      && (forall i :: 0 <= i < |g| ==> Outer(g[i]) * 2.0 <= r.width)
      && (forall i, k :: 0 <= i < |g| && 0 <= k < 5 ==>
            0.0 <= r.markup.paths[i].corners[k].x + r.markup.paths[i].dx <= r.width)
      && (exists i :: 0 <= i < |g| && Outer(g[i]) * 2.0 == r.width)
  {
    var r := FlatRender(materials, g, key);
    assert 0.0 <= Outer(g[0]) <= MaxRadius(g);
    forall i, k | 0 <= i < |g| && 0 <= k < 5
      ensures 0.0 <= r.markup.paths[i].corners[k].x + r.markup.paths[i].dx <= r.width
    {
      assert r.markup.paths[i] == PathAt(g, i, key);
    }
    var w := WidestAttained(g, |g|);
    assert Outer(g[w]) * 2.0 == r.width;
  }

  /** With non-negative heights the total height is non-negative and every
      corner lies between y = -0.5 and the total height. */
  lemma FlatHeight(materials: seq<Entry>, g: seq<Segment>, key: string)
    requires |g| > 0
    requires forall i :: 0 <= i < |g| ==> 0.0 <= g[i].h
    ensures var r := FlatRender(materials, g, key);
      && 0.0 <= r.height
      && forall i, k :: 0 <= i < |g| && 0 <= k < 5 ==>
           -0.5 <= r.markup.paths[i].corners[k].y <= r.height
  {
    var r := FlatRender(materials, g, key);
    RiseMonotone(g, 0, |g|);
    forall i, k | 0 <= i < |g| && 0 <= k < 5
      ensures -0.5 <= r.markup.paths[i].corners[k].y <= r.height
    {
      assert r.markup.paths[i] == PathAt(g, i, key);
      RiseMonotone(g, i, i + 1);
      RiseMonotone(g, i + 1, |g|);
    }
  }

  /** Every corner a rendering draws, after its path's translation, lies in
      [0, width] across and in [-0.5, height] down: the reported box plus the
      half unit by which the first path reaches above it. */
  predicate DrawnWithin(r: Rendered)
  {
    forall p, k :: 0 <= p < |r.markup.paths| && 0 <= k < |r.markup.paths[p].corners| ==>
      && 0.0 <= r.markup.paths[p].corners[k].x + r.markup.paths[p].dx <= r.width
      && -0.5 <= r.markup.paths[p].corners[k].y <= r.height
  }

  /** The drawing of an object with non-negative radii and heights stays
      within its reported box, except that its first path starts half a unit
      above it, at y = -0.5. */
  lemma FlatDrawn(materials: seq<Entry>, g: seq<Segment>, key: string)
    requires |g| > 0
    requires forall i :: 0 <= i < |g| ==> 0.0 <= g[i].r1 && 0.0 <= g[i].r2 && 0.0 <= g[i].h
    ensures var r := FlatRender(materials, g, key);
      && DrawnWithin(r) && 0.0 <= r.width && 0.0 <= r.height
      && |r.markup.paths| > 0 && |r.markup.paths[0].corners| > 0
      && r.markup.paths[0].corners[0].y == -0.5
  {
    var r := FlatRender(materials, g, key);
    FlatWidth(materials, g, key);
    FlatHeight(materials, g, key);
    FlatStacking(materials, g, key);
    forall p | 0 <= p < |r.markup.paths|
      ensures |r.markup.paths[p].corners| == 5
    {
      assert r.markup.paths[p] == PathAt(g, p, key);
    }
  }

  /** Every fill a path references is a gradient the same rendering defines,
      provided each segment names one of the object's materials: the paths
      and the gradients share one key. */
  lemma FlatFillsDefined(materials: seq<Entry>, g: seq<Segment>, key: string)
    requires |g| > 0
    requires forall i :: 0 <= i < |g| ==> g[i].material in Names(materials)
    ensures var r := FlatRender(materials, g, key);
      forall i :: 0 <= i < |r.markup.paths| ==> r.markup.paths[i].fill in Ids(r.markup.defs)
  {
    var r := FlatRender(materials, g, key);
    forall i | 0 <= i < |r.markup.paths|
      ensures r.markup.paths[i].fill in Ids(r.markup.defs)
    {
      GradientDefinedIff(materials, key, g[i].material);
    }
  }
}
