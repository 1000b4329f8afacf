/** The layout pass of cylinders.py, `render_all`: every object is rendered,
    then the renderings are placed left to right, `padding` apart, and
    bottom-aligned in a row whose height fits the tallest; each gets a text
    caption under it. */
module Layout {
  import opened Shading
  import opened Flat

  /** A catalogue entry: the object's name, its material dictionary and its
      geometry. */
  datatype Thing = Thing(name: string, materials: seq<Entry>, geometry: seq<Segment>)

  /** A `text` element: position, caption and font size. */
  datatype Label = Label(x: real, y: real, text: string, size: real)

  /** One placed object: the `g` element translating its markup to (x, y),
      followed by its caption. */
  datatype Placement = Placement(x: real, y: real, markup: Markup, caption: Label)

  /** The document: the placements in order, and its width and height. */
  datatype Document = Document(placements: seq<Placement>, width: real, height: real)

  /** The tallest of the first n renderings, scanned in order as Python's
      `max` does. */
  function Tallest(rs: seq<Rendered>, n: nat): (m: real)
    requires 0 < n <= |rs|
    ensures forall i :: 0 <= i < n ==> rs[i].height <= m
  {
    if n == 1 then rs[0].height
    else
      var sofar := Tallest(rs, n - 1);
      if sofar < rs[n - 1].height then rs[n - 1].height else sofar
  }

  /** The maximum is the height of one of the renderings it ranges over. */
  lemma {:induction false} TallestAttained(rs: seq<Rendered>, n: nat) returns (t: nat)
    requires 0 < n <= |rs|
    ensures t < n && rs[t].height == Tallest(rs, n)
  {
    if n == 1 {
      t := 0;
    } else if Tallest(rs, n - 1) < rs[n - 1].height {
      t := n - 1;
    } else {
      t := TallestAttained(rs, n - 1);
    }
  }

  /** `max(v[1] for _, v in renders.items())`: the tallest rendering.
      Python's `max` raises on an empty sequence, hence the precondition. */
  function MaxHeight(rs: seq<Rendered>): real
    requires |rs| > 0
  {
    Tallest(rs, |rs|)
  }

  /** How far the running offset has moved after the first n renderings:
      the sum of (width + padding) over them. */
  function Advance(rs: seq<Rendered>, n: nat, padding: real): real
    requires n <= |rs|
  {
    if n == 0 then 0.0 else Advance(rs, n - 1, padding) + rs[n - 1].width + padding
  }

  /** `total_height`: the tallest rendering with `padding` above and below. */
  function TotalHeight(rs: seq<Rendered>, padding: real): real
    requires |rs| > 0
  {
    2.0 * padding + MaxHeight(rs)
  }

  /** Rendering i placed as `render_all` places it: its group at x =
      padding plus the advance of the renderings before it and y =
      total_height - height - padding, its caption at (x, total_height). */
  function Placed(names: seq<string>, rs: seq<Rendered>, i: nat, padding: real, textsize: real): Placement
    requires i < |rs| && |names| == |rs|
  {
    var x, total := padding + Advance(rs, i, padding), TotalHeight(rs, padding);
    Placement(x, total - rs[i].height - padding, rs[i].markup, Label(x, total, names[i], textsize))
  }

  /** The document `render_all` describes: the placed renderings in order;
      the width is the final running offset and the height total_height +
      padding + textsize. */
  function LayoutOf(names: seq<string>, rs: seq<Rendered>, padding: real, textsize: real): Document
    requires |rs| > 0 && |names| == |rs|
  {
    Document(
      seq(|rs|, i requires 0 <= i < |rs| => Placed(names, rs, i, padding, textsize)),
      padding + Advance(rs, |rs|, padding),
      TotalHeight(rs, padding) + padding + textsize)
  }

  /** Every object's geometry is non-empty, as `render_flat` needs. */
  predicate Renderable(things: seq<Thing>)
  {
    forall i :: 0 <= i < |things| ==> |things[i].geometry| > 0
  }

  /** `renders = {k: render_flat(*thing) ...}`, thing i under key keys[i]. */
  function Renders(things: seq<Thing>, keys: seq<string>): seq<Rendered>
    requires |keys| == |things| && Renderable(things)
  {
    seq(|things|, i requires 0 <= i < |things| =>
      FlatRender(things[i].materials, things[i].geometry, keys[i]))
  }

  /** The captions, one per object. */
  function Captions(things: seq<Thing>): seq<string>
  {
    seq(|things|, i requires 0 <= i < |things| => things[i].name)
  }

  /** Lines 180-195 of `render_all`: walks the renderings keeping the
      running offset `h_offset`, which starts at `padding` and grows by
      width + padding, placing each rendering and its caption. */
  method PlaceAll(names: seq<string>, renders: seq<Rendered>, padding: real, textsize: real)
    returns (doc: Document)
    requires |renders| > 0 && |names| == |renders|
    ensures doc == LayoutOf(names, renders, padding, textsize)
  {
    var totalHeight := 2.0 * padding + MaxHeight(renders);
    var hOffset := padding;
    var placements: seq<Placement> := [];
    var i := 0;
    while i < |renders|
      invariant 0 <= i <= |renders|
      invariant hOffset == padding + Advance(renders, i, padding)
      invariant |placements| == i
      invariant forall j {:trigger placements[j]} :: 0 <= j < i ==>
        placements[j] == Placed(names, renders, j, padding, textsize)
    {
      var r := renders[i];
      placements := placements + [Placement(hOffset, totalHeight - r.height - padding, r.markup,
                                            Label(hOffset, totalHeight, names[i], textsize))];
      hOffset := hOffset + r.width + padding;
      i := i + 1;
    }
    doc := Document(placements, hOffset, totalHeight + padding + textsize);
  }

  /** `render_all(things, render_flat, padding, textsize)`: renders every
      object with its own key, then lays the renderings out. */
  method RenderAll(things: seq<Thing>, keys: seq<string>, padding: real, textsize: real)
    returns (doc: Document)
    requires |things| > 0 && |keys| == |things| && Renderable(things)
    ensures doc == LayoutOf(Captions(things), Renders(things, keys), padding, textsize)
  {
    var renders: seq<Rendered> := [];
    var i := 0;
    while i < |things|
      invariant 0 <= i <= |things|
      invariant |renders| == i
      invariant forall j {:trigger renders[j]} :: 0 <= j < i ==>
        renders[j] == FlatRender(things[j].materials, things[j].geometry, keys[j])
    {
      var r := RenderFlat(things[i].materials, things[i].geometry, keys[i]);
      renders := renders + [r];
      i := i + 1;
    }
    ghost var spec := Renders(things, keys);
    assert forall j {:trigger renders[j]} :: 0 <= j < |things| ==> renders[j] == spec[j];
    assert renders == spec;
    doc := PlaceAll(Captions(things), renders, padding, textsize);
  }

  /** With non-negative widths and padding, the running offset after j
      renderings is at least the one after i, plus rendering i's width and
      the padding when i < j. */
  lemma {:induction false} AdvanceMonotone(rs: seq<Rendered>, i: nat, j: nat, padding: real)
    requires i < j <= |rs|
    requires 0.0 <= padding && forall k :: 0 <= k < |rs| ==> 0.0 <= rs[k].width
    ensures Advance(rs, i, padding) + rs[i].width + padding <= Advance(rs, j, padding)
    decreases j
  {
    if i < j - 1 {
      AdvanceMonotone(rs, i, j - 1, padding);
    }
  }

  /** With non-negative widths and padding, the running offset is never negative. */
  lemma {:induction false} AdvanceNonNegative(rs: seq<Rendered>, i: nat, padding: real)
    requires i <= |rs|
    requires 0.0 <= padding && forall k :: 0 <= k < |rs| ==> 0.0 <= rs[k].width
    ensures 0.0 <= Advance(rs, i, padding)
  {
    if i == 0 {
    } else {
      AdvanceNonNegative(rs, i - 1, padding);
    }
  }

  /** Spacing: the first object is `padding` from the left edge, each next
      one starts `padding` after the previous one's right edge, and the
      document ends `padding` after the last one. */
  lemma LayoutSpacing(names: seq<string>, rs: seq<Rendered>, padding: real, textsize: real)
    requires |rs| > 0 && |names| == |rs|
    ensures var d := LayoutOf(names, rs, padding, textsize);
      && |d.placements| == |rs|
      && d.placements[0].x == padding
      && (forall i, j {:trigger d.placements[i], d.placements[j]} :: 0 <= i && j == i + 1 && j < |rs| ==>
            d.placements[j].x == d.placements[i].x + rs[i].width + padding)
      && d.width == d.placements[|rs| - 1].x + rs[|rs| - 1].width + padding
  {
    var d := LayoutOf(names, rs, padding, textsize);
    forall i, j | 0 <= i && j == i + 1 && j < |rs|
      ensures d.placements[j].x == d.placements[i].x + rs[i].width + padding
    {
      assert d.placements[i].x == padding + Advance(rs, i, padding);
      assert d.placements[j].x == padding + Advance(rs, j, padding);
    }
  }

  /** With non-negative widths and padding, objects never overlap: an object
      ends at least `padding` before any later one starts. */
  lemma LayoutNoOverlap(names: seq<string>, rs: seq<Rendered>, padding: real, textsize: real)
    requires |rs| > 0 && |names| == |rs|
    requires 0.0 <= padding && forall k :: 0 <= k < |rs| ==> 0.0 <= rs[k].width
    ensures var d := LayoutOf(names, rs, padding, textsize);
      forall i, j :: 0 <= i < j < |rs| ==>
        d.placements[i].x + rs[i].width + padding <= d.placements[j].x
  {
    var d := LayoutOf(names, rs, padding, textsize);
    forall i, j | 0 <= i < j < |rs|
      ensures d.placements[i].x + rs[i].width + padding <= d.placements[j].x
    {
      AdvanceMonotone(rs, i, j, padding);
    }
  }

  /** Bottom alignment: every rendering's reported box ends at total_height -
      padding, its caption is anchored at total_height and at the group's x;
      no group origin lies above `padding`, and the tallest object's origin
      is at `padding`. (The drawing itself reaches half a unit higher; see
      `LayoutDrawn`.) */
  lemma LayoutBottomAligned(names: seq<string>, rs: seq<Rendered>, padding: real, textsize: real)
    requires |rs| > 0 && |names| == |rs|
    ensures var d := LayoutOf(names, rs, padding, textsize);
      && (forall i :: 0 <= i < |rs| ==>
            && d.placements[i].y + rs[i].height == TotalHeight(rs, padding) - padding
            && d.placements[i].caption == Label(d.placements[i].x, TotalHeight(rs, padding), names[i], textsize)
            && d.placements[i].markup == rs[i].markup
            && padding <= d.placements[i].y)
      && (exists i :: 0 <= i < |rs| && d.placements[i].y == padding)
      && d.height == TotalHeight(rs, padding) + padding + textsize
  {
    var d := LayoutOf(names, rs, padding, textsize);
    var t := TallestAttained(rs, |rs|);
    assert d.placements[t].y == padding;
  }

  /** With non-negative sizes, every rendering's reported box lies inside the
      document and every caption anchor lies no lower than its bottom. */
  lemma LayoutFits(names: seq<string>, rs: seq<Rendered>, padding: real, textsize: real)
    requires |rs| > 0 && |names| == |rs|
    requires 0.0 <= padding && 0.0 <= textsize
    requires forall k :: 0 <= k < |rs| ==> 0.0 <= rs[k].width && 0.0 <= rs[k].height
    ensures var d := LayoutOf(names, rs, padding, textsize);
      forall i :: 0 <= i < |rs| ==>
        && 0.0 <= d.placements[i].x && d.placements[i].x + rs[i].width <= d.width
        && 0.0 <= d.placements[i].y && d.placements[i].y + rs[i].height <= d.height
        && d.placements[i].caption.y <= d.height
  {
    var d := LayoutOf(names, rs, padding, textsize);
    forall i | 0 <= i < |rs|
      ensures 0.0 <= d.placements[i].x && d.placements[i].x + rs[i].width <= d.width
    {
      AdvanceNonNegative(rs, i, padding);
      if i < |rs| - 1 {
        AdvanceMonotone(rs, i, |rs|, padding);
      } else {
      }
    }
  }

  /** What is drawn, not only the reported boxes: when every rendering keeps
      its corners within its box and the half unit above it, every corner of
      every placed path lies across the document's width and between
      `padding - 0.5` and the document's height. */
  lemma LayoutDrawn(names: seq<string>, rs: seq<Rendered>, padding: real, textsize: real)
    requires |rs| > 0 && |names| == |rs|
    requires 0.0 <= padding && 0.0 <= textsize
    requires forall k :: 0 <= k < |rs| ==> DrawnWithin(rs[k]) && 0.0 <= rs[k].width && 0.0 <= rs[k].height
    ensures var d := LayoutOf(names, rs, padding, textsize);
      forall i, p, k ::
        (0 <= i < |rs| && 0 <= p < |d.placements[i].markup.paths|
         && 0 <= k < |d.placements[i].markup.paths[p].corners|) ==>
        var c := d.placements[i].markup.paths[p].corners[k];
        && 0.0 <= d.placements[i].x + d.placements[i].markup.paths[p].dx + c.x <= d.width
        && padding - 0.5 <= d.placements[i].y + c.y <= d.height
  {
    var d := LayoutOf(names, rs, padding, textsize);
    LayoutFits(names, rs, padding, textsize);
    LayoutBottomAligned(names, rs, padding, textsize);
    forall i, p, k | 0 <= i < |rs| && 0 <= p < |d.placements[i].markup.paths|
        && 0 <= k < |d.placements[i].markup.paths[p].corners|
      ensures var c := d.placements[i].markup.paths[p].corners[k];
        && 0.0 <= d.placements[i].x + d.placements[i].markup.paths[p].dx + c.x <= d.width
        && padding - 0.5 <= d.placements[i].y + c.y <= d.height
    {
      assert DrawnWithin(rs[i]);
    }
  }

  /** Objects whose radii and heights are non-negative render to non-negative
      widths and heights, so each rendering's reported box lies inside the
      document. What is drawn reaches half a unit higher: every drawn corner
      lies across the document's width and between `padding - 0.5` and its
      height, and the tallest object's first path reaches `padding - 0.5`
      exactly, so the drawing stays inside the document exactly when
      `padding >= 0.5`. */
  lemma CatalogueFits(things: seq<Thing>, keys: seq<string>, padding: real, textsize: real)
    requires |things| > 0 && |keys| == |things| && Renderable(things)
    requires 0.0 <= padding && 0.0 <= textsize
    requires forall i, k :: 0 <= i < |things| && 0 <= k < |things[i].geometry| ==>
      var s := things[i].geometry[k]; 0.0 <= s.r1 && 0.0 <= s.r2 && 0.0 <= s.h
    ensures var rs := Renders(things, keys);
      var d := LayoutOf(Captions(things), rs, padding, textsize);
      && (forall i :: 0 <= i < |rs| ==>
            && 0.0 <= d.placements[i].x && d.placements[i].x + rs[i].width <= d.width
            && 0.0 <= d.placements[i].y && d.placements[i].y + rs[i].height <= d.height)
      && (forall i, p, k ::
            (0 <= i < |rs| && 0 <= p < |d.placements[i].markup.paths|
             && 0 <= k < |d.placements[i].markup.paths[p].corners|) ==>
          var c := d.placements[i].markup.paths[p].corners[k];
          && 0.0 <= d.placements[i].x + d.placements[i].markup.paths[p].dx + c.x <= d.width
          && padding - 0.5 <= d.placements[i].y + c.y <= d.height)
      && (exists i :: 0 <= i < |rs| && |d.placements[i].markup.paths| > 0
            && |d.placements[i].markup.paths[0].corners| > 0
            && d.placements[i].y + d.placements[i].markup.paths[0].corners[0].y == padding - 0.5)
  {
    var rs := Renders(things, keys);
    var d := LayoutOf(Captions(things), rs, padding, textsize);
    forall i | 0 <= i < |rs|
      ensures DrawnWithin(rs[i]) && 0.0 <= rs[i].width && 0.0 <= rs[i].height
      ensures |rs[i].markup.paths| > 0 && |rs[i].markup.paths[0].corners| > 0
      ensures rs[i].markup.paths[0].corners[0].y == -0.5
    {
      FlatDrawn(things[i].materials, things[i].geometry, keys[i]);
    }
    LayoutFits(Captions(things), rs, padding, textsize);
    LayoutDrawn(Captions(things), rs, padding, textsize);
    var t := TallestAttained(rs, |rs|);
    assert d.placements[t].y == padding;
    assert d.placements[t].markup == rs[t].markup;
  }
}
