/** Two entries of the `THINGS` catalogue of cylinders.py, used as concrete
    instances of the flat renderer and the layout pass with their default
    padding (20) and text size (10). */
module Catalogue {
  import opened Shading
  import opened Flat
  import opened Layout

  const DefaultPadding: real := 20.0
  const DefaultTextSize: real := 10.0

  /** 'Hockey Puck': one rubber ring, 38.1 mm in radius and 25.4 mm high. */
  const HockeyPuck: Thing :=
    Thing("Hockey Puck", [Entry("rubber", Material(0.15, 0.15, 0.15, 0.0))],
          [Segment(38.1, 38.1, 25.4, "rubber")])

  /** 'Ouster OS1': a body, a tapered shoulder, the window, a flared
      shoulder and a cap. */
  const OusterOS1: Thing :=
    Thing("Ouster OS1",
          [Entry("body", Material(0.88, 0.88, 0.88, 0.3)), Entry("window", Material(0.1, 0.1, 0.1, 0.9))],
          [Segment(38.0, 38.0, 18.0, "body"), Segment(38.0, 35.0, 3.0, "body"),
           Segment(35.0, 35.0, 31.0, "window"), Segment(35.0, 40.0, 14.0, "body"),
           Segment(40.0, 40.0, 6.0, "body")])

  /** The Ouster OS1 renders 72 mm high (18 + 3 + 31 + 14 + 6) and 80 mm wide
      (twice its 40 mm cap), and every path it draws has a defined fill. */
  lemma OusterExtent(key: string)
    ensures var r := FlatRender(OusterOS1.materials, OusterOS1.geometry, key);
      && r.height == 72.0 && r.width == 80.0
      && forall i :: 0 <= i < |r.markup.paths| ==> r.markup.paths[i].fill in Ids(r.markup.defs)
  {
    var g := OusterOS1.geometry;
    assert Rise(g, 5) == 72.0;
    assert Widest(g, 2) == 38.0;
    assert Widest(g, 4) == 40.0;
    assert MaxRadius(g) == 40.0;
    assert Names(OusterOS1.materials) == {"body", "window"} by {
      assert OusterOS1.materials[0].name == "body";
      assert OusterOS1.materials[1].name == "window";
    }
    FlatFillsDefined(OusterOS1.materials, g, key);
  }

  /** Side by side with default padding, the puck's group sits at x = 20 and
      the OS1's at x = 20 + 76.2 + 20; the row is 40 + 72 high, so the puck's
      group origin is at y = 112 - 25.4 - 20, its first path half a unit
      higher, and the document is 216.2 by 142. */
  lemma PuckAndOusterLayout(puckKey: string, ousterKey: string)
    ensures var rs := Renders([HockeyPuck, OusterOS1], [puckKey, ousterKey]);
      var d := LayoutOf(Captions([HockeyPuck, OusterOS1]), rs, DefaultPadding, DefaultTextSize);
      && d.placements[0].x == 20.0 && d.placements[1].x == 116.2
      && d.placements[0].y == 66.6 && d.placements[1].y == 20.0
      && d.placements[0].y + d.placements[0].markup.paths[0].corners[0].y == 66.1
      && d.width == 216.2 && d.height == 142.0
  {
    var rs := Renders([HockeyPuck, OusterOS1], [puckKey, ousterKey]);
    OusterExtent(ousterKey);
    FlatStacking(HockeyPuck.materials, HockeyPuck.geometry, puckKey);
    assert rs[0].width == 76.2 && rs[0].height == 25.4;
    assert rs[1].width == 80.0 && rs[1].height == 72.0;
    assert Tallest(rs, 1) == 25.4;
    assert MaxHeight(rs) == 72.0;
  }

  /** Every stop of both Ouster OS1 materials shades inside [0, 255] and the
      inner stop offsets are ordered. */
  lemma OusterStops(key: string)
    ensures forall i :: 0 <= i < |OusterOS1.materials| ==>
      var gr := MaterialGradient(OusterOS1.materials[i].name + key, OusterOS1.materials[i].material);
      && (forall k :: 0 <= k < 7 ==>
            0.0 <= gr.colours[k].r <= 255.0 && 0.0 <= gr.colours[k].g <= 255.0 && 0.0 <= gr.colours[k].b <= 255.0)
      && gr.offsets[1] <= gr.offsets[2] < gr.offsets[3] < gr.offsets[4] <= gr.offsets[5]
  {
    forall i | 0 <= i < |OusterOS1.materials|
      ensures var gr := MaterialGradient(OusterOS1.materials[i].name + key, OusterOS1.materials[i].material);
        && (forall k :: 0 <= k < 7 ==>
            0.0 <= gr.colours[k].r <= 255.0 && 0.0 <= gr.colours[k].g <= 255.0 && 0.0 <= gr.colours[k].b <= 255.0)
        && gr.offsets[1] <= gr.offsets[2] < gr.offsets[3] < gr.offsets[4] <= gr.offsets[5]
    {
      StopsInRange(OusterOS1.materials[i].name + key, OusterOS1.materials[i].material);
      StopOrdering(OusterOS1.materials[i].name + key, OusterOS1.materials[i].material);
    }
  }

  /** The half unit of seam overlap above each rendering's reported box
      leaves the document when the padding is below 0.5: laid out alone with
      no padding, the puck's first path starts at y = -0.5, above the top
      edge. */
  lemma PuckOvershootsWithoutPadding(key: string)
    ensures var rs := Renders([HockeyPuck], [key]);
      var d := LayoutOf(Captions([HockeyPuck]), rs, 0.0, DefaultTextSize);
      && |d.placements[0].markup.paths| == 1
      && d.placements[0].y + d.placements[0].markup.paths[0].corners[0].y == -0.5
      && d.height == 35.4
  {
    var rs := Renders([HockeyPuck], [key]);
    FlatStacking(HockeyPuck.materials, HockeyPuck.geometry, key);
    assert rs[0].height == 25.4;
  }
}
