/** Shading of materials in cylinders.py: the colour shader `rgb` (the inner
    function of `render_materials`) and the seven-stop linear gradient that
    `render_materials` emits for every material of an object. */
module Shading {

  /** A material's tuple (r, g, b, glossiness): base colour channels, nominally
      in [0, 1], and glossiness in [0, 1] (0 is matte). */
  datatype Material = Material(red: real, green: real, blue: real, gloss: real)

  /** One entry of an object's material dictionary, in iteration order. */
  datatype Entry = Entry(name: string, material: Material)

  /** A shaded colour on the 0..255 scale (not rounded: the source formats
      the floats as they are). */
  datatype Rgb = Rgb(r: real, g: real, b: real)

  /** A `linearGradient`: its id, its seven stop colours and the seven stop
      offsets in percent (the first and last are the fixed 0% and 100%). */
  datatype Gradient = Gradient(id: string, colours: seq<Rgb>, offsets: seq<real>)

  /** The unclamped value of one channel. */
  function Raw(c: real, mult: real, add: real): real
  {
    255.0 * (c * mult + add)
  }

  /** `min(255, 255 * (c * mult + add))`: clamped from above only. */
  function Channel(c: real, mult: real, add: real): (v: real)
    ensures v <= 255.0
    ensures v == Raw(c, mult, add) <==> Raw(c, mult, add) <= 255.0
    ensures v == 255.0 <==> 255.0 <= Raw(c, mult, add)
    ensures 0.0 <= c * mult + add ==> 0.0 <= v
  {
    if Raw(c, mult, add) < 255.0 then Raw(c, mult, add) else 255.0
  }

  /** The shader `rgb(colour, mult, add)`: only the first three components of
      the material tuple are shaded; the glossiness is never a channel. */
  function Shade(m: Material, mult: real, add: real): (c: Rgb)
    ensures c.r <= 255.0 && c.g <= 255.0 && c.b <= 255.0
    ensures c.r == Raw(m.red, mult, add) <==> Raw(m.red, mult, add) <= 255.0
    ensures c.g == Raw(m.green, mult, add) <==> Raw(m.green, mult, add) <= 255.0
    ensures c.b == Raw(m.blue, mult, add) <==> Raw(m.blue, mult, add) <= 255.0
  {
    Rgb(Channel(m.red, mult, add), Channel(m.green, mult, add), Channel(m.blue, mult, add))
  }

  /** The seven shader multipliers, rim to rim, for glossiness g. */
  function Multipliers(g: real): seq<real>
  {
    [0.3 - 0.2 * g, 0.7, 1.0, 1.2, 1.1, 0.8, 0.6 - 0.2 * g]
  }

  /** The seven additive terms, weighted by glossiness g. */
  function Additives(g: real): seq<real>
  {
    [0.0, 0.0, 0.2 * g, 0.25 * g, 0.2 * g, 0.0, 0.0]
  }

  /** The seven stop offsets (percent) for glossiness g. */
  function Offsets(g: real): seq<real>
  {
    [0.0, 52.0 - 10.0 * (1.0 - g), 52.0 + 10.0 * (1.0 - g), 70.0,
     88.0 - 10.0 * (1.0 - g), 88.0 + 10.0 * (1.0 - g), 100.0]
  }

  /** The gradient `render_materials` emits for one material under the given id. */
  function MaterialGradient(id: string, m: Material): (gr: Gradient)
    ensures gr.id == id
    ensures |gr.colours| == 7 && |gr.offsets| == 7
    ensures gr.offsets[0] == 0.0 && gr.offsets[3] == 70.0 && gr.offsets[6] == 100.0
    ensures forall i :: 0 <= i < 7 ==>
      gr.colours[i].r <= 255.0 && gr.colours[i].g <= 255.0 && gr.colours[i].b <= 255.0
  {
    var mults, adds := Multipliers(m.gloss), Additives(m.gloss);
    Gradient(id, seq(7, i requires 0 <= i < 7 => Shade(m, mults[i], adds[i])), Offsets(m.gloss))
  }

  /** `render_materials(materials, key)`: one gradient per material, in
      dictionary order, each with id `name + key`. */
  function RenderMaterials(ms: seq<Entry>, key: string): (gs: seq<Gradient>)
    ensures |gs| == |ms|
    ensures forall i :: 0 <= i < |ms| ==> gs[i].id == ms[i].name + key
    ensures forall i :: 0 <= i < |ms| ==> gs[i] == MaterialGradient(ms[i].name + key, ms[i].material)
  {
    seq(|ms|, i requires 0 <= i < |ms| => MaterialGradient(ms[i].name + key, ms[i].material))
  }

  /** The set of gradient ids a list of gradients defines. */
  function Ids(gs: seq<Gradient>): set<string>
  {
    set i | 0 <= i < |gs| :: gs[i].id
  }

  /** The names of a material dictionary. */
  function Names(ms: seq<Entry>): set<string>
  {
    set i | 0 <= i < |ms| :: ms[i].name
  }

  /** The glossiness never reaches a channel: two materials that differ only in
      glossiness shade alike. */
  lemma ShadeIgnoresGloss(m: Material, gloss: real, mult: real, add: real)
    ensures Shade(m.(gloss := gloss), mult, add) == Shade(m, mult, add)
  {
  }

  /** For glossiness in [0, 1] the five inner stops are ordered and lie in
      their bands: 42 <= s1 <= 52 <= s2 <= 62 < 70 < 78 <= s4 <= 88 <= s5 <= 98. */
  lemma StopOrdering(id: string, m: Material)
    requires 0.0 <= m.gloss <= 1.0
    ensures var s := MaterialGradient(id, m).offsets;
      && 0.0 < s[1] <= s[2] < s[3] == 70.0 < s[4] <= s[5] < s[6] == 100.0
      && 42.0 <= s[1] <= 52.0 && 52.0 <= s[2] <= 62.0
      && 78.0 <= s[4] <= 88.0 && 88.0 <= s[5] <= 98.0
      && forall i, j :: 0 <= i < j < 7 ==> s[i] <= s[j]
  {
    var s := MaterialGradient(id, m).offsets;
    assert s == Offsets(m.gloss);
    assert s[0] <= s[1] <= s[2] <= s[3] <= s[4] <= s[5] <= s[6];
  }

  /** The inner pairs stay ordered exactly when the glossiness is at most 1;
      above 1 they cross over. */
  lemma StopPairsOrderedIff(id: string, m: Material)
    ensures var s := MaterialGradient(id, m).offsets;
      (s[1] <= s[2] <==> m.gloss <= 1.0) && (s[4] <= s[5] <==> m.gloss <= 1.0)
  {
    assert MaterialGradient(id, m).offsets == Offsets(m.gloss);
  }

  /** Each inner pair is symmetric about 52% and 88%, with spread 20(1 - g):
      20 for a matte material, 0 for a fully glossy one. */
  lemma StopSpread(id: string, m: Material)
    ensures var s := MaterialGradient(id, m).offsets;
      && s[1] + s[2] == 104.0 && s[4] + s[5] == 176.0
      && s[2] - s[1] == 20.0 * (1.0 - m.gloss) && s[5] - s[4] == 20.0 * (1.0 - m.gloss)
      && (m.gloss == 0.0 ==> s[2] - s[1] == 20.0 && s[5] - s[4] == 20.0)
      && (m.gloss == 1.0 ==> s[1] == s[2] == 52.0 && s[4] == s[5] == 88.0)
  {
    assert MaterialGradient(id, m).offsets == Offsets(m.gloss);
  }

  /** A value in the unit interval. */
  predicate Unit(x: real)
  {
    0.0 <= x <= 1.0
  }

  /** A channel of a non-negative colour under a non-negative multiplier and
      additive is in [0, 255]. */
  lemma ChannelInRange(c: real, mult: real, add: real)
    requires 0.0 <= c && 0.0 <= mult && 0.0 <= add
    ensures 0.0 <= Channel(c, mult, add) <= 255.0
  {
    assert 0.0 <= c * mult;
  }

  /** With colour channels and glossiness in [0, 1], every multiplier (the
      smallest is 0.3 - 0.2g >= 0.1) and every additive is non-negative, so
      every stop channel lies in [0, 255] although `rgb` has no lower clamp. */
  lemma StopsInRange(id: string, m: Material)
    requires Unit(m.red) && Unit(m.green) && Unit(m.blue) && Unit(m.gloss)
    ensures var cs := MaterialGradient(id, m).colours;
      forall i :: 0 <= i < 7 ==>
        0.0 <= cs[i].r <= 255.0 && 0.0 <= cs[i].g <= 255.0 && 0.0 <= cs[i].b <= 255.0
  {
    var mults, adds := Multipliers(m.gloss), Additives(m.gloss);
    var cs := MaterialGradient(id, m).colours;
    forall i | 0 <= i < 7
      ensures 0.0 <= cs[i].r <= 255.0 && 0.0 <= cs[i].g <= 255.0 && 0.0 <= cs[i].b <= 255.0
    {
      assert mults[i] >= 0.1 && adds[i] >= 0.0;
      assert cs[i] == Shade(m, mults[i], adds[i]);
      ChannelInRange(m.red, mults[i], adds[i]);
      ChannelInRange(m.green, mults[i], adds[i]);
      ChannelInRange(m.blue, mults[i], adds[i]);
    }
  }

  /** Every gradient `render_materials` emits for a dictionary of unit-range
      materials has its seven offsets non-decreasing from 0 to 100 and every
      stop channel in [0, 255]. */
  lemma EmittedGradientsInRange(ms: seq<Entry>, key: string)
    requires forall i :: 0 <= i < |ms| ==>
      var m := ms[i].material; Unit(m.red) && Unit(m.green) && Unit(m.blue) && Unit(m.gloss)
    ensures var gs := RenderMaterials(ms, key);
      forall i :: 0 <= i < |gs| ==>
        && gs[i].offsets[0] == 0.0 && gs[i].offsets[6] == 100.0
        && (forall j, k :: 0 <= j < k < 7 ==> gs[i].offsets[j] <= gs[i].offsets[k])
        && (forall k :: 0 <= k < 7 ==>
              0.0 <= gs[i].colours[k].r <= 255.0 && 0.0 <= gs[i].colours[k].g <= 255.0
              && 0.0 <= gs[i].colours[k].b <= 255.0)
  {
    var gs := RenderMaterials(ms, key);
    forall i | 0 <= i < |gs|
      ensures && gs[i].offsets[0] == 0.0 && gs[i].offsets[6] == 100.0
        && (forall j, k :: 0 <= j < k < 7 ==> gs[i].offsets[j] <= gs[i].offsets[k])
        && (forall k :: 0 <= k < 7 ==>
              0.0 <= gs[i].colours[k].r <= 255.0 && 0.0 <= gs[i].colours[k].g <= 255.0
              && 0.0 <= gs[i].colours[k].b <= 255.0)
    {
      StopOrdering(ms[i].name + key, ms[i].material);
      StopsInRange(ms[i].name + key, ms[i].material);
    }
  }

  /** Appending the same key to two names gives the same id only for equal names. */
  lemma SuffixCancel(a: string, b: string, key: string)
    requires a + key == b + key
    ensures a == b
  {
    assert |a| == |b|;
    assert a == (a + key)[..|a|];
    assert b == (b + key)[..|b|];
  }

  /** Distinct material names under one key give distinct gradient ids. */
  lemma GradientIdsDistinct(ms: seq<Entry>, key: string)
    requires forall i, j :: 0 <= i < j < |ms| ==> ms[i].name != ms[j].name
    ensures var gs := RenderMaterials(ms, key);
      forall i, j :: 0 <= i < j < |gs| ==> gs[i].id != gs[j].id
  {
    var gs := RenderMaterials(ms, key);
    forall i, j | 0 <= i < j < |gs|
      ensures gs[i].id != gs[j].id
    {
      if gs[i].id == gs[j].id {
        SuffixCancel(ms[i].name, ms[j].name, key);
      }
    }
  }

  /** The gradient id of every material name is defined: `name + key` is an
      id of `render_materials(materials, key)` exactly when `name` is a
      material name. */
  lemma GradientDefinedIff(ms: seq<Entry>, key: string, name: string)
    ensures name + key in Ids(RenderMaterials(ms, key)) <==> name in Names(ms)
  {
    var gs := RenderMaterials(ms, key);
    if name in Names(ms) {
      var i :| 0 <= i < |ms| && ms[i].name == name;
      assert gs[i].id == name + key;
    }
    if name + key in Ids(gs) {
      var i :| 0 <= i < |gs| && gs[i].id == name + key;
      SuffixCancel(ms[i].name, name, key);
    }
  }

  /** A character that can occur in `str(hash(...))`: a digit or a minus sign. */
  predicate KeyChar(c: char)
  {
    c == '-' || '0' <= c <= '9'
  }

  /** A namespace key as `render_flat` makes one: the decimal text of an integer. */
  predicate IsKey(k: string)
  {
    |k| > 0 && forall i :: 0 <= i < |k| ==> KeyChar(k[i])
  }

  /** A material name with no digit and no minus sign (every name in the catalogue). */
  predicate PlainName(n: string)
  {
    forall i :: 0 <= i < |n| ==> !KeyChar(n[i])
  }

  /** Where the shorter name ends, the longer name holds the first character
      of the other key. */
  lemma KeyCharAtSeam(n1: string, k1: string, n2: string, k2: string)
    requires IsKey(k1) && n1 + k1 == n2 + k2 && |n1| < |n2|
    ensures KeyChar(n2[|n1|])
  {
    assert (n1 + k1)[|n1|] == k1[0];
    assert (n2 + k2)[|n1|] == n2[|n1|];
  }

  /** With plain names and numeric keys, an id determines both its material
      name and its key. */
  lemma IdDeterminesNameAndKey(n1: string, k1: string, n2: string, k2: string)
    requires PlainName(n1) && PlainName(n2) && IsKey(k1) && IsKey(k2)
    requires n1 + k1 == n2 + k2
    ensures n1 == n2 && k1 == k2
  {
    if |n1| < |n2| {
      KeyCharAtSeam(n1, k1, n2, k2);
      assert false;
    } else if |n2| < |n1| {
      KeyCharAtSeam(n2, k2, n1, k1);
      assert false;
    } else {
      assert n1 == (n1 + k1)[..|n1|];
      assert n2 == (n2 + k2)[..|n2|];
      assert k1 == (n1 + k1)[|n1|..];
      assert k2 == (n2 + k2)[|n2|..];
    }
  }

  /** Without plain names the concatenation is ambiguous: material "window1"
      under key "23" and material "window" under key "123" get one id. */
  lemma IdsCollideWithoutPlainNames()
    ensures "window1" + "23" == "window" + "123"
  {
  }

  /** Two objects rendered into one document under different keys never share
      a gradient id, provided their material names are plain. */
  lemma KeysIsolate(ms1: seq<Entry>, k1: string, ms2: seq<Entry>, k2: string)
    requires IsKey(k1) && IsKey(k2) && k1 != k2
    requires forall i :: 0 <= i < |ms1| ==> PlainName(ms1[i].name)
    requires forall i :: 0 <= i < |ms2| ==> PlainName(ms2[i].name)
    ensures Ids(RenderMaterials(ms1, k1)) !! Ids(RenderMaterials(ms2, k2))
  {
    var gs1, gs2 := RenderMaterials(ms1, k1), RenderMaterials(ms2, k2);
    forall id | id in Ids(gs1) && id in Ids(gs2)
      ensures false
    {
      var i :| 0 <= i < |gs1| && gs1[i].id == id;
      var j :| 0 <= j < |gs2| && gs2[j].id == id;
      IdDeterminesNameAndKey(ms1[i].name, k1, ms2[j].name, k2);
    }
  }
}
