/** The sample-to-colour rules of the visualizer: the grayscale mapper
    renderBlackWhite, the false-colour mapper renderFalseColor (with the
    trigonometric circleToRGB left abstract), and Python's int() on a float. */
module ColourMap {

  /** An RGB pixel as the renderers build it: three Python ints.
      renderBlackWhite and renderFalseColor never clamp them to [0, 255]. */
  datatype Rgb = Rgb(r: int, g: int, b: int)

  /** "No signal": what both renderers return for a sample <= 0. */
  const Black: Rgb := Rgb(0, 0, 0)

  /** The three real distances that circleToRGB returns for a phase. */
  datatype Distances = Distances(r: real, g: real, b: real)

  /** The two renderers renderImage can use. The false-colour one carries the
      phase-to-distances map circleToRGB, which rests on cos, sin and sqrt and
      is therefore a parameter of the model rather than a definition. */
  datatype Palette = FalseColor(circleToRgb: real -> Distances) | BlackWhite

  /** Python's int() on a float: truncation toward zero. */
  function Trunc(x: real): (n: int)
    ensures 0.0 <= x ==> n as real <= x < n as real + 1.0
    ensures x < 0.0 ==> n as real - 1.0 < x <= n as real
  {
    if x >= 0.0 then x.Floor else -((-x).Floor)
  }

  /** Truncation never reverses the order of its arguments. */
  lemma TruncMonotone(x: real, y: real)
    requires x <= y
    ensures Trunc(x) <= Trunc(y)
  {
  }

  /** For a sample in (0, mm] the quotient val / mm lies in (0, 1]. */
  lemma QuotientInUnitRange(val: real, mm: real)
    requires 0.0 < val <= mm
    ensures 0.0 < val / mm <= 1.0
  {
  }

  /** renderBlackWhite: black for no signal, otherwise the grey level
      int(255 * (1 - val / mm)) on all three channels. The division needs a
      non-zero maximum whenever the sample is positive. */
  function RenderBlackWhite(t: nat, ary: seq<real>, mm: real): (c: Rgb)
    requires t < |ary|
    requires ary[t] > 0.0 ==> mm != 0.0
    ensures ary[t] <= 0.0 ==> c == Black
    ensures c.r == c.g == c.b
    ensures 0.0 < ary[t] <= mm ==>
      c.r as real <= 255.0 * (1.0 - ary[t] / mm) < c.r as real + 1.0
    ensures 0.0 < ary[t] <= mm ==> 0 <= c.r <= 254
    ensures 0.0 < ary[t] == mm ==> c == Black
  {
    var val := ary[t];
    if val <= 0.0 then Black
    else
      var normed := Trunc(255.0 * (1.0 - val / mm));
      assert 0.0 < val <= mm ==>
        (0 <= normed <= 254 &&
         normed as real <= 255.0 * (1.0 - val / mm) < normed as real + 1.0) by {
        if 0.0 < val <= mm { QuotientInUnitRange(val, mm); }
      }
      Rgb(normed, normed, normed)
  }

  /** For a fixed positive maximum, a larger positive sample is never
      rendered lighter by the grayscale mapper. */
  lemma BlackWhiteNonIncreasing(t1: nat, t2: nat, ary: seq<real>, mm: real)
    requires t1 < |ary| && t2 < |ary|
    requires mm > 0.0
    requires 0.0 < ary[t1] <= ary[t2]
    ensures RenderBlackWhite(t2, ary, mm).r <= RenderBlackWhite(t1, ary, mm).r
  {
    var v1, v2 := ary[t1], ary[t2];
    assert v1 / mm <= v2 / mm by {
      assert v1 / mm * mm == v1 && v2 / mm * mm == v2;
    }
    TruncMonotone(255.0 * (1.0 - v2 / mm), 255.0 * (1.0 - v1 / mm));
  }

  /** The phase renderFalseColor hands to circleToRGB: 1 - val / mm. */
  function Unit(val: real, mm: real): (u: real)
    requires mm != 0.0
    ensures 0.0 < val <= mm ==> 0.0 <= u < 1.0
    ensures 0.0 < val == mm ==> u == 0.0
    ensures val == mm * (1.0 - u)
  {
    assert 0.0 < val <= mm ==> 0.0 < val / mm <= 1.0 by {
      if 0.0 < val <= mm { QuotientInUnitRange(val, mm); }
    }
    assert val / mm * mm == val;
    1.0 - val / mm
  }

  /** For a positive maximum the phase strictly decreases as the sample
      grows, so distinct samples are handed distinct phases. */
  lemma UnitStrictlyDecreasing(v1: real, v2: real, mm: real)
    requires mm > 0.0
    requires v1 < v2
    ensures Unit(v2, mm) < Unit(v1, mm)
  {
    var d := v2 - v1;
    assert v2 / mm == v1 / mm + d / mm;
    assert d / mm > 0.0;
  }

  /** Scale the distances to channels as renderFalseColor does: int(255 * d)
      per channel, with no clamping. */
  function ScaleDistances(d: Distances): (c: Rgb)
    ensures d.r >= 0.0 ==>
      0 <= c.r && c.r as real <= 255.0 * d.r < c.r as real + 1.0
    ensures d.g >= 0.0 ==>
      0 <= c.g && c.g as real <= 255.0 * d.g < c.g as real + 1.0
    ensures d.b >= 0.0 ==>
      0 <= c.b && c.b as real <= 255.0 * d.b < c.b as real + 1.0
  {
    Rgb(Trunc(255.0 * d.r), Trunc(255.0 * d.g), Trunc(255.0 * d.b))
  }

  /** renderFalseColor: black for no signal, otherwise the scaled distances
      circleToRGB gives for the phase 1 - val / mm. */
  function RenderFalseColor(t: nat, ary: seq<real>, mm: real,
                            circleToRgb: real -> Distances): (c: Rgb)
    requires t < |ary|
    requires ary[t] > 0.0 ==> mm != 0.0
    ensures ary[t] <= 0.0 ==> c == Black
  {
    var val := ary[t];
    if val <= 0.0 then Black
    else ScaleDistances(circleToRgb(Unit(val, mm)))
  }

  /** For a positive sample no larger than the maximum, the colour is
      circleToRGB's output at a phase u in [0, 1) from which the sample is
      recovered as mm * (1 - u). */
  lemma FalseColorPhaseInRange(t: nat, ary: seq<real>, mm: real,
                               circleToRgb: real -> Distances)
    requires t < |ary|
    requires 0.0 < ary[t] <= mm
    ensures exists u :: (0.0 <= u < 1.0 && ary[t] == mm * (1.0 - u) &&
      RenderFalseColor(t, ary, mm, circleToRgb) == ScaleDistances(circleToRgb(u)))
  {
    var u := Unit(ary[t], mm);
    assert 0.0 <= u < 1.0;
    assert RenderFalseColor(t, ary, mm, circleToRgb) == ScaleDistances(circleToRgb(u));
  }

  /** A pixel's colour is decided by its own sample and the maximum alone:
      equal samples get identical colours, wherever they sit. */
  lemma ColourDependsOnSampleOnly(p: Palette, t1: nat, ary1: seq<real>,
                                  t2: nat, ary2: seq<real>, mm: real)
    requires t1 < |ary1| && t2 < |ary2|
    requires ary1[t1] > 0.0 ==> mm != 0.0
    requires ary1[t1] == ary2[t2]
    ensures Render(p, t1, ary1, mm) == Render(p, t2, ary2, mm)
  {
  }

  /** The colour of sample t under a palette. */
  function Render(p: Palette, t: nat, ary: seq<real>, mm: real): (c: Rgb)
    requires t < |ary|
    requires ary[t] > 0.0 ==> mm != 0.0
    ensures ary[t] <= 0.0 ==> c == Black
  {
    match p
    case FalseColor(circleToRgb) => RenderFalseColor(t, ary, mm, circleToRgb)
    case BlackWhite => RenderBlackWhite(t, ary, mm)
  }
}
