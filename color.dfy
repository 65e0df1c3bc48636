/** Colour classification: the RGB to HSV conversion and the two "ball colour" predicates
    used by detection and by calibration. */
module Color {

  /** Hue in degrees, saturation and value in [0, 1]. */
  datatype Hsv = Hsv(h: real, s: real, v: real)

  /** The colour model of the ochre ball. */
  const HueMin: real := 28.0
  const HueMax: real := 55.0
  const SatMin: real := 0.22
  const ValMin: real := 0.45
  const MinChannelSum: int := 120

  predicate IsByte(c: int) { 0 <= c <= 255 }

  function Max3(a: real, b: real, c: real): (m: real)
    ensures m >= a && m >= b && m >= c
    ensures m == a || m == b || m == c
  {
    if a >= b && a >= c then a else if b >= c then b else c
  }

  function Min3(a: real, b: real, c: real): (m: real)
    ensures m <= a && m <= b && m <= c
    ensures m == a || m == b || m == c
  {
    if a <= b && a <= c then a else if b <= c then b else c
  }

  /** The max/min-channel conversion: channels are scaled to [0, 1], value is the largest
      channel, saturation is the spread over the largest channel (0 for black) and the hue
      sector is chosen by which channel is the largest, tested in the order red, green, blue. */
  function RgbToHsv(r: int, g: int, b: int): (c: Hsv)
    ensures r == g == b ==> c == Hsv(0.0, 0.0, r as real / 255.0)
    ensures c.v >= r as real / 255.0 && c.v >= g as real / 255.0 && c.v >= b as real / 255.0
  {
    var rr := r as real / 255.0;
    var gg := g as real / 255.0;
    var bb := b as real / 255.0;
    var mx := Max3(rr, gg, bb);
    var mn := Min3(rr, gg, bb);
    var d := mx - mn;
    var s := if mx == 0.0 then 0.0 else d / mx;
    var h :=
      if d == 0.0 then 0.0
      else if mx == rr then ((gg - bb) / d + (if gg < bb then 6.0 else 0.0)) * 60.0
      else if mx == gg then ((bb - rr) / d + 2.0) * 60.0
      else ((rr - gg) / d + 4.0) * 60.0;
    Hsv(h, s, mx)
  }

  /** The hue/saturation/value part of the ball colour test. */
  predicate HsvMatches(c: Hsv)
  {
    HueMin <= c.h <= HueMax && c.s >= SatMin && c.v >= ValMin
  }

  /** Detection's test: the HSV window, then dark pixels (channel sum below 120) are skipped. */
  predicate IsBallColour(r: int, g: int, b: int)
    ensures IsBallColour(r, g, b) ==> r + g + b >= MinChannelSum && !(r == g == b)
  {
    HsvMatches(RgbToHsv(r, g, b)) && !(r + g + b < MinChannelSum)
  }

  /** Calibration's test: the same HSV window but a STRICT channel-sum bound. */
  predicate IsBallColourStrict(r: int, g: int, b: int)
    ensures IsBallColourStrict(r, g, b) ==> IsBallColour(r, g, b) && r + g + b != MinChannelSum
  {
    HsvMatches(RgbToHsv(r, g, b)) && r + g + b > MinChannelSum
  }

  lemma DivBetween(a: real, d: real, lo: real, hi: real)
    requires d > 0.0 && lo * d <= a <= hi * d
    ensures lo <= a / d <= hi
  {
  }

  /** On bytes the conversion yields value = max/255, saturation in [0, 1] (0 on black and
      on greys) and hue in [0, 360) (0 on greys). */
  lemma HsvRanges(r: int, g: int, b: int)
    requires IsByte(r) && IsByte(g) && IsByte(b)
    ensures var c := RgbToHsv(r, g, b);
      && c.v == Max3(r as real, g as real, b as real) / 255.0
      && 0.0 <= c.s <= 1.0
      && 0.0 <= c.h < 360.0
      && (r == g == b ==> c.h == 0.0 && c.s == 0.0)
      && (r == 0 && g == 0 && b == 0 ==> c.s == 0.0)
  {
    var rr := r as real / 255.0;
    var gg := g as real / 255.0;
    var bb := b as real / 255.0;
    var mx := Max3(rr, gg, bb);
    var mn := Min3(rr, gg, bb);
    var d := mx - mn;
    assert Max3(r as real, g as real, b as real) / 255.0 == mx;
    if mx != 0.0 {
      assert 0.0 <= mn;
      DivBetween(d, mx, 0.0, 1.0);
    }
    HueSectors(r, g, b);
  }

  /** Each hue sector belongs to the channel that is largest (ties resolved red, then green):
      red gives [0, 60] or [300, 360), green [60, 180], blue [180, 300]. */
  lemma HueSectors(r: int, g: int, b: int)
    requires IsByte(r) && IsByte(g) && IsByte(b)
    ensures var c := RgbToHsv(r, g, b);
      && (r >= g && r >= b && g >= b ==> 0.0 <= c.h <= 60.0)
      && (r >= g && r >= b && g < b ==> 300.0 <= c.h < 360.0)
      && (r < g && g >= b ==> 60.0 <= c.h <= 180.0)
      && (r < b && g < b ==> 180.0 <= c.h <= 300.0)
  {
    if r >= g && r >= b {
      RedHue(r, g, b);
    } else if g >= b {
      GreenHue(r, g, b);
    } else {
      BlueHue(r, g, b);
    }
  }

  /** Red largest: hue in [0, 60] when green is at least blue, else in [300, 360). */
  lemma RedHue(r: int, g: int, b: int)
    requires IsByte(r) && IsByte(g) && IsByte(b) && r >= g && r >= b
    ensures var c := RgbToHsv(r, g, b);
      && (g >= b ==> 0.0 <= c.h <= 60.0)
      && (g < b ==> 300.0 <= c.h < 360.0)
  {
    var rr, gg, bb := r as real / 255.0, g as real / 255.0, b as real / 255.0;
    if g >= b {
      if r > b {
        DivBetween(gg - bb, rr - bb, 0.0, 1.0);
      }
    } else {
      RedHueAboveBlue(r, g, b);
    }
  }

  /** Red largest and blue above green: the hue wraps round to [300, 360). */
  lemma RedHueAboveBlue(r: int, g: int, b: int)
    requires IsByte(r) && IsByte(g) && IsByte(b) && r >= b > g
    ensures 300.0 <= RgbToHsv(r, g, b).h < 360.0
  {
    var rr, gg, bb := r as real / 255.0, g as real / 255.0, b as real / 255.0;
    var d := rr - gg;
    assert Max3(rr, gg, bb) == rr && Min3(rr, gg, bb) == gg;
    DivBetween(gg - bb, d, -1.0, 0.0);
    DivNegative(gg - bb, d);
  }

  lemma DivNegative(a: real, d: real)
    requires a < 0.0 && d > 0.0
    ensures a / d < 0.0
  {
  }

  /** Green largest (and above red): hue in [60, 180]. */
  lemma GreenHue(r: int, g: int, b: int)
    requires IsByte(r) && IsByte(g) && IsByte(b) && r < g && g >= b
    ensures 60.0 <= RgbToHsv(r, g, b).h <= 180.0
  {
    var rr, gg, bb := r as real / 255.0, g as real / 255.0, b as real / 255.0;
    DivBetween(bb - rr, gg - Min3(rr, gg, bb), -1.0, 1.0);
  }

  /** Blue strictly largest: hue in [180, 300]. */
  lemma BlueHue(r: int, g: int, b: int)
    requires IsByte(r) && IsByte(g) && IsByte(b) && r < b && g < b
    ensures 180.0 <= RgbToHsv(r, g, b).h <= 300.0
  {
    var rr, gg, bb := r as real / 255.0, g as real / 255.0, b as real / 255.0;
    DivBetween(rr - gg, bb - Min3(rr, gg, bb), -1.0, 1.0);
  }

  /** With red the largest channel and green at least blue, the hue is 60 (g - b) / (r - b). */
  lemma RedSectorHue(r: int, g: int, b: int)
    requires IsByte(r) && IsByte(g) && IsByte(b) && r >= g >= b && r > b
    ensures RgbToHsv(r, g, b).h == 60.0 * ((g - b) as real / (r - b) as real)
  {
    var rr := r as real / 255.0;
    var gg := g as real / 255.0;
    var bb := b as real / 255.0;
    assert Max3(rr, gg, bb) == rr && Min3(rr, gg, bb) == bb;
    var d := rr - bb;
    assert gg - bb == (g - b) as real / 255.0;
    assert d == (r - b) as real / 255.0;
    ScaledRatio((g - b) as real, (r - b) as real, 255.0);
  }

  lemma ScaledRatio(a: real, e: real, k: real)
    requires e > 0.0 && k > 0.0
    ensures (a / k) / (e / k) == a / e
  {
  }

  /** No byte triple whose channels sum to exactly 120 passes the HSV window: value >= 0.45
      forces the largest channel to 115 or more, so the other two sum to at most 5 and the
      hue is either below 3 degrees (red largest) or at least 60 (green or blue largest). */
  lemma NoMatchAtChannelSumBound(r: int, g: int, b: int)
    requires IsByte(r) && IsByte(g) && IsByte(b) && r + g + b == MinChannelSum
    ensures !HsvMatches(RgbToHsv(r, g, b))
  {
    var c := RgbToHsv(r, g, b);
    HsvRanges(r, g, b);
    HueSectors(r, g, b);
    if HsvMatches(c) {
      var m := Max3(r as real, g as real, b as real);
      assert m >= 114.75;
      assert r >= g && r >= b && g >= b by {
        if !(r >= g && r >= b) || g < b {
          assert false;
        }
      }
      assert r >= 115;
      RedSectorHue(r, g, b);
      DivBetween((g - b) as real, (r - b) as real, 0.0, 5.0 / 110.0);
      assert false;
    }
  }

  /** The detection test (sum >= 120) and the calibration test (sum > 120) are written
      differently but accept exactly the same byte triples. */
  lemma {:induction false} TestsAgreeOnBytes(r: int, g: int, b: int)
    requires IsByte(r) && IsByte(g) && IsByte(b)
    ensures IsBallColour(r, g, b) <==> IsBallColourStrict(r, g, b)
  {
    if r + g + b == MinChannelSum {
      NoMatchAtChannelSumBound(r, g, b);
    }
  }
}
