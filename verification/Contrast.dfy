/**
 Menu theme contrast: source-over blending (section 9.1.4 of W3C Compositing and Blending Level 1)
 and the contrast ratio (Success Criterion 1.4.3 of WCAG 2.1), over real numbers. The transfer
 curve of a colour channel is a parameter: monotone, from 0 at 0 to 1 at 255.
 */
module Contrast {
  import opened Wrappers

  datatype Color = Color(r: real, g: real, b: real, a: real)

  predicate HasAlpha(c: Color) { 0.0 <= c.a <= 1.0 }

  function OverAlpha(fa: real, ba: real): real { fa + ba * (1.0 - fa) }

  /** One channel of the result, given the resulting alpha. */
  function OverChannel(f: real, fa: real, b: real, ba: real, a: real): real
    requires a > 0.0
  {
    (f * fa + b * ba * (1.0 - fa)) / a
  }

  /** Foreground over background; nothing visible has the all-zero normal form. */
  function Blend(f: Color, b: Color): Color {
    var a := OverAlpha(f.a, b.a);
    if a <= 0.0 then Color(0.0, 0.0, 0.0, 0.0)
    else
      Color(OverChannel(f.r, f.a, b.r, b.a, a), OverChannel(f.g, f.a, b.g, b.a, a), OverChannel(f.b, f.a, b.b, b.a, a),
            a)
  }

  // ---------------------------------------------------------------- alpha

  lemma AlphaRange(fa: real, ba: real)
    requires 0.0 <= fa <= 1.0 && 0.0 <= ba <= 1.0
    ensures 0.0 <= OverAlpha(fa, ba) <= 1.0
    ensures OverAlpha(fa, ba) >= fa
    ensures OverAlpha(fa, ba) == 0.0 <==> fa == 0.0 && ba == 0.0
    ensures OverAlpha(fa, 1.0) == 1.0
  {
    assert ba * (1.0 - fa) >= 0.0;
    assert (1.0 - ba) * (1.0 - fa) >= 0.0;
    assert (1.0 - ba) * (1.0 - fa) == 1.0 - OverAlpha(fa, ba);
  }

  lemma AlphaAssociates(xa: real, ya: real, za: real)
    ensures OverAlpha(xa, OverAlpha(ya, za)) == OverAlpha(OverAlpha(xa, ya), za)
  {
    Distribute(ya, za * (1.0 - ya), 1.0 - xa);
    assert za * (1.0 - ya) * (1.0 - xa) == za * ((1.0 - ya) * (1.0 - xa));
    assert (1.0 - ya) * (1.0 - xa) == 1.0 - (xa + ya * (1.0 - xa));
  }

  lemma Distribute(p: real, q: real, k: real)
    ensures (p + q) * k == p * k + q * k
  {
  }

  // ---------------------------------------------------------------- one channel

  lemma Cancel(n: real, a: real)
    requires a > 0.0
    ensures n / a * a == n
  {
  }

  /** Weighted by its alpha, the result is the sum of what both layers contribute. */
  lemma Premultiplied(f: real, fa: real, b: real, ba: real, a: real)
    requires a > 0.0
    ensures OverChannel(f, fa, b, ba, a) * a == f * fa + b * ba * (1.0 - fa)
  {
    Cancel(f * fa + b * ba * (1.0 - fa), a);
  }

  /** A channel weighted by its alpha; an invisible colour weighs nothing. */
  function Weighted(f: real, fa: real, b: real, ba: real): real { f * fa + b * ba * (1.0 - fa) }

  lemma WeightedAssociates(x: real, xa: real, y: real, ya: real, z: real, za: real, yz: real, xy: real)
    requires yz * OverAlpha(ya, za) == Weighted(y, ya, z, za)
    requires xy * OverAlpha(xa, ya) == Weighted(x, xa, y, ya)
    ensures Weighted(x, xa, yz, OverAlpha(ya, za)) == Weighted(xy, OverAlpha(xa, ya), z, za)
  {
    var k := 1.0 - xa;
    Distribute(y * ya, z * za * (1.0 - ya), k);
    assert z * za * (1.0 - ya) * k == z * za * ((1.0 - ya) * k);
    assert (1.0 - ya) * k == 1.0 - (xa + ya * k);
  }

  /** The channel of a blend, weighted: also when the blend is invisible. */
  lemma BlendWeighs(f: Color, b: Color)
    requires HasAlpha(f) && HasAlpha(b)
    ensures
      var c := Blend(f, b);
      && HasAlpha(c) && c.a == OverAlpha(f.a, b.a)
      && c.r * c.a == Weighted(f.r, f.a, b.r, b.a)
      && c.g * c.a == Weighted(f.g, f.a, b.g, b.a)
      && c.b * c.a == Weighted(f.b, f.a, b.b, b.a)
  {
    AlphaRange(f.a, b.a);
    var a := OverAlpha(f.a, b.a);
    if a > 0.0 {
      Premultiplied(f.r, f.a, b.r, b.a, a);
      Premultiplied(f.g, f.a, b.g, b.a, a);
      Premultiplied(f.b, f.a, b.b, b.a, a);
    }
  }

  /** Blending is associative, the all-zero normal form included. */
  lemma BlendAssociates(x: Color, y: Color, z: Color)
    requires HasAlpha(x) && HasAlpha(y) && HasAlpha(z)
    ensures Blend(x, Blend(y, z)) == Blend(Blend(x, y), z)
  {
    hide OverAlpha, Weighted, Blend;
    var yz, xy := Blend(y, z), Blend(x, y);
    BlendWeighs(y, z);
    BlendWeighs(x, y);
    AlphaAssociates(x.a, y.a, z.a);
    WeightedAssociates(x.r, x.a, y.r, y.a, z.r, z.a, yz.r, xy.r);
    WeightedAssociates(x.g, x.a, y.g, y.a, z.g, z.a, yz.g, xy.g);
    WeightedAssociates(x.b, x.a, y.b, y.a, z.b, z.a, yz.b, xy.b);
    SameBlend(x, yz, xy, z);
  }

  /** A blend is determined by its alpha and its weighted channels. */
  lemma SameBlend(f: Color, b: Color, g: Color, h: Color)
    requires OverAlpha(f.a, b.a) == OverAlpha(g.a, h.a)
    requires Weighted(f.r, f.a, b.r, b.a) == Weighted(g.r, g.a, h.r, h.a)
    requires Weighted(f.g, f.a, b.g, b.a) == Weighted(g.g, g.a, h.g, h.a)
    requires Weighted(f.b, f.a, b.b, b.a) == Weighted(g.b, g.a, h.b, h.a)
    ensures Blend(f, b) == Blend(g, h)
  {
  }

  // ---------------------------------------------------------------- bounds

  lemma ChannelBounds(f: real, fa: real, b: real, ba: real)
    requires 0.0 <= fa <= 1.0 && 0.0 <= ba <= 1.0 && OverAlpha(fa, ba) > 0.0
    ensures MinReal(f, b) <= OverChannel(f, fa, b, ba, OverAlpha(fa, ba)) <= MaxReal(f, b)
  {
    var a := OverAlpha(fa, ba);
    var w := ba * (1.0 - fa);
    var c := OverChannel(f, fa, b, ba, a);
    Premultiplied(f, fa, b, ba, a);
    Product(ba, 1.0 - fa);
    assert a == fa + w;
    assert b * ba * (1.0 - fa) == b * w;
    assert c * a == f * fa + b * w;
    Between(f, b, fa, w, c);
  }

  /** A weighted mean lies between what is averaged. */
  lemma Between(f: real, b: real, u: real, v: real, c: real)
    requires u >= 0.0 && v >= 0.0 && u + v > 0.0 && c * (u + v) == f * u + b * v
    ensures MinReal(f, b) <= c <= MaxReal(f, b)
  {
    var low, high := MinReal(f, b), MaxReal(f, b);
    Product(f - low, u);
    Product(b - low, v);
    Product(high - f, u);
    Product(high - b, v);
    assert (c - low) * (u + v) == (f - low) * u + (b - low) * v;
    assert (high - c) * (u + v) == (high - f) * u + (high - b) * v;
    NonNegative(c - low, u + v);
    NonNegative(high - c, u + v);
  }

  lemma NonNegative(x: real, k: real)
    requires k > 0.0 && x * k >= 0.0
    ensures x >= 0.0
  {
    Cancel(x, k);
    assert x < 0.0 ==> x * k < 0.0;
  }

  lemma Product(x: real, y: real)
    requires x >= 0.0 && y >= 0.0
    ensures x * y >= 0.0
  {
  }

  /** Every channel of a visible result lies between the two layers' channels. */
  lemma BlendBounds(f: Color, b: Color)
    requires HasAlpha(f) && HasAlpha(b) && Blend(f, b).a > 0.0
    ensures
      var c := Blend(f, b);
      && MinReal(f.r, b.r) <= c.r <= MaxReal(f.r, b.r)
      && MinReal(f.g, b.g) <= c.g <= MaxReal(f.g, b.g)
      && MinReal(f.b, b.b) <= c.b <= MaxReal(f.b, b.b)
  {
    BlendWeighs(f, b);
    ChannelBounds(f.r, f.a, b.r, b.a);
    ChannelBounds(f.g, f.a, b.g, b.a);
    ChannelBounds(f.b, f.a, b.b, b.a);
  }

  // ---------------------------------------------------------------- contrast

  /** A colour as displays show it: channels between 0 and 255. */
  predicate Displayable(c: Color) {
    0.0 <= c.r <= 255.0 && 0.0 <= c.g <= 255.0 && 0.0 <= c.b <= 255.0 && HasAlpha(c)
  }

  ghost predicate TransferCurve(linear: real -> real) {
    && linear(0.0) == 0.0 && linear(255.0) == 1.0
    && forall x, y {:trigger linear(x), linear(y)} :: 0.0 <= x <= y <= 255.0 ==> linear(x) <= linear(y)
  }

  function Luminance(linear: real -> real, c: Color): real {
    0.2126 * linear(c.r) + 0.7152 * linear(c.g) + 0.0722 * linear(c.b)
  }

  lemma LuminanceRange(linear: real -> real, c: Color)
    requires TransferCurve(linear) && Displayable(c)
    ensures 0.0 <= Luminance(linear, c) <= 1.0
  {
    assert linear(0.0) <= linear(c.r) <= linear(255.0);
    assert linear(0.0) <= linear(c.g) <= linear(255.0);
    assert linear(0.0) <= linear(c.b) <= linear(255.0);
  }

  /** How much each primary and white contribute, whatever the curve is in between. */
  lemma PrimaryLuminances(linear: real -> real, alpha: real)
    requires TransferCurve(linear)
    ensures Luminance(linear, Color(255.0, 0.0, 0.0, alpha)) == 0.2126
    ensures Luminance(linear, Color(0.0, 255.0, 0.0, alpha)) == 0.7152
    ensures Luminance(linear, Color(0.0, 0.0, 255.0, alpha)) == 0.0722
    ensures Luminance(linear, Color(255.0, 255.0, 255.0, alpha)) == 1.0
    ensures Luminance(linear, Color(0.0, 0.0, 0.0, alpha)) == 0.0
  {
  }

  function Ratio(first: real, second: real): real
    requires first >= 0.0 && second >= 0.0
  {
    (MaxReal(first, second) + 0.05) / (MinReal(first, second) + 0.05)
  }

  function ContrastRatio(linear: real -> real, f: Color, b: Color): real
    requires Luminance(linear, f) >= 0.0 && Luminance(linear, b) >= 0.0
  {
    Ratio(Luminance(linear, f), Luminance(linear, b))
  }

  lemma QuotientBounds(high: real, low: real)
    requires 0.0 < low <= high <= 21.0 * low
    ensures 1.0 <= high / low <= 21.0
    ensures high / low == 1.0 <==> high == low
    ensures high / low == 21.0 <==> high == 21.0 * low
  {
    var q := high / low;
    Cancel(high, low);
    assert q * low == high;
    NonNegative(q - 1.0, low);
    NonNegative(21.0 - q, low);
  }

  /**
   The ratio is symmetric and lies between 1 and 21. It is 1 exactly for equal luminance and 21
   exactly for full black against full white.
   */
  lemma RatioRange(first: real, second: real)
    requires 0.0 <= first <= 1.0 && 0.0 <= second <= 1.0
    ensures 1.0 <= Ratio(first, second) <= 21.0 && Ratio(first, second) == Ratio(second, first)
    ensures Ratio(first, second) == 1.0 <==> first == second
    ensures Ratio(first, second) == 21.0 <==> MaxReal(first, second) == 1.0 && MinReal(first, second) == 0.0
  {
    QuotientBounds(MaxReal(first, second) + 0.05, MinReal(first, second) + 0.05);
  }

  lemma RatioTimes(first: real, second: real)
    requires first >= 0.0 && second >= 0.0
    ensures Ratio(first, second) * (MinReal(first, second) + 0.05) == MaxReal(first, second) + 0.05
  {
    Cancel(MaxReal(first, second) + 0.05, MinReal(first, second) + 0.05);
  }

  // ---------------------------------------------------------------- a theme

  /** One required contrast: colours of the theme and the least ratio. */
  datatype Check = Check(foreground: Color, background: Color, minimum: real)

  datatype CheckResult = CheckResult(ratio: real, pass: bool)

  function EffectiveBackground(c: Check, page: Color): Color { Blend(c.background, page) }

  function EffectiveForeground(c: Check, page: Color): Color { Blend(c.foreground, EffectiveBackground(c, page)) }

  /** Over an opaque page both effective colours are opaque and displayable. */
  lemma EffectiveColors(c: Check, page: Color)
    requires Displayable(c.foreground) && Displayable(c.background) && Displayable(page) && page.a == 1.0
    ensures EffectiveBackground(c, page).a == 1.0 && Displayable(EffectiveBackground(c, page))
    ensures EffectiveForeground(c, page).a == 1.0 && Displayable(EffectiveForeground(c, page))
    ensures EffectiveForeground(c, page) == Blend(Blend(c.foreground, c.background), page)
  {
    AlphaRange(c.background.a, 1.0);
    BlendWeighs(c.background, page);
    BlendBounds(c.background, page);
    var background := EffectiveBackground(c, page);
    AlphaRange(c.foreground.a, 1.0);
    BlendWeighs(c.foreground, background);
    BlendBounds(c.foreground, background);
    BlendAssociates(c.foreground, c.background, page);
  }

  ghost predicate ThemeOk(checks: seq<Check>, page: Color) {
    && Displayable(page) && page.a == 1.0
    && forall i :: 0 <= i < |checks| ==> Displayable(checks[i].foreground) && Displayable(checks[i].background)
  }

  lemma CheckRange(linear: real -> real, c: Check, page: Color)
    requires TransferCurve(linear) && Displayable(c.foreground) && Displayable(c.background)
    requires Displayable(page) && page.a == 1.0
    ensures 0.0 <= Luminance(linear, EffectiveForeground(c, page)) <= 1.0
    ensures 0.0 <= Luminance(linear, EffectiveBackground(c, page)) <= 1.0
  {
    EffectiveColors(c, page);
    LuminanceRange(linear, EffectiveForeground(c, page));
    LuminanceRange(linear, EffectiveBackground(c, page));
  }

  /** The ratio is that of the text over its background over the page against the background over the page. */
  predicate Measures(linear: real -> real, c: Check, page: Color, ratio: real) {
    var text := Luminance(linear, Blend(Blend(c.foreground, c.background), page));
    var ground := Luminance(linear, Blend(c.background, page));
    ratio * (MinReal(text, ground) + 0.05) == MaxReal(text, ground) + 0.05
  }

  lemma CheckMeasures(linear: real -> real, c: Check, page: Color)
    requires TransferCurve(linear) && Displayable(c.foreground) && Displayable(c.background)
    requires Displayable(page) && page.a == 1.0
    ensures Luminance(linear, EffectiveForeground(c, page)) >= 0.0
    ensures Luminance(linear, EffectiveBackground(c, page)) >= 0.0
    ensures
      var ratio := ContrastRatio(linear, EffectiveForeground(c, page), EffectiveBackground(c, page));
      1.0 <= ratio <= 21.0 && Measures(linear, c, page, ratio)
  {
    hide Blend, Luminance;
    CheckRange(linear, c, page);
    EffectiveColors(c, page);
    var text := Luminance(linear, EffectiveForeground(c, page));
    var ground := Luminance(linear, EffectiveBackground(c, page));
    hide Ratio;
    RatioTimes(text, ground);
    RatioRange(text, ground);
  }

  /** One check against the page background. */
  function EvaluateCheck(linear: real -> real, c: Check, page: Color): (result: CheckResult)
    requires TransferCurve(linear) && Displayable(c.foreground) && Displayable(c.background)
    requires Displayable(page) && page.a == 1.0
    ensures 1.0 <= result.ratio <= 21.0 && Measures(linear, c, page, result.ratio)
    ensures result.pass <==> result.ratio >= c.minimum
  {
    hide Blend, Luminance, Ratio, Measures;
    CheckRange(linear, c, page);
    CheckMeasures(linear, c, page);
    var ratio := ContrastRatio(linear, EffectiveForeground(c, page), EffectiveBackground(c, page));
    CheckResult(ratio, ratio >= c.minimum)
  }

  /** All checks of a theme, each against the page background. */
  function EvaluateTheme(linear: real -> real, checks: seq<Check>, page: Color): (results: seq<CheckResult>)
    requires TransferCurve(linear) && ThemeOk(checks, page)
    ensures |results| == |checks|
    ensures forall i :: 0 <= i < |checks| ==>
      1.0 <= results[i].ratio <= 21.0 && Measures(linear, checks[i], page, results[i].ratio)
      && (results[i].pass <==> results[i].ratio >= checks[i].minimum)
  {
    if checks == [] then []
    else
      var n := |checks| - 1;
      EvaluateTheme(linear, checks[..n], page) + [EvaluateCheck(linear, checks[n], page)]
  }
}
