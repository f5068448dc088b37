/** The calculator's closed-form formulas, over exact reals and with the
    math library as a parameter. Each formula reports the exception the
    calculator would raise, in the order its expression is evaluated. */
module Formulas {
  import opened Basics
  import opened Substrates

  /** Patch width: c / (2 f sqrt((e_r + 1) / 2)). */
  function PatchWidth(m: MathLib, s: Substrate, f: real): (r: Result<real>)
    ensures r.Err? ==> r.error == MathDomain || r.error == ZeroDivision
    ensures r.Ok? ==> r.value * (2.0 * f * m.sqrt((s.er + 1.0) / 2.0)) == C
  {
    var x := (s.er + 1.0) / 2.0;
    if x < 0.0 then Err(MathDomain)
    else
      var den := 2.0 * f * m.sqrt(x);
      if den == 0.0 then Err(ZeroDivision) else Ok(C / den)
  }

  /** With a valid substrate and a sound math library the width formula
      fails only for a zero frequency, and the width has the frequency's sign. */
  lemma PatchWidthSign(m: MathLib, s: Substrate, f: real)
    requires Sound(m) && Valid(s)
    ensures PatchWidth(m, s, f).Err? <==> f == 0.0
    ensures f == 0.0 ==> PatchWidth(m, s, f) == Err(ZeroDivision)
    ensures f > 0.0 ==> PatchWidth(m, s, f).Ok? && PatchWidth(m, s, f).value > 0.0
    ensures f < 0.0 ==> PatchWidth(m, s, f).Ok? && PatchWidth(m, s, f).value < 0.0
  {
    var x := (s.er + 1.0) / 2.0;
    SqrtPositive(m, x);
    var q := m.sqrt(x);
    if f > 0.0 {
      assert 2.0 * f * q > 0.0;
    } else if f < 0.0 {
      assert 2.0 * f * q < 0.0;
    }
  }

  /** The effective permittivity without the narrow-strip correction:
      (e_r + 1)/2 + (e_r - 1)/2 * (1 + 12 h / width)^-0.5. */
  function BaseEpsilon(m: MathLib, s: Substrate, width: real): real
    requires width > 0.0
  {
    (s.er + 1.0) / 2.0 + (s.er - 1.0) / 2.0 * m.pow(1.0 + 12.0 * s.height / width, -0.5)
  }

  /** The term the narrow-strip branch adds: (e_r - 1)/2 * 0.04 (1 - width/h)^2. */
  function NarrowCorrection(m: MathLib, s: Substrate, width: real): real
    requires s.height > 0.0
  {
    (s.er - 1.0) / 2.0 * (0.04 * m.pow(1.0 - width / s.height, 2.0))
  }

  /** Effective dielectric constant for a strip of the given width. The
      guard rejects a non-positive width, height or permittivity; past it
      the narrow-strip correction is added exactly when the strip is
      narrower than the substrate is high. */
  function EpsilonEff(m: MathLib, s: Substrate, width: real): (r: Result<real>)
    ensures r.Err? <==> width <= 0.0 || s.height <= 0.0 || s.er <= 0.0
    ensures r.Err? ==> r.error == EpsilonEffUndefined
    ensures r.Ok? ==> r.value == BaseEpsilon(m, s, width) +
                                 (if width < s.height then NarrowCorrection(m, s, width) else 0.0)
  {
    if width <= 0.0 || s.height <= 0.0 || s.er <= 0.0 then Err(EpsilonEffUndefined)
    else
      var ratio := width / s.height;
      var p := m.pow(1.0 + 12.0 * s.height / width, -0.5);
      assert ratio < 1.0 <==> width < s.height by {
        QuotientBelowOne(width, s.height);
      }
      if ratio < 1.0 then
        Ok((s.er + 1.0) / 2.0 + (s.er - 1.0) / 2.0 * (p + 0.04 * m.pow(1.0 - ratio, 2.0)))
      else
        Ok((s.er + 1.0) / 2.0 + (s.er - 1.0) / 2.0 * p)
  }

  /** The two branches agree where they meet: at width == height the
      narrow-strip correction vanishes. */
  lemma EpsilonEffBranchesMeet(m: MathLib, s: Substrate)
    requires Sound(m) && s.height > 0.0
    ensures NarrowCorrection(m, s, s.height) == 0.0
  {
    assert m.pow(0.0, 2.0) == 0.0;
  }

  /** For a substrate of permittivity 1 (air) the effective permittivity
      is 1 whatever the width, in either branch. */
  lemma EpsilonEffOfAir(m: MathLib, s: Substrate, width: real)
    requires s.er == 1.0 && s.height > 0.0 && width > 0.0
    ensures EpsilonEff(m, s, width) == Ok(1.0)
  {
    var p := m.pow(1.0 + 12.0 * s.height / width, -0.5);
    assert (s.er - 1.0) / 2.0 * p == 0.0;
    assert BaseEpsilon(m, s, width) == 1.0;
    assert NarrowCorrection(m, s, width) == 0.0;
  }

  /** With a sound math library and e_r >= 1, the effective permittivity
      is at least the mean (e_r + 1)/2 of substrate and air; for a strip
      at least as wide as the substrate is high it is at most e_r. */
  lemma EpsilonEffBounds(m: MathLib, s: Substrate, width: real)
    requires Sound(m) && Valid(s) && s.er >= 1.0 && width > 0.0
    ensures EpsilonEff(m, s, width).Ok?
    ensures EpsilonEff(m, s, width).value >= (s.er + 1.0) / 2.0
    ensures width >= s.height ==> EpsilonEff(m, s, width).value <= s.er
  {
    var base := 1.0 + 12.0 * s.height / width;
    assert 12.0 * s.height / width > 0.0;
    var p := m.pow(base, -0.5);
    assert 0.0 < p < 1.0;
    var k := (s.er - 1.0) / 2.0;
    ProductSign(k, p);
    ProductSign(k, 1.0 - p);
    assert k * p <= k;
    assert BaseEpsilon(m, s, width) == (s.er + 1.0) / 2.0 + k * p;
    if width < s.height {
      var t := 1.0 - width / s.height;
      assert m.pow(t, 2.0) >= 0.0;
      ProductSign(k, 0.04 * m.pow(t, 2.0));
    }
  }

  /** Patch length from the width: c / (2 f sqrt(e_eff)) - 0.824 h (a / b)
      with a = (e_eff + 0.3)(w/h + 0.264) and b = (e_eff - 0.258)(w/h + 0.8).
      Any failure of the effective permittivity is passed on unchanged. */
  function PatchLength(m: MathLib, s: Substrate, f: real, w: real): (r: Result<real>)
    ensures r == Err(EpsilonEffUndefined) <==> EpsilonEff(m, s, w).Err?
    ensures r.Ok? ==> w > 0.0 && s.height > 0.0 && s.er > 0.0
  {
    match EpsilonEff(m, s, w)
    case Err(e) => Err(e)
    case Ok(eEff) =>
      var a := (eEff + 0.3) * (w / s.height + 0.264);
      var b := (eEff - 0.258) * (w / s.height + 0.8);
      if eEff < 0.0 then Err(MathDomain)
      else
        var den := 2.0 * f * m.sqrt(eEff);
        if den == 0.0 then Err(ZeroDivision)
        else if b == 0.0 then Err(ZeroDivision)
        else Ok(C / den - 0.824 * s.height * (a / b))
  }

  /** For a substrate with e_r >= 1, a positive width and a positive
      frequency, the length formula never raises. */
  lemma PatchLengthDefined(m: MathLib, s: Substrate, f: real, w: real)
    requires Sound(m) && Valid(s) && s.er >= 1.0 && f > 0.0 && w > 0.0
    ensures PatchLength(m, s, f, w).Ok?
  {
    EpsilonEffBounds(m, s, w);
    var eEff := EpsilonEff(m, s, w).value;
    SqrtPositive(m, eEff);
    assert 2.0 * f * m.sqrt(eEff) > 0.0;
    assert w / s.height > 0.0;
    assert (eEff - 0.258) * (w / s.height + 0.8) > 0.0;
  }

  /** Width of a microstrip feed line of the given impedance:
      7.48 h / exp(Z sqrt(e_r + 1.41) / 87) - 1.25 cu / 1000. */
  function FeedWidth(m: MathLib, s: Substrate, impedance: real): (r: Result<real>)
    ensures s.er + 1.41 < 0.0 ==> r == Err(MathDomain)
    ensures r.Err? ==> s.er + 1.41 < 0.0 || r == Err(ZeroDivision)
  {
    var a := 7.48 * s.height;
    var x := s.er + 1.41;
    if x < 0.0 then Err(MathDomain)
    else
      var b := m.exp(impedance * m.sqrt(x) / 87.0);
      if b == 0.0 then Err(ZeroDivision) else Ok(a / b - 1.25 * s.cuThickness / 1000.0)
  }

  /** With a valid substrate and a sound math library the feed-width
      formula never raises. */
  lemma FeedWidthDefined(m: MathLib, s: Substrate, impedance: real)
    requires Sound(m) && Valid(s)
    ensures FeedWidth(m, s, impedance).Ok?
  {
    var x := s.er + 1.41;
    assert m.exp(impedance * m.sqrt(x) / 87.0) > 0.0;
  }

  /** Input resistance at the radiating edge of the patch:
      za = 90 (e_r^2 / (e_r - 1)) (l / w)^2. */
  function EdgeResistance(m: MathLib, er: real, w: real, l: real): (r: real)
    requires er != 1.0 && w != 0.0
    ensures Sound(m) ==> (r == 0.0 <==> er == 0.0 || l == 0.0)
  {
    90.0 * (m.pow(er, 2.0) / (er - 1.0)) * m.pow(l / w, 2.0)
  }

  /** With a sound math library, a positive permittivity other than 1 and
      a patch of non-zero size, the edge resistance is negative exactly
      when the permittivity is below 1. */
  lemma EdgeResistanceSign(m: MathLib, er: real, w: real, l: real)
    requires Sound(m) && er > 0.0 && er != 1.0 && w != 0.0 && l != 0.0
    ensures er < 1.0 ==> EdgeResistance(m, er, w, l) < 0.0
    ensures er > 1.0 ==> EdgeResistance(m, er, w, l) > 0.0
  {
    QuotientSign(l, w);
    assert m.pow(er, 2.0) > 0.0 && m.pow(l / w, 2.0) > 0.0;
    QuotientSign(m.pow(er, 2.0), er - 1.0);
    ProductSign(90.0 * (m.pow(er, 2.0) / (er - 1.0)), m.pow(l / w, 2.0));
  }

  /** Inset depth of the feed: acos(sqrt(Z / za)) l / pi. The factor
      e_r^2 / (e_r - 1) is evaluated before the patch dimensions are read,
      so e_r == 1 is reported first. The acos argument is never clamped:
      an argument outside [-1, 1] is an error. */
  function InsetFeedLength(m: MathLib, s: Substrate, w: Option<real>, l: Option<real>, impedance: real): (r: Result<real>)
    ensures s.er == 1.0 ==> r == Err(ZeroDivision)
    ensures s.er != 1.0 && (w.None? || l.None?) ==> r == Err(NoneOperand)
    ensures r.Err? ==> r.error == ZeroDivision || r.error == NoneOperand || r.error == MathDomain
    ensures r.Ok? ==> s.er != 1.0 && w.Some? && l.Some? && w.value != 0.0 &&
                      EdgeResistance(m, s.er, w.value, l.value) != 0.0 &&
                      impedance / EdgeResistance(m, s.er, w.value, l.value) >= 0.0 &&
                      -1.0 <= m.sqrt(impedance / EdgeResistance(m, s.er, w.value, l.value)) <= 1.0
  {
    if s.er - 1.0 == 0.0 then Err(ZeroDivision)
    else if w.None? || l.None? then Err(NoneOperand)
    else if w.value == 0.0 then Err(ZeroDivision)
    else
      var za := EdgeResistance(m, s.er, w.value, l.value);
      if za == 0.0 then Err(ZeroDivision)
      else
        var y := impedance / za;
        if y < 0.0 then Err(MathDomain)
        else
          var root := m.sqrt(y);
          if root < -1.0 || root > 1.0 then Err(MathDomain)
          else Ok(m.acos(root) * l.value / Pi)
  }

  /** The failure cases of the inset length for a set, non-degenerate
      patch and a positive target impedance, under a sound math library:
      e_r == 1 divides by zero; 0 < e_r < 1 makes za negative and the
      square root fails; e_r > 1 fails exactly when Z / za > 1, the acos
      argument being out of range. */
  lemma InsetFeedLengthFailures(m: MathLib, s: Substrate, w: real, l: real, impedance: real)
    requires Sound(m) && Valid(s) && w != 0.0 && l != 0.0 && impedance > 0.0
    ensures s.er == 1.0 ==> InsetFeedLength(m, s, Some(w), Some(l), impedance) == Err(ZeroDivision)
    ensures s.er < 1.0 ==> InsetFeedLength(m, s, Some(w), Some(l), impedance) == Err(MathDomain)
    ensures s.er > 1.0 ==>
              (InsetFeedLength(m, s, Some(w), Some(l), impedance).Err? <==>
               impedance / EdgeResistance(m, s.er, w, l) > 1.0)
    ensures s.er > 1.0 && InsetFeedLength(m, s, Some(w), Some(l), impedance).Err? ==>
              InsetFeedLength(m, s, Some(w), Some(l), impedance).error == MathDomain
  {
    if s.er != 1.0 {
      EdgeResistanceSign(m, s.er, w, l);
      var za := EdgeResistance(m, s.er, w, l);
      QuotientSign(impedance, za);
      if s.er > 1.0 {
        SqrtAboveOne(m, impedance / za);
      }
    }
  }

  /** Clearance around the inset feed, keyed on the feed-line width with
      strict upper bounds 2, 3, 4 and 5. `None` means the rule gives no
      value (width 5 or more) and the stored clearance is left as it was.
      A defined clearance never exceeds the feed width and, for a positive
      width, is more than half of it; it equals the width exactly when
      the width is below 2. */
  function Clearance(feed: real): (r: Option<real>)
    ensures r.Some? <==> feed < 5.0
    ensures r.Some? && feed > 0.0 ==> feed / 2.0 < r.value <= feed
    ensures feed > 0.0 ==> (r == Some(feed) <==> feed < 2.0)
  {
    if feed < 2.0 then Some(feed)
    else if feed < 3.0 then Some(feed / 1.25)
    else if feed < 4.0 then Some(feed / 1.5)
    else if feed < 5.0 then Some(feed / 1.75)
    else None
  }

  /** The brackets of the clearance rule, each closed below and open above. */
  lemma ClearanceBrackets(feed: real)
    ensures feed < 2.0 ==> Clearance(feed) == Some(feed)
    ensures 2.0 <= feed < 3.0 ==> Clearance(feed) == Some(feed / 1.25)
    ensures 3.0 <= feed < 4.0 ==> Clearance(feed) == Some(feed / 1.5)
    ensures 4.0 <= feed < 5.0 ==> Clearance(feed) == Some(feed / 1.75)
    ensures 5.0 <= feed ==> Clearance(feed) == None
  {
  }

  /** At each bracket boundary the upper bracket applies. */
  lemma ClearanceAtBoundaries()
    ensures Clearance(2.0) == Some(1.6)
    ensures Clearance(3.0) == Some(2.0)
    ensures Clearance(4.0) == Some(4.0 / 1.75)
    ensures Clearance(5.0) == None
  {
  }
}
