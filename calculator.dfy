/** The calculator object: a substrate, a frequency and five derived
    fields that its methods fill in place, one step at a time. */
module Calculator {
  import opened Basics
  import opened Substrates
  import opened Formulas
  import opened Steps

  class PatchAntenna {
    const frequency: real
    const substrate: Substrate
    const math: MathLib

    var w: Option<real>                  // width of the patch
    var l: Option<real>                  // length of the patch
    var feedLineW: Option<real>          // width of the feed line; callers may preset it
    var feedLineL: Option<real>          // inset depth of the feed line
    var feedLineClearance: Option<real>  // clearance beside the inset feed

    /** The derived fields as one value. */
    function Fields(): Design
      reads this
    {
      Design(w, l, feedLineW, feedLineL, feedLineClearance)
    }

    /** Stores the substrate and frequency; every derived field starts unset. */
    constructor (substrate: Substrate, frequency: real, math: MathLib)
      requires Valid(substrate)
      ensures this.substrate == substrate && this.frequency == frequency && this.math == math
      ensures Fields() == Unset
    {
      this.substrate := substrate;
      this.frequency := frequency;
      this.math := math;
      w, l, feedLineW, feedLineL, feedLineClearance := None, None, None, None, None;
    }

    /** calculate_patch_width */
    method CalculatePatchWidth() returns (r: Outcome)
      modifies this
      ensures Run(Fields(), r) == Apply(old(Fields()), WidthStep(math, substrate, frequency, old(Fields())))
    {
      match PatchWidth(math, substrate, frequency)
      case Ok(v) =>
        w := Some(v);
        r := Pass;
      case Err(e) =>
        r := Fail(e);
    }

    /** calculate_patch_length */
    method CalculatePatchLength() returns (r: Outcome)
      modifies this
      ensures Run(Fields(), r) == Apply(old(Fields()), LengthStep(math, substrate, frequency, old(Fields())))
    {
      if w.None? {
        return Fail(NoneOperand);
      }
      match PatchLength(math, substrate, frequency, w.value)
      case Ok(v) =>
        l := Some(v);
        r := Pass;
      case Err(e) =>
        r := Fail(e);
    }

    /** calculate_inset_feed_length */
    method CalculateInsetFeedLength(impedance: real) returns (r: Outcome)
      modifies this
      ensures Run(Fields(), r) == Apply(old(Fields()), InsetStep(math, substrate, impedance, old(Fields())))
    {
      match InsetFeedLength(math, substrate, w, l, impedance)
      case Ok(v) =>
        feedLineL := Some(v);
        r := Pass;
      case Err(e) =>
        r := Fail(e);
    }

    /** calculate_inset_feed_clearance */
    method CalculateInsetFeedClearance() returns (r: Outcome)
      modifies this
      ensures Run(Fields(), r) == Apply(old(Fields()), ClearanceStep(old(Fields())))
    {
      if feedLineW.None? {
        return Fail(NoneOperand);
      }
      var fw := feedLineW.value;
      if fw < 2.0 {
        feedLineClearance := Some(fw);
      } else if fw < 3.0 {
        feedLineClearance := Some(fw / 1.25);
      } else if fw < 4.0 {
        feedLineClearance := Some(fw / 1.5);
      } else if fw < 5.0 {
        feedLineClearance := Some(fw / 1.75);
      }
      r := Pass;
    }

    /** calculate_antenna_params: the steps in their fixed order, stopping
        at the first that raises; the feed width is computed only when it
        is unset or zero. */
    method CalculateAntennaParams() returns (r: Outcome)
      modifies this
      ensures Run(Fields(), r) == AntennaParams(math, substrate, frequency, old(Fields()))
    {
      r := CalculatePatchWidth();
      if r.Fail? {
        return;
      }
      r := CalculatePatchLength();
      if r.Fail? {
        return;
      }
      if !Truthy(feedLineW) {
        match FeedWidth(math, substrate, FeedImpedance)
        case Ok(v) =>
          feedLineW := Some(v);
        case Err(e) =>
          return Fail(e);
      }
      r := CalculateInsetFeedLength(FeedImpedance);
      if r.Fail? {
        return;
      }
      r := CalculateInsetFeedClearance();
    }
  }

  /** A caller that presets a non-zero feed width before running the
      calculation finds it unchanged afterwards, however the run ends. */
  method RunWithFeedOverride(a: PatchAntenna, feed: real) returns (r: Outcome)
    requires feed != 0.0
    modifies a
    ensures a.feedLineW == Some(feed)
  {
    a.feedLineW := Some(feed);
    r := a.CalculateAntennaParams();
    AntennaParamsFeedOverride(a.math, a.substrate, a.frequency, old(a.Fields()).(feedLineW := Some(feed)));
  }
}
