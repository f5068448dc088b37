/** The calculator's state as a value, and the steps of
    calculate_antenna_params as functions on it. A step either completes
    and gives the new state, or raises; a step that raises has not yet
    assigned its own field, so the state it leaves is the one it found. */
module Steps {
  import opened Basics
  import opened Substrates
  import opened Formulas

  /** The five derived fields of the calculator. */
  datatype Design = Design(
    w: Option<real>,
    l: Option<real>,
    feedLineW: Option<real>,
    feedLineL: Option<real>,
    feedLineClearance: Option<real>)

  /** The state of a freshly constructed calculator: nothing computed yet. */
  const Unset: Design := Design(None, None, None, None, None)

  /** The state a call leaves behind and how the call ended. */
  datatype Run = Run(design: Design, outcome: Outcome)

  /** The run of a single step from state `d`. */
  function Apply(d: Design, step: Result<Design>): (r: Run)
    ensures r.outcome.Pass? <==> step.Ok?
    ensures step.Ok? ==> r.design == step.value
    ensures step.Err? ==> r == Run(d, Fail(step.error))
  {
    match step
    case Ok(next) => Run(next, Pass)
    case Err(e) => Run(d, Fail(e))
  }

  /** calculate_patch_width: sets `w`, and only `w`. */
  function WidthStep(m: MathLib, s: Substrate, f: real, d: Design): (r: Result<Design>)
    ensures r.Ok? <==> PatchWidth(m, s, f).Ok?
    ensures r.Ok? ==> r.value == d.(w := Some(PatchWidth(m, s, f).value))
  {
    match PatchWidth(m, s, f)
    case Ok(v) => Ok(d.(w := Some(v)))
    case Err(e) => Err(e)
  }

  /** calculate_patch_length: reads `w`, sets `l` and nothing else. An
      unset width is a TypeError before any formula runs. */
  function LengthStep(m: MathLib, s: Substrate, f: real, d: Design): (r: Result<Design>)
    ensures d.w.None? ==> r == Err(NoneOperand)
    ensures d.w.Some? ==> (r.Ok? <==> PatchLength(m, s, f, d.w.value).Ok?)
    ensures r.Ok? ==> d.w.Some? && r.value == d.(l := Some(PatchLength(m, s, f, d.w.value).value))
    ensures r.Err? && d.w.Some? ==> r.error == PatchLength(m, s, f, d.w.value).error
  {
    if d.w.None? then Err(NoneOperand)
    else
      match PatchLength(m, s, f, d.w.value)
      case Ok(v) => Ok(d.(l := Some(v)))
      case Err(e) => Err(e)
  }

  /** The override rule of calculate_antenna_params: a truthy
      `feedLineW` is kept as it is; an unset or zero one is replaced by
      the formula's value for the target impedance. */
  function FeedWidthStep(m: MathLib, s: Substrate, d: Design): (r: Result<Design>)
    ensures Truthy(d.feedLineW) ==> r == Ok(d)
    ensures !Truthy(d.feedLineW) ==>
              (r.Ok? <==> FeedWidth(m, s, FeedImpedance).Ok?) &&
              (r.Ok? ==> r.value == d.(feedLineW := Some(FeedWidth(m, s, FeedImpedance).value)))
  {
    if Truthy(d.feedLineW) then Ok(d)
    else
      match FeedWidth(m, s, FeedImpedance)
      case Ok(v) => Ok(d.(feedLineW := Some(v)))
      case Err(e) => Err(e)
  }

  /** calculate_inset_feed_length: reads `w` and `l`, sets `feedLineL`
      and nothing else. */
  function InsetStep(m: MathLib, s: Substrate, impedance: real, d: Design): (r: Result<Design>)
    ensures r.Ok? <==> InsetFeedLength(m, s, d.w, d.l, impedance).Ok?
    ensures r.Ok? ==>
              r.value == d.(feedLineL := Some(InsetFeedLength(m, s, d.w, d.l, impedance).value))
  {
    match InsetFeedLength(m, s, d.w, d.l, impedance)
    case Ok(v) => Ok(d.(feedLineL := Some(v)))
    case Err(e) => Err(e)
  }

  /** calculate_inset_feed_clearance: reads `feedLineW` and sets
      `feedLineClearance` when the rule gives a value; from width 5 on the
      stored clearance is left exactly as it was. An unset feed width is
      a TypeError. Nothing but the clearance changes. */
  function ClearanceStep(d: Design): (r: Result<Design>)
    ensures r.Err? <==> d.feedLineW.None?
    ensures r.Err? ==> r.error == NoneOperand
    ensures r.Ok? ==> r.value.(feedLineClearance := d.feedLineClearance) == d
    ensures r.Ok? && d.feedLineW.value < 5.0 ==>
              r.value.feedLineClearance == Clearance(d.feedLineW.value)
    ensures r.Ok? && d.feedLineW.value >= 5.0 ==>
              r.value.feedLineClearance == d.feedLineClearance
  {
    if d.feedLineW.None? then Err(NoneOperand)
    else
      match Clearance(d.feedLineW.value)
      case Some(c) => Ok(d.(feedLineClearance := Some(c)))
      case None => Ok(d)
  }

  /** calculate_antenna_params: width, length, feed width (unless
      overridden), inset length at the target impedance, clearance, in
      that order. The first step that raises ends the run; the fields the
      earlier steps set stay set. */
  function AntennaParams(m: MathLib, s: Substrate, f: real, d: Design): (r: Run)
    ensures PatchWidth(m, s, f).Err? ==> r == Run(d, Fail(PatchWidth(m, s, f).error))
    ensures r.outcome.Pass? ==>
              r.design.w.Some? && r.design.l.Some? && r.design.feedLineW.Some? && r.design.feedLineL.Some?
    ensures r.outcome.Fail? ==>
              r.design.feedLineL == d.feedLineL && r.design.feedLineClearance == d.feedLineClearance
  {
    match WidthStep(m, s, f, d)
    case Err(e) => Run(d, Fail(e))
    case Ok(d1) =>
      match LengthStep(m, s, f, d1)
      case Err(e) => Run(d1, Fail(e))
      case Ok(d2) =>
        match FeedWidthStep(m, s, d2)
        case Err(e) => Run(d2, Fail(e))
        case Ok(d3) =>
          match InsetStep(m, s, FeedImpedance, d3)
          case Err(e) => Run(d3, Fail(e))
          case Ok(d4) => Apply(d4, ClearanceStep(d4))
  }

  /** After a run that completes, the width, length, feed width and inset
      length are all set. */
  lemma AntennaParamsSetsAll(m: MathLib, s: Substrate, f: real, d: Design)
    requires AntennaParams(m, s, f, d).outcome.Pass?
    ensures AntennaParams(m, s, f, d).design.w.Some?
    ensures AntennaParams(m, s, f, d).design.l.Some?
    ensures AntennaParams(m, s, f, d).design.feedLineW.Some?
    ensures AntennaParams(m, s, f, d).design.feedLineL.Some?
  {
    var d1 := WidthStep(m, s, f, d).value;
    var d2 := LengthStep(m, s, f, d1).value;
    var d3 := FeedWidthStep(m, s, d2).value;
    var d4 := InsetStep(m, s, FeedImpedance, d3).value;
    assert AntennaParams(m, s, f, d) == Apply(d4, ClearanceStep(d4));
  }

  /** The values of a completed run follow the dependency order: the
      width is the formula's value, the length is computed from that
      width, and the inset length from that width and length, at the
      target impedance. */
  lemma AntennaParamsOrder(m: MathLib, s: Substrate, f: real, d: Design)
    requires AntennaParams(m, s, f, d).outcome.Pass?
    ensures var out := AntennaParams(m, s, f, d).design;
      out.w == Some(PatchWidth(m, s, f).value) &&
      out.l == Some(PatchLength(m, s, f, out.w.value).value) &&
      out.feedLineL == Some(InsetFeedLength(m, s, out.w, out.l, FeedImpedance).value)
  {
    var d1 := WidthStep(m, s, f, d).value;
    var d2 := LengthStep(m, s, f, d1).value;
    var d3 := FeedWidthStep(m, s, d2).value;
    var d4 := InsetStep(m, s, FeedImpedance, d3).value;
    assert AntennaParams(m, s, f, d) == Apply(d4, ClearanceStep(d4));
  }

  /** The width formula decides how a run starts: if it raises, the run
      ends there with nothing changed; otherwise its value is the width
      the run leaves. The run fails the effective-permittivity guard
      exactly when the width computes and the guard rejects it. */
  lemma AntennaParamsWidth(m: MathLib, s: Substrate, f: real, d: Design)
    ensures PatchWidth(m, s, f).Err? ==>
              AntennaParams(m, s, f, d) == Run(d, Fail(PatchWidth(m, s, f).error))
    ensures PatchWidth(m, s, f).Ok? ==>
              AntennaParams(m, s, f, d).design.w == Some(PatchWidth(m, s, f).value)
    ensures AntennaParams(m, s, f, d).outcome == Fail(EpsilonEffUndefined) <==>
              PatchWidth(m, s, f).Ok? && EpsilonEff(m, s, PatchWidth(m, s, f).value).Err?
  {
    match WidthStep(m, s, f, d)
    case Err(_) =>
    case Ok(d1) =>
      match LengthStep(m, s, f, d1)
      case Err(_) =>
      case Ok(d2) =>
        match FeedWidthStep(m, s, d2)
        case Err(_) =>
        case Ok(d3) =>
          match InsetStep(m, s, FeedImpedance, d3)
          case Err(_) =>
          case Ok(d4) =>
            assert AntennaParams(m, s, f, d) == Apply(d4, ClearanceStep(d4));
  }

  /** A truthy feed width set before the run is never overwritten,
      whether the run completes or not; an unset or zero one is replaced
      by the formula's value when the run completes. */
  lemma AntennaParamsFeedOverride(m: MathLib, s: Substrate, f: real, d: Design)
    ensures Truthy(d.feedLineW) ==> AntennaParams(m, s, f, d).design.feedLineW == d.feedLineW
    ensures !Truthy(d.feedLineW) && AntennaParams(m, s, f, d).outcome.Pass? ==>
              AntennaParams(m, s, f, d).design.feedLineW == Some(FeedWidth(m, s, FeedImpedance).value)
  {
    match WidthStep(m, s, f, d)
    case Err(_) =>
    case Ok(d1) =>
      match LengthStep(m, s, f, d1)
      case Err(_) =>
      case Ok(d2) =>
        match FeedWidthStep(m, s, d2)
        case Err(_) =>
        case Ok(d3) =>
          match InsetStep(m, s, FeedImpedance, d3)
          case Err(_) =>
          case Ok(d4) =>
            assert AntennaParams(m, s, f, d) == Apply(d4, ClearanceStep(d4));
  }

  /** After a completed run the clearance is the rule's value for the
      final feed width when that width is below 5, and otherwise the
      clearance the calculator already had; so it is set exactly when
      the feed width is below 5 or it was set before. */
  lemma AntennaParamsClearance(m: MathLib, s: Substrate, f: real, d: Design)
    requires AntennaParams(m, s, f, d).outcome.Pass?
    ensures var out := AntennaParams(m, s, f, d).design;
      out.feedLineW.Some? &&
      out.feedLineClearance ==
        (if out.feedLineW.value < 5.0 then Clearance(out.feedLineW.value) else d.feedLineClearance)
    ensures var out := AntennaParams(m, s, f, d).design;
      out.feedLineClearance.Some? <==> out.feedLineW.value < 5.0 || d.feedLineClearance.Some?
  {
    var d1 := WidthStep(m, s, f, d).value;
    var d2 := LengthStep(m, s, f, d1).value;
    var d3 := FeedWidthStep(m, s, d2).value;
    var d4 := InsetStep(m, s, FeedImpedance, d3).value;
    assert AntennaParams(m, s, f, d) == Apply(d4, ClearanceStep(d4));
    assert d4.feedLineClearance == d.feedLineClearance;
  }

  /** A run that raises has never reached the inset-length or clearance
      assignments: it leaves both fields as they were, and it never
      raises the TypeError of an unset operand. */
  lemma AntennaParamsFailure(m: MathLib, s: Substrate, f: real, d: Design)
    requires AntennaParams(m, s, f, d).outcome.Fail?
    ensures AntennaParams(m, s, f, d).design.feedLineL == d.feedLineL
    ensures AntennaParams(m, s, f, d).design.feedLineClearance == d.feedLineClearance
    ensures AntennaParams(m, s, f, d).outcome.error != NoneOperand
  {
    match WidthStep(m, s, f, d)
    case Err(_) =>
    case Ok(d1) =>
      match LengthStep(m, s, f, d1)
      case Err(_) =>
      case Ok(d2) =>
        match FeedWidthStep(m, s, d2)
        case Err(_) =>
        case Ok(d3) =>
          match InsetStep(m, s, FeedImpedance, d3)
          case Err(_) =>
          case Ok(d4) =>
  }

  /** No run clears a field: whatever was set before is still set. */
  lemma AntennaParamsOnlyFills(m: MathLib, s: Substrate, f: real, d: Design)
    ensures var out := AntennaParams(m, s, f, d).design;
      (d.w.Some? ==> out.w.Some?) && (d.l.Some? ==> out.l.Some?) &&
      (d.feedLineW.Some? ==> out.feedLineW.Some?) &&
      (d.feedLineL.Some? ==> out.feedLineL.Some?) &&
      (d.feedLineClearance.Some? ==> out.feedLineClearance.Some?)
  {
    match WidthStep(m, s, f, d)
    case Err(_) =>
    case Ok(d1) =>
      match LengthStep(m, s, f, d1)
      case Err(_) =>
      case Ok(d2) =>
        match FeedWidthStep(m, s, d2)
        case Err(_) =>
        case Ok(d3) =>
          match InsetStep(m, s, FeedImpedance, d3)
          case Err(_) =>
          case Ok(d4) =>
            assert AntennaParams(m, s, f, d) == Apply(d4, ClearanceStep(d4));
  }

  /** Running the calculation again after it completed changes nothing
      and completes again. */
  lemma AntennaParamsIdempotent(m: MathLib, s: Substrate, f: real, d: Design)
    requires AntennaParams(m, s, f, d).outcome.Pass?
    ensures AntennaParams(m, s, f, AntennaParams(m, s, f, d).design) == AntennaParams(m, s, f, d)
  {
    var out := AntennaParams(m, s, f, d).design;
    AntennaParamsOrder(m, s, f, d);
    AntennaParamsClearance(m, s, f, d);
    AntennaParamsFeedOverride(m, s, f, d);
    var e1 := WidthStep(m, s, f, out).value;
    assert e1 == out;
    var e2 := LengthStep(m, s, f, e1).value;
    assert e2 == out;
    var e3 := FeedWidthStep(m, s, e2).value;
    assert e3 == out;
    var e4 := InsetStep(m, s, FeedImpedance, e3).value;
    assert e4 == out;
    assert ClearanceStep(out) == Ok(out);
  }

  /** A fresh calculator on a valid substrate, with a sound math library:
      a zero frequency raises ZeroDivisionError and sets nothing; a
      negative one sets a negative width and then fails the effective
      permittivity guard; a positive one gets at least a positive width
      and never fails that guard. */
  lemma FreshRunByFrequency(m: MathLib, s: Substrate, f: real)
    requires Sound(m) && Valid(s)
    ensures f == 0.0 ==> AntennaParams(m, s, f, Unset) == Run(Unset, Fail(ZeroDivision))
    ensures f < 0.0 ==>
              AntennaParams(m, s, f, Unset).outcome == Fail(EpsilonEffUndefined) &&
              AntennaParams(m, s, f, Unset).design.w.Some? &&
              AntennaParams(m, s, f, Unset).design.w.value < 0.0 &&
              AntennaParams(m, s, f, Unset).design.(w := None) == Unset
    ensures f > 0.0 ==>
              AntennaParams(m, s, f, Unset).design.w.Some? &&
              AntennaParams(m, s, f, Unset).design.w.value > 0.0 &&
              AntennaParams(m, s, f, Unset).outcome != Fail(EpsilonEffUndefined)
  {
    PatchWidthSign(m, s, f);
    AntennaParamsWidth(m, s, f, Unset);
    if f < 0.0 {
      var d1 := Unset.(w := Some(PatchWidth(m, s, f).value));
      assert WidthStep(m, s, f, Unset) == Ok(d1);
      assert LengthStep(m, s, f, d1) == Err(EpsilonEffUndefined);
    }
  }

  /** With a sound math library, a valid substrate of permittivity above
      1 and a positive frequency, the length and feed width always
      compute, and a fresh calculator completes exactly when the inset
      formula does for the computed width and length: when the edge
      resistance is non-zero and the target impedance does not exceed it. */
  lemma FreshRunCompletes(m: MathLib, s: Substrate, f: real)
    requires Sound(m) && Valid(s) && s.er > 1.0 && f > 0.0
    ensures var w := PatchWidth(m, s, f).value;
      PatchWidth(m, s, f).Ok? && PatchLength(m, s, f, w).Ok? &&
      var l := PatchLength(m, s, f, w).value;
      (AntennaParams(m, s, f, Unset).outcome.Pass? <==>
         l != 0.0 && FeedImpedance / EdgeResistance(m, s.er, w, l) <= 1.0)
  {
    PatchWidthSign(m, s, f);
    var w := PatchWidth(m, s, f).value;
    PatchLengthDefined(m, s, f, w);
    var l := PatchLength(m, s, f, w).value;
    FeedWidthDefined(m, s, FeedImpedance);
    var d1 := Unset.(w := Some(w));
    var d2 := d1.(l := Some(l));
    var d3 := d2.(feedLineW := Some(FeedWidth(m, s, FeedImpedance).value));
    assert WidthStep(m, s, f, Unset) == Ok(d1);
    assert LengthStep(m, s, f, d1) == Ok(d2);
    assert FeedWidthStep(m, s, d2) == Ok(d3);
    if l != 0.0 {
      InsetFeedLengthFailures(m, s, w, l, FeedImpedance);
    } else {
      assert EdgeResistance(m, s.er, w, l) == 0.0 by {
        assert m.pow(l / w, 2.0) == 0.0;
      }
    }
    if InsetStep(m, s, FeedImpedance, d3).Ok? {
      var d4 := InsetStep(m, s, FeedImpedance, d3).value;
      assert ClearanceStep(d4).Ok?;
    }
  }
}
