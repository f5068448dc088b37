/** The dielectric board: relative permittivity, height and copper
    thickness, validated once at construction and never changed. */
module Substrates {
  import opened Basics

  /** A substrate as the calculator stores it. `height` is kept in mm and
      `cuThickness` in um, the units the constructor receives. */
  datatype Substrate = Substrate(er: real, height: real, cuThickness: real)

  /** What every constructed substrate satisfies. */
  predicate Valid(s: Substrate)
  {
    s.er > 0.0 && s.height > 0.0 && s.cuThickness > 0.0
  }

  /** The substrate constructor. The height is checked first, then the
      copper thickness, then the permittivity, and the first check that
      fails is the one reported. On success the three values are stored
      unchanged. */
  function NewSubstrate(er: real, heightMm: real, cuThicknessUm: real): (r: Result<Substrate>)
    ensures r.Ok? <==> heightMm > 0.0 && cuThicknessUm > 0.0 && er > 0.0
    ensures r.Ok? ==> Valid(r.value) && r.value == Substrate(er, heightMm, cuThicknessUm)
    ensures heightMm <= 0.0 ==> r == Err(HeightNotPositive)
    ensures heightMm > 0.0 && cuThicknessUm <= 0.0 ==> r == Err(CuThicknessNotPositive)
    ensures heightMm > 0.0 && cuThicknessUm > 0.0 && er <= 0.0 ==> r == Err(PermittivityNotPositive)
  {
    if heightMm <= 0.0 then Err(HeightNotPositive)
    else if cuThicknessUm <= 0.0 then Err(CuThicknessNotPositive)
    else if er <= 0.0 then Err(PermittivityNotPositive)
    else Ok(Substrate(er, heightMm, cuThicknessUm))
  }

  /** The board the script uses is accepted; a zero permittivity, a
      negative height and a zero copper thickness are each rejected. */
  lemma NewSubstrateExamples()
    ensures NewSubstrate(4.6, 1.6, 35.0) == Ok(Substrate(4.6, 1.6, 35.0))
    ensures NewSubstrate(0.0, 1.6, 35.0) == Err(PermittivityNotPositive)
    ensures NewSubstrate(4.6, -1.0, 35.0) == Err(HeightNotPositive)
    ensures NewSubstrate(4.6, 1.6, 0.0) == Err(CuThicknessNotPositive)
  {
  }
}
