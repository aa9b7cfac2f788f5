/** What the calibration and the payout engine share: the five household
    archetypes, the β table built from the three inputs, and the power-law
    income transform `1,000,000 * (income / 1,000,000)^α`. The power itself is
    `Math.pow` on floating point; here it is the parameter `pow` of a policy and
    nothing is assumed about it. */
module Fiscal {
  import opened Types

  datatype Archetype = SingleYoung | SingleElder | CoupleYoung | CoupleElder | Child

  /** The tag string under which an archetype is stored in the reference data
      and used as a key of the β table. */
  function TagName(a: Archetype): string
  {
    match a
    case SingleYoung => "single_young"
    case SingleElder => "single_elder"
    case CoupleYoung => "couple_young"
    case CoupleElder => "couple_elder"
    case Child => "child"
  }

  /** The archetype a tag names, if it is one of the five keys of the table. */
  function ParseTag(s: string): (r: Option<Archetype>)
    ensures r.Some? ==> TagName(r.value) == s
    ensures forall a :: TagName(a) == s ==> r == Some(a)
  {
    if s == "single_young" then Some(SingleYoung)
    else if s == "single_elder" then Some(SingleElder)
    else if s == "couple_young" then Some(CoupleYoung)
    else if s == "couple_elder" then Some(CoupleElder)
    else if s == "child" then Some(Child)
    else None
  }

  /** The β table: single young adults weigh 1, elders `elder`, members of
      multi-person households `couple`, an elder in a multi-person household
      the product of the two, children `child`. */
  function Beta(p: BetaParams, a: Archetype): real
  {
    match a
    case SingleYoung => 1.0 * 1.0
    case SingleElder => p.elder * 1.0
    case CoupleYoung => 1.0 * p.couple
    case CoupleElder => p.elder * p.couple
    case Child => p.child
  }

  /** The elder and multi-person factors compose multiplicatively, with the
      single young adult as the unit. */
  lemma BetaFactors(p: BetaParams)
    ensures Beta(p, SingleYoung) == 1.0
    ensures Beta(p, CoupleElder) == Beta(p, SingleElder) * Beta(p, CoupleYoung)
    ensures Beta(p, SingleElder) == p.elder && Beta(p, CoupleYoung) == p.couple
    ensures Beta(p, Child) == p.child
  {
  }

  /** The normalisation constant of the power law (`alpha_offset`). */
  const Scale: real := 1000000.0

  /** α, the three β inputs and the power function the transform uses. */
  datatype Policy = Policy(alpha: real, beta: BetaParams, pow: (real, real) -> real)

  /** `Scale * (x / Scale)^α`. */
  function Decay(policy: Policy, x: real): real
  {
    Scale * policy.pow(x / Scale, policy.alpha)
  }

  /** β × Decay(income) for a positive income, 0 otherwise: the amount one
      person adds to the calibration total and, multiplied by γ, the surplus
      one member receives. */
  function WeightedIncome(policy: Policy, a: Archetype, income: real): (r: real)
    ensures income <= 0.0 ==> r == 0.0
    ensures income > 0.0 ==> r == Beta(policy.beta, a) * Decay(policy, income)
  {
    if Scale > 0.0 && income > 0.0 then Decay(policy, income) * Beta(policy.beta, a) else 0.0
  }
}
