/** γ-calibration: the budget-neutrality coefficient solved over the reference
    population (app/src/hooks/useGammaCalculation.ts). */
module GammaCalculation {
  import opened Types
  import opened Sums
  import opened Fiscal

  /** The parental income as read by `Number(x || 0)`: a missing or
      non-numeric value reads as 0 (a non-numeric one as NaN, which is not
      positive either). */
  function ParentIncome(p: Person): real
  {
    OrZero(p.parentIncome)
  }

  /** Whether the loop reaches the weighting step for `p`: it has a non-empty
      household id and its type is one of the five keys of the β table. */
  predicate Counted(p: Person)
  {
    && p.householdId.Some? && p.householdId.value != ""
    && p.householdType.Some? && ParseTag(p.householdType.value).Some?
  }

  /** What one person adds to `beta_deduct_income_total`. */
  function Contribution(policy: Policy, p: Person): (r: real)
    ensures !Counted(p) ==> r == 0.0
    ensures ParentIncome(p) <= 0.0 ==> r == 0.0
    ensures Counted(p) && ParentIncome(p) > 0.0 ==>
      r == Beta(policy.beta, ParseTag(p.householdType.value).value) * Decay(policy, ParentIncome(p))
  {
    var income := ParentIncome(p);
    match p.householdId
    case None => 0.0
    case Some(id) =>
      if id == "" then 0.0
      else match p.householdType
        case None => 0.0
        case Some(tag) =>
          match ParseTag(tag)
          case None => 0.0
          case Some(a) => WeightedIncome(policy, a, income)
  }

  /** The β-weighted decayed income of the whole reference population. */
  function WeightedTotal(policy: Policy, persons: seq<Person>): real
  {
    SumBy(persons, p => Contribution(policy, p))
  }

  /** γ from the neutrality identity `actual = BI + γ × total`, or 0 when the
      weighted total is exactly 0. */
  function GammaOf(totals: ActualTotals, total: real): (gamma: real)
    ensures total != 0.0 ==> totals.biTotal + gamma * total == totals.actualTotal
    ensures total == 0.0 ==> gamma == 0.0
  {
    if total == 0.0 then 0.0 else (totals.actualTotal - totals.biTotal) / total
  }

  /** Off the degenerate case, γ is the only value meeting the identity. */
  lemma GammaUnique(totals: ActualTotals, total: real, g: real)
    requires total != 0.0
    requires totals.biTotal + g * total == totals.actualTotal
    ensures g == GammaOf(totals, total)
  {
    var r := GammaOf(totals, total);
    assert (g - r) * total == 0.0;
  }

  /** `calculateGamma`: the accumulating loop over the persons, then the
      neutrality formula with its zero fallback. */
  method CalculateGamma(policy: Policy, persons: seq<Person>, totals: ActualTotals) returns (gamma: real)
    ensures gamma == GammaOf(totals, WeightedTotal(policy, persons))
    ensures WeightedTotal(policy, persons) != 0.0 ==>
      totals.biTotal + gamma * WeightedTotal(policy, persons) == totals.actualTotal
    ensures WeightedTotal(policy, persons) == 0.0 ==> gamma == 0.0
  {
    var total := 0.0;
    var i := 0;
    while i < |persons|
      invariant 0 <= i <= |persons|
      invariant total == WeightedTotal(policy, persons[..i])
    {
      var person := persons[i];
      assert persons[..i + 1][..i] == persons[..i];
      var income := ParentIncome(person);
      var skip := person.householdId.None? || person.householdId.value == "";
      if !skip && person.householdType.Some? && ParseTag(person.householdType.value).Some? {
        var beta := Beta(policy.beta, ParseTag(person.householdType.value).value);
        var deduct := 0.0;
        if Scale > 0.0 && income > 0.0 {
          deduct := Decay(policy, income);
        }
        total := total + deduct * beta;
      }
      i := i + 1;
    }
    assert persons[..i] == persons;
    if total == 0.0 {
      gamma := 0.0;
    } else {
      gamma := (totals.actualTotal - totals.biTotal) / total;
    }
  }

  /** The total is a plain sum: it does not depend on the order of the persons. */
  lemma WeightedTotalPermutation(policy: Policy, persons: seq<Person>, others: seq<Person>)
    requires multiset(persons) == multiset(others)
    ensures WeightedTotal(policy, persons) == WeightedTotal(policy, others)
  {
    SumByPermutation(persons, others, p => Contribution(policy, p));
  }

  /** Persons without a household id or with an unknown type can be dropped
      from the population without changing the total. */
  lemma WeightedTotalCountedOnly(policy: Policy, persons: seq<Person>)
    ensures WeightedTotal(policy, Filter(persons, Counted)) == WeightedTotal(policy, persons)
  {
    SumByFilterNonZero(persons, Counted, p => Contribution(policy, p));
  }

  /** With no positive parental income anywhere, the total is 0 and so is γ. */
  lemma NoPositiveIncomeGivesZeroGamma(policy: Policy, persons: seq<Person>, totals: ActualTotals)
    requires forall i :: 0 <= i < |persons| ==> ParentIncome(persons[i]) <= 0.0
    ensures WeightedTotal(policy, persons) == 0.0
    ensures GammaOf(totals, WeightedTotal(policy, persons)) == 0.0
  {
    SumByAllZero(persons, p => Contribution(policy, p));
  }

  /** The same when every counted person's β weight is 0 (elder, couple and
      child weights 0 and no single young adult counted). */
  lemma ZeroWeightsGiveZeroGamma(policy: Policy, persons: seq<Person>, totals: ActualTotals)
    requires policy.beta.elder == 0.0 && policy.beta.couple == 0.0 && policy.beta.child == 0.0
    requires forall i :: 0 <= i < |persons| ==> persons[i].householdType != Some(TagName(SingleYoung))
    ensures GammaOf(totals, WeightedTotal(policy, persons)) == 0.0
  {
    forall i | 0 <= i < |persons|
      ensures Contribution(policy, persons[i]) == 0.0
    {
      var p := persons[i];
      if Counted(p) {
        var a := ParseTag(p.householdType.value).value;
        assert a != SingleYoung;
      }
    }
    SumByAllZero(persons, p => Contribution(policy, p));
  }

  /** The hook's state: the loaded reference data and the current γ, which is
      `None` (null) until both the persons and the totals are there. */
  class GammaState {
    var persons: seq<Person>
    var totals: Option<ActualTotals>
    var gamma: Option<real>

    constructor ()
      ensures persons == [] && totals == None && gamma == None
    {
      persons := [];
      totals := None;
      gamma := None;
    }

    /** A successful load of the two reference files. */
    method Load(loadedPersons: seq<Person>, loadedTotals: ActualTotals)
      modifies this
      ensures persons == loadedPersons && totals == Some(loadedTotals) && gamma == old(gamma)
    {
      persons := loadedPersons;
      totals := Some(loadedTotals);
    }

    /** The effect that recomputes γ on every change of α or β: it does
        nothing until both reference files are loaded and the population is
        non-empty. */
    method Recalculate(policy: Policy)
      modifies this
      ensures persons == old(persons) && totals == old(totals)
      ensures |persons| == 0 || totals.None? ==> gamma == old(gamma)
      ensures |persons| > 0 && totals.Some? ==>
        gamma == Some(GammaOf(totals.value, WeightedTotal(policy, persons)))
    {
      if |persons| == 0 || totals.None? {
        return;
      }
      var g := CalculateGamma(policy, persons, totals.value);
      gamma := Some(g);
    }
  }
}
