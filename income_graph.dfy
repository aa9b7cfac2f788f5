/** The conventional after-tax income the income graph plots
    (app/src/components/IncomeGraph.tsx): the progressive income tax as a
    quick-calculation table of seven brackets, each a rate and a deduction,
    searched front to back for the first bracket containing the income. */
module IncomeGraph {
  import opened Types

  /** A bracket: the incomes from `min` to `max` inclusive (`max == None` is
      the unbounded top bracket) pay `income * rate - deduction`. */
  datatype TaxBracket = TaxBracket(min: real, max: Option<real>, rate: real, deduction: real)

  /** `INCOME_TAX_LIST`, in yen. */
  const IncomeTaxList: seq<TaxBracket> := [
    TaxBracket(1000.0, Some(1949000.0), 0.05, 0.0),
    TaxBracket(1950000.0, Some(3299000.0), 0.1, 97500.0),
    TaxBracket(3300000.0, Some(6949000.0), 0.2, 427500.0),
    TaxBracket(6950000.0, Some(8999000.0), 0.23, 636000.0),
    TaxBracket(9000000.0, Some(17999000.0), 0.33, 1536000.0),
    TaxBracket(18000000.0, Some(39999000.0), 0.4, 2796000.0),
    TaxBracket(40000000.0, None, 0.45, 4796000.0)
  ]

  predicate InBracket(income: real, b: TaxBracket)
  {
    income >= b.min && (b.max.None? || income <= b.max.value)
  }

  /** The bracket's tax formula, before clamping. */
  function RawTax(income: real, b: TaxBracket): real
  {
    income * b.rate - b.deduction
  }

  /** The income left after paying the bracket's tax, clamped at no tax. */
  function Taxed(income: real, b: TaxBracket): (r: real)
    ensures r <= income
    ensures RawTax(income, b) <= 0.0 ==> r == income
    ensures RawTax(income, b) >= 0.0 ==> r == income - RawTax(income, b)
  {
    var tax := RawTax(income, b);
    income - (if 0.0 > tax then 0.0 else tax)
  }

  /** The first-match search: the first bracket of `table` containing the
      income decides; an income in none is returned untaxed. */
  function AfterTax(income: real, table: seq<TaxBracket>): (r: real)
    ensures r <= income
    ensures (forall i :: 0 <= i < |table| ==> !InBracket(income, table[i])) ==> r == income
    decreases |table|
  {
    if |table| == 0 then income
    else if InBracket(income, table[0]) then Taxed(income, table[0])
    else AfterTax(income, table[1..])
  }

  /** `calculateAfterTaxIncome`. */
  function CalculateAfterTaxIncome(income: real): real
  {
    AfterTax(income, IncomeTaxList)
  }

  /** Every bracket is non-empty and ends strictly before every later one
      starts; only the last is unbounded. */
  predicate Ordered(table: seq<TaxBracket>)
  {
    && (forall i :: 0 <= i < |table| ==> table[i].max.None? || table[i].min <= table[i].max.value)
    && (forall i, j :: 0 <= i < j < |table| ==> table[i].max.Some? && table[i].max.value < table[j].min)
  }

  lemma TableOrdered()
    ensures Ordered(IncomeTaxList)
  {
  }

  /** In an ordered table no income lies in two brackets. */
  lemma BracketsDisjoint(table: seq<TaxBracket>, income: real, i: int, j: int)
    requires Ordered(table)
    requires 0 <= i < |table| && 0 <= j < |table|
    requires InBracket(income, table[i]) && InBracket(income, table[j])
    ensures i == j
  {
  }

  /** In an ordered table the first match is the only match: the result is the
      taxed income of whichever bracket contains the income. */
  lemma {:induction false} FirstMatchIsOnlyMatch(table: seq<TaxBracket>, income: real, k: int)
    requires Ordered(table)
    requires 0 <= k < |table| && InBracket(income, table[k])
    ensures AfterTax(income, table) == Taxed(income, table[k])
    decreases |table|
  {
    if !InBracket(income, table[0]) {
      assert k > 0;
      var rest := table[1..];
      assert rest[k - 1] == table[k];
      assert Ordered(rest) by {
        forall i | 0 <= i < |rest|
          ensures rest[i].max.None? || rest[i].min <= rest[i].max.value
        {
          assert rest[i] == table[i + 1];
        }
        forall i, j | 0 <= i < j < |rest|
          ensures rest[i].max.Some? && rest[i].max.value < rest[j].min
        {
          assert rest[i] == table[i + 1] && rest[j] == table[j + 1];
        }
      }
      FirstMatchIsOnlyMatch(rest, income, k - 1);
    } else {
      BracketsDisjoint(table, income, 0, k);
    }
  }

  /** For an income inside one of the seven brackets the result is the income
      less that bracket's tax. */
  lemma AfterTaxInBracket(income: real, k: int)
    requires 0 <= k < |IncomeTaxList| && InBracket(income, IncomeTaxList[k])
    ensures CalculateAfterTaxIncome(income) == Taxed(income, IncomeTaxList[k])
  {
    TableOrdered();
    FirstMatchIsOnlyMatch(IncomeTaxList, income, k);
  }

  /** Within the table the clamp never acts: at each bracket's lower end the
      formula already gives a non-negative tax, and it grows with income. */
  lemma TaxNonNegativeInBrackets(income: real, k: int)
    requires 0 <= k < |IncomeTaxList| && InBracket(income, IncomeTaxList[k])
    ensures RawTax(income, IncomeTaxList[k]) >= 0.0
    ensures CalculateAfterTaxIncome(income) == income - RawTax(income, IncomeTaxList[k])
  {
    var b := IncomeTaxList[k];
    assert b.min * b.rate - b.deduction >= 0.0;
    assert income * b.rate >= b.min * b.rate;
    AfterTaxInBracket(income, k);
  }

  /** The after-tax income of a non-negative income is between 0 and the
      income itself. */
  lemma AfterTaxBounds(income: real)
    requires income >= 0.0
    ensures 0.0 <= CalculateAfterTaxIncome(income) <= income
  {
    if k :| 0 <= k < |IncomeTaxList| && InBracket(income, IncomeTaxList[k]) {
      var b := IncomeTaxList[k];
      assert 0.0 <= b.rate <= 1.0 && b.deduction >= 0.0;
      assert income * b.rate <= income;
      AfterTaxInBracket(income, k);
    }
  }

  /** Every income from 40,000,000 yen up pays 45% less 4,796,000 yen. */
  lemma TopBracket(income: real)
    requires income >= 40000000.0
    ensures CalculateAfterTaxIncome(income) == income - (income * 0.45 - 4796000.0)
  {
    TaxNonNegativeInBrackets(income, 6);
  }

  /** Every income below 1,000 yen is in no bracket and is returned untaxed. */
  lemma BelowFirstBracket(income: real)
    requires income < 1000.0
    ensures CalculateAfterTaxIncome(income) == income
  {
  }

  /** Every income strictly between one bracket's maximum and the next one's
      minimum is in no bracket and is returned untaxed. */
  lemma InGapBetweenBrackets(income: real, k: int)
    requires 0 <= k < |IncomeTaxList| - 1 && IncomeTaxList[k].max.Some?
    requires IncomeTaxList[k].max.value < income < IncomeTaxList[k + 1].min
    ensures CalculateAfterTaxIncome(income) == income
  {
  }

  /** At the lower end of every bracket but the first the rate changes but,
      thanks to the deductions, the formula does not jump: the formulas of
      the two adjacent brackets agree there. */
  lemma BoundaryContinuity(k: int)
    requires 0 < k < |IncomeTaxList|
    ensures RawTax(IncomeTaxList[k].min, IncomeTaxList[k - 1]) == RawTax(IncomeTaxList[k].min, IncomeTaxList[k])
  {
  }
}
