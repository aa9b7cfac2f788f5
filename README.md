# OpenFisca-Zero UBI simulator — a Dafny model of its core

OpenFisca-Zero is a browser simulator for a universal basic income funded by
a power-law transformation of income. This project models its computational
core and proves properties of it:

- **γ calibration** (`gamma_calculation.dfy`). Over a reference population,
  each person's parental income is transformed as
  `1,000,000 × (income / 1,000,000)^α` and weighted by the archetype weight β.
  The budget-neutrality coefficient is then
  `γ = (actual_total − BI_total) / Σ β·decay(income)`, or 0 when the sum is 0.
- **The per-household payout engine** (`household_calculation.dfy`). This covers:
  - the completeness gate;
  - the order-dependent parent/child/grandparent role assignment, which shapes
    the request to the remote baseline-benefit calculator;
  - the annualised baseline benefit;
  - the parental average income, on which children are paid;
  - the archetype classification and the summed surplus γ·β·decay(income);
  - one whole pass over the households, which stops at the first failed lookup.
- **The household editors** (`household_form.dfy`, `household_form_single.dfy`).
  They allocate ids as max + 1, append households and members, edit one field
  and delete members.
- **The conventional after-tax curve** (`income_graph.dfy`). This is a
  first-match search over the seven-bracket income tax table, with the tax
  clamped at 0.

`fiscal.dfy` holds what calibration and payout share: the five archetypes,
the β table and the power-law transform. `types.dfy` holds the records and
member edits. `sums.dfy` holds sums, filters and maxima over sequences.
`numerals.dfy` renders integers in decimal for generated names.

The form of the model follows the source:

- The React hooks keep state, so `GammaState` and `HouseholdCalculator` are
  classes.
- Their loops are methods (`CalculateGamma`, `AssignRoles`,
  `ParentAverageIncome`, `TotalSurplus`, `Calculate`). Each is proved equal to
  a recursive specification function, and the properties are proved about
  that function.
- The editors and the tax lookup build new values and mutate nothing, so they
  are functions.

Three operations outside the program are parameters and nothing is assumed
about them:

- `Math.pow` is the `pow` field of a `Policy`.
- The remote benefit calculator is a function `lookup` from the request to an
  optional response. `None` stands for a failed call.
- Text fields appear already parsed. An age is blank, not an integer, or an
  integer; an income is blank, not a number, or a number.

**Member order changes the surplus.** One might expect the surplus not to
depend on the order in which the members were entered. The code does not
behave that way, and the model follows the code:

- Children are paid on the mean income of the *parent list*.
- Role assignment fills the parent list with the first two adults in stored
  order.
- `HouseholdSurplusOrderIndependent` proves the surplus is independent of
  order when a household has at most two adults, and also when nobody is
  under 18, since then nobody is paid on the parents' mean. Order can matter
  only with three or more adults and at least one minor.
- `OrderMattersWithThreeAdults` exhibits, under an identity power function,
  two orderings of three adults and a child whose surpluses differ:
  7,500,000 yen against 8,500,000 yen.

## Model

| member | source | states |
|---|---|---|
| Fiscal.ParseTag | app/src/hooks/useGammaCalculation.ts:65-68 | a type tag is accepted exactly when it names one of the five archetypes, and then yields that archetype |
| Fiscal.BetaFactors | app/src/hooks/useGammaCalculation.ts:48-54 | β is 1 for a single young adult, `elder`, `couple`, `elder × couple` and `child` for the others; the elder and multi-person factors compose multiplicatively |
| Fiscal.WeightedIncome | app/src/hooks/useGammaCalculation.ts:70-75 | a non-positive income weighs 0; a positive one weighs β × 1,000,000 × pow(income / 1,000,000, α) |
| GammaCalculation.Contribution | app/src/hooks/useGammaCalculation.ts:59-76 | a person without a non-empty household id or with an unknown type adds 0, so does a non-positive or missing parental income; any other person adds β(type) × decay(income) |
| GammaCalculation.GammaOf | app/src/hooks/useGammaCalculation.ts:79-85 | off a zero total, γ satisfies the neutrality identity `BI_total + γ × total = actual_total`; a zero total gives γ = 0 |
| GammaCalculation.GammaUnique | app/src/hooks/useGammaCalculation.ts:84 | off a zero total, any γ meeting the identity is the computed one |
| GammaCalculation.CalculateGamma | app/src/hooks/useGammaCalculation.ts:45-86 | the accumulating loop yields the γ of the weighted total of all persons, meeting the identity or 0 for a zero total |
| GammaCalculation.WeightedTotalPermutation | app/src/hooks/useGammaCalculation.ts:59-77 | the weighted total, and so γ, does not depend on the order of the reference persons |
| GammaCalculation.WeightedTotalCountedOnly | app/src/hooks/useGammaCalculation.ts:61-66 | dropping the persons the loop skips leaves the total unchanged |
| GammaCalculation.NoPositiveIncomeGivesZeroGamma | app/src/hooks/useGammaCalculation.ts:70-82 | with no positive parental income the total and γ are 0 |
| GammaCalculation.ZeroWeightsGiveZeroGamma | app/src/hooks/useGammaCalculation.ts:48-82 | with elder, couple and child weights 0 and no single young adult, γ is 0 |
| GammaCalculation.GammaState.constructor | app/src/hooks/useGammaCalculation.ts:5-9 | γ starts null, with no persons and no totals |
| GammaCalculation.GammaState.Load | app/src/hooks/useGammaCalculation.ts:28-31 | a successful load stores the persons and the totals and leaves γ alone |
| GammaCalculation.GammaState.Recalculate | app/src/hooks/useGammaCalculation.ts:42-89 | nothing changes until persons are non-empty and totals are loaded; then γ becomes the calibrated value for the current α and β |
| HouseholdCalculation.IsComplete | app/src/hooks/useHouseholdCalculation.ts:21-25 | a household passes the gate exactly when every member has an integer age and a non-blank income |
| HouseholdCalculation.AssignRoles | app/src/hooks/useHouseholdCalculation.ts:33-66 | the role loop with its counters computes the roles of the members in stored order |
| HouseholdCalculation.RolesOfMembers | app/src/hooks/useHouseholdCalculation.ts:44-66 | the children are the members under 18, the parents the first two adults, the grandparents the remaining adults, each in stored order; keys are numbered 1, 2, … per role; the map holds exactly the listed keys |
| HouseholdCalculation.RolesPartition | app/src/hooks/useHouseholdCalculation.ts:44-66 | in a complete household the members behind the child, parent and grandparent lists are, together, a permutation of the household: every member lands in exactly one list, and the list lengths add up to the household size |
| HouseholdCalculation.MinorsAndAdults | app/src/hooks/useHouseholdCalculation.ts:49-62 | in a complete household the members under 18 and the adults, split into first two and the rest, together form a permutation of the household |
| HouseholdCalculation.BuildRequest | app/src/hooks/useHouseholdCalculation.ts:69-97 | the request carries the three role lists unchanged and, for exactly the keyed members, a birth year equal to 2025 minus the age |
| HouseholdCalculation.AnnualBiNullAsZero | app/src/hooks/useHouseholdCalculation.ts:119-122 | a null monthly amount (welfare, child allowance or single-parent allowance) gives the same yearly benefit as an amount of 0; three nulls give 0; non-negative amounts give a non-negative benefit |
| HouseholdCalculation.ParentAverageIncome | app/src/hooks/useHouseholdCalculation.ts:126-136 | the loop over the parent list yields the mean income in yen of the parents, 0 when there are none |
| HouseholdCalculation.MeanIncomePermutation | app/src/hooks/useHouseholdCalculation.ts:126-136 | the mean does not depend on the order of the incomes |
| HouseholdCalculation.Classify | app/src/hooks/useHouseholdCalculation.ts:163-171 | child exactly when under 18, elder exactly when 65 or older, single exactly when an adult alone in the household |
| HouseholdCalculation.ClassifyBoundaries | app/src/hooks/useHouseholdCalculation.ts:163-171 | 17 is a child and 18 an adult, 64 young and 65 elder, size 1 single and size 2 multi-person |
| HouseholdCalculation.TotalSurplus | app/src/hooks/useHouseholdCalculation.ts:151-182 | the member loop sums γ·β·decay over the members, children on the parental average and others on their own income |
| HouseholdCalculation.ParentAverageOfFirstTwoAdults | app/src/hooks/useHouseholdCalculation.ts:126-136 | the parental average over the parent list, the income children are paid on, is the mean income of the first two adults in stored order |
| HouseholdCalculation.SurplusWithoutMinors | app/src/hooks/useHouseholdCalculation.ts:151-179 | without members under 18 the surplus does not depend on the parental average income |
| HouseholdCalculation.HouseholdSurplusOrderIndependent | app/src/hooks/useHouseholdCalculation.ts:126-182 | with at most two adults, or with nobody under 18, reordering the members leaves the surplus unchanged |
| HouseholdCalculation.OrderMattersWithThreeAdults | app/src/hooks/useHouseholdCalculation.ts:54-64 | with three adults and a child, two orderings of the same members give different surpluses |
| HouseholdCalculation.ThreeAdultsAndChild | app/src/hooks/useHouseholdCalculation.ts:126-161 | with an identity power function, three adults followed by a child receive their incomes plus half the mean of the first two |
| HouseholdCalculation.ParentAveragingExample | app/src/hooks/useHouseholdCalculation.ts:155-161 | parents earning 3,000,000 and 5,000,000 yen make a child paid on 4,000,000 yen |
| HouseholdCalculation.SingleAdultExample | app/src/hooks/useHouseholdCalculation.ts:163-179 | a lone 30-year-old earning 3,000,000 yen is a single young adult paid γ × 1,000,000 × pow(3, α) |
| HouseholdCalculation.CalculateHousehold | app/src/hooks/useHouseholdCalculation.ts:19-188 | one iteration of the household loop: skip, failed lookup, or the computed figures |
| HouseholdCalculation.HouseholdOutcomeCases | app/src/hooks/useHouseholdCalculation.ts:21-188 | skipped exactly when incomplete; failed exactly when the lookup fails; otherwise baseline benefit, surplus on the first two adults' mean, and total = benefit + surplus, in units of 10,000 yen |
| HouseholdCalculation.GateExample | app/src/hooks/useHouseholdCalculation.ts:21-30 | a blank age makes the household skipped, a filled one does not |
| HouseholdCalculation.RunPassKeys | app/src/hooks/useHouseholdCalculation.ts:184-188 | a finished pass has results for exactly the ids of the complete households |
| HouseholdCalculation.RunPassValue | app/src/hooks/useHouseholdCalculation.ts:184-188 | under a household id held by no other household is that household's computed result |
| HouseholdCalculation.RunPassKeep | app/src/hooks/useHouseholdCalculation.ts:184-188 | results already collected survive households with other ids |
| HouseholdCalculation.RunPassAborted | app/src/hooks/useHouseholdCalculation.ts:110-113 | an aborted pass names the first household, in list order, whose lookup failed: every household before it was skipped or computed |
| HouseholdCalculation.HouseholdCalculator.constructor | app/src/hooks/useHouseholdCalculation.ts:5-7 | no result and no error at first |
| HouseholdCalculation.HouseholdCalculator.Calculate | app/src/hooks/useHouseholdCalculation.ts:9-199 | nothing happens for no households or a null γ; a finished pass replaces the result and clears the error; an aborted one keeps the old result and reports the household |
| Types.ApplyEdit | app/src/components/HouseholdForm.tsx:55 | an edit never changes a member's id or name |
| Types.EditMembers | app/src/components/HouseholdFormSingle.tsx:37-39 | the members with the id are edited, every other member is returned as it was, and the ids stay in place |
| Types.EditMembersKeepsIdsUnique | app/src/components/HouseholdFormSingle.tsx:34-41 | editing keeps member ids unique |
| Types.EditMembersUnknownId | app/src/components/HouseholdFormSingle.tsx:37-39 | an id no member carries leaves the list unchanged |
| Sums.MaxOf | app/src/components/HouseholdForm.tsx:11 | the maximum is one of the values and no value exceeds it |
| HouseholdForm.AllMembers | app/src/components/HouseholdForm.tsx:13 | the flattened list holds exactly the members of the households |
| HouseholdForm.NextHouseholdId | app/src/components/HouseholdForm.tsx:11 | the new household id exceeds every existing one; it is 1 for no households and otherwise one more than an existing id |
| HouseholdForm.NextMemberId | app/src/components/HouseholdForm.tsx:13-15 | the new member id exceeds every member id in every household; it is 1 with no members and otherwise one more than an existing id |
| HouseholdForm.AddHousehold | app/src/components/HouseholdForm.tsx:10-27 | one household appended after the unchanged ones, named 世帯 plus its id, with one blank female member 世帯員 plus its id; both ids are fresh |
| HouseholdForm.AddMember | app/src/components/HouseholdForm.tsx:29-47 | the households with the id gain one blank member at the end; every other household is unchanged |
| HouseholdForm.UpdateMember | app/src/components/HouseholdForm.tsx:49-61 | only the matching members of the matching households are edited; ids, names and sizes stay |
| HouseholdForm.AddMemberUnknownHousehold | app/src/components/HouseholdForm.tsx:35-46 | an unknown household id leaves the list unchanged |
| HouseholdForm.UpdateMemberUnknownHousehold | app/src/components/HouseholdForm.tsx:50-60 | an unknown household id leaves the list unchanged |
| HouseholdForm.UpdateMemberUnknownMember | app/src/components/HouseholdForm.tsx:54-56 | an unknown member id leaves the list unchanged |
| HouseholdForm.AddHouseholdKeepsValid | app/src/components/HouseholdForm.tsx:10-27 | adding a household keeps household ids and member ids unique |
| HouseholdForm.AddMemberKeepsValid | app/src/components/HouseholdForm.tsx:29-47 | adding a member keeps household ids and member ids unique |
| HouseholdForm.UpdateMemberKeepsValid | app/src/components/HouseholdForm.tsx:49-61 | editing keeps household ids and member ids unique |
| HouseholdForm.FirstHousehold | app/src/components/HouseholdForm.tsx:17-26 | the first household added is 世帯1 holding 世帯員1 |
| HouseholdFormSingle.NewMemberId | app/src/components/HouseholdFormSingle.tsx:14-15 | the new id exceeds every current id; it is 1 for no members and otherwise one more than an existing id |
| HouseholdFormSingle.AddMember | app/src/components/HouseholdFormSingle.tsx:12-25 | one blank male member appended, named メンバー plus the new length, with a fresh id; id, name and earlier members unchanged |
| HouseholdFormSingle.DeleteMember | app/src/components/HouseholdFormSingle.tsx:27-32 | a member survives exactly when it was present and does not carry the id; id and name unchanged |
| HouseholdFormSingle.UpdateMember | app/src/components/HouseholdFormSingle.tsx:34-41 | the members with the id are edited, id and name unchanged |
| HouseholdFormSingle.AddMemberKeepsIdsUnique | app/src/components/HouseholdFormSingle.tsx:12-25 | appending keeps member ids unique |
| HouseholdFormSingle.DeleteRemovesOne | app/src/components/HouseholdFormSingle.tsx:27-32 | with unique ids, deleting the id at index k removes exactly that member and keeps the order of the rest |
| HouseholdFormSingle.DeleteKeepsFirst | app/src/components/HouseholdFormSingle.tsx:100 | deleting a member after the first, as the interface allows, shortens the list by one and keeps the first member |
| HouseholdFormSingle.DeleteUnknownId | app/src/components/HouseholdFormSingle.tsx:30 | deleting an id no member carries changes nothing |
| HouseholdFormSingle.FilterKeepsIdsUnique | app/src/components/HouseholdFormSingle.tsx:30 | removing members keeps ids unique |
| HouseholdFormSingle.DeleteKeepsIdsUnique | app/src/components/HouseholdFormSingle.tsx:27-32 | deleting keeps member ids unique |
| HouseholdFormSingle.UpdateKeepsIdsUnique | app/src/components/HouseholdFormSingle.tsx:34-41 | editing keeps member ids unique |
| IncomeGraph.Taxed | app/src/components/IncomeGraph.tsx:37-38 | the result never exceeds the income; a non-positive tax leaves the income whole, a non-negative one is subtracted |
| IncomeGraph.AfterTax | app/src/components/IncomeGraph.tsx:34-42 | the result never exceeds the income, and an income in no bracket is returned unchanged |
| IncomeGraph.TableOrdered | app/src/components/IncomeGraph.tsx:24-32 | each bracket is non-empty and ends before every later one begins; only the last is unbounded |
| IncomeGraph.BracketsDisjoint | app/src/components/IncomeGraph.tsx:24-32 | in an ordered table no income lies in two brackets |
| IncomeGraph.FirstMatchIsOnlyMatch | app/src/components/IncomeGraph.tsx:35-40 | in an ordered table the first-match search returns the taxed income of the bracket containing the income |
| IncomeGraph.AfterTaxInBracket | app/src/components/IncomeGraph.tsx:34-42 | inside bracket k the result is the income less max(0, income × rate − deduction) of bracket k |
| IncomeGraph.TaxNonNegativeInBrackets | app/src/components/IncomeGraph.tsx:24-38 | inside the table the formula's tax is never negative, so the clamp never acts |
| IncomeGraph.AfterTaxBounds | app/src/components/IncomeGraph.tsx:34-42 | for a non-negative income the result lies between 0 and the income |
| IncomeGraph.TopBracket | app/src/components/IncomeGraph.tsx:31 | every income from 40,000,000 yen pays 45% less 4,796,000 yen |
| IncomeGraph.BelowFirstBracket | app/src/components/IncomeGraph.tsx:41 | every income below 1,000 yen is returned untaxed |
| IncomeGraph.InGapBetweenBrackets | app/src/components/IncomeGraph.tsx:41 | every income strictly between one bracket's maximum and the next bracket's minimum is returned untaxed |
| IncomeGraph.BoundaryContinuity | app/src/components/IncomeGraph.tsx:24-32 | at the lower end of every bracket but the first, the formulas of that bracket and the one before it agree |

## Left out

- Loading the reference files (fetch, JSON decoding, `Object.values`) is I/O. The model takes the persons and totals as inputs, and a failed load (error text, loading flag) is not modelled.
- The HTTP call to the benefit calculator, its response status and error text, and `console.log` are left out. The request's constant residency fields, date keys and zero/null income placeholders are also left out. The lookup is a parameter that may fail, and a failed call is recorded with the household's name only.
- Decoding the response beyond the three monthly amounts is left out. An exception thrown while decoding is not distinguished from a failed call.
- Floating point is not modelled. `Math.pow` is an uninterpreted parameter, money is an exact real, and the tax formula `income × rate − deduction` is exact.
- Text parsing (`trim`, `parseInt`, `parseFloat`) is not modelled. Fields appear already parsed, so inputs such as "12abc", which parse to a prefix, are outside the model.
- A non-numeric parental income reads as `NaN` in the source. Since `NaN` is not positive, it contributes nothing, and the model reads it as 0 with the same effect.
- GammaCalculation.Contribution: does not model the inherited-property quirk of the `in` test. A type tag such as "toString" passes the key test and would make the total `NaN`. The model accepts the five archetype tags only.
- React rendering is not modelled: the loading flags, the effect scheduling that runs `calculate`, the debounce in the callers, and all presentational components.
- Concurrency is not modelled: a pass runs to completion before another starts, so two asynchronous passes interleaving their state updates are outside the model.
- HouseholdForm.UpdateMember: the source's field key ranges over every member field. The forms only ever edit gender, age and income, so editing the id or name is not modelled.
- The chart loop of the income graph is left out: its hundred sample points, the proposed-income curve and the display conversion to 10,000 yen.
- Deleting a whole household (`onDelete`) is handled by a component outside this model.
