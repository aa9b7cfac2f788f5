/** The per-household payout engine (app/src/hooks/useHouseholdCalculation.ts):
    the completeness gate, the order-dependent role assignment that shapes the
    baseline-benefit request, the annualised baseline benefit, the parental
    average income, the archetype classification and the summed surplus. The
    remote benefit calculator is the function parameter `lookup`. */
module HouseholdCalculation {
  import opened Types
  import opened Sums
  import opened Fiscal

  // ---------------------------------------------------------------------
  // Completeness gate

  /** Age and income are both filled in and the age parses as an integer. */
  predicate MemberComplete(m: Member)
  {
    m.age.AgeValue? && !m.income.IncomeBlank?
  }

  /** `members.every(...)`: the household passes the gate. */
  function IsComplete(ms: seq<Member>): (r: bool)
    ensures r <==> forall i :: 0 <= i < |ms| ==> MemberComplete(ms[i])
  {
    |ms| == 0 || (MemberComplete(ms[0]) && IsComplete(ms[1..]))
  }

  // ---------------------------------------------------------------------
  // Role assignment

  predicate IsMinor(m: Member) { m.age.AgeValue? && m.age.years < 18 }
  predicate IsAdult(m: Member) { m.age.AgeValue? && m.age.years >= 18 }

  /** The key under which a member is sent to the benefit calculator:
      親k, 子k or 祖父母k. */
  datatype ApiId = ParentId(k: nat) | ChildId(k: nat) | GrandparentId(k: nat)

  /** The three role lists and the map from key to member. */
  datatype Roles = Roles(
    parents: seq<ApiId>,
    children: seq<ApiId>,
    grandparents: seq<ApiId>,
    personMap: map<ApiId, Member>)

  /** One step of the role loop: a member under 18 becomes the next child, an
      adult the next parent while there are fewer than two, otherwise the next
      grandparent; a member whose age does not parse is skipped. */
  function AssignOne(r: Roles, m: Member): Roles
  {
    match m.age
    case AgeValue(age) =>
      if age < 18 then
        var id := ChildId(|r.children| + 1);
        r.(children := r.children + [id], personMap := r.personMap[id := m])
      else if |r.parents| < 2 then
        var id := ParentId(|r.parents| + 1);
        r.(parents := r.parents + [id], personMap := r.personMap[id := m])
      else
        var id := GrandparentId(|r.grandparents| + 1);
        r.(grandparents := r.grandparents + [id], personMap := r.personMap[id := m])
    case _ => r
  }

  /** The roles after walking `ms` in stored order. */
  function RolesOf(ms: seq<Member>): Roles
    decreases |ms|
  {
    if |ms| == 0 then Roles([], [], [], map[])
    else AssignOne(RolesOf(ms[..|ms| - 1]), ms[|ms| - 1])
  }

  /** The role loop of `calculate`, with its counters and pushes. */
  method AssignRoles(ms: seq<Member>) returns (roles: Roles)
    ensures roles == RolesOf(ms)
  {
    var parents: seq<ApiId> := [];
    var children: seq<ApiId> := [];
    var grandparents: seq<ApiId> := [];
    var personMap: map<ApiId, Member> := map[];
    var parentCount, childCount, grandparentCount, localParentCount := 0, 0, 0, 0;
    var i := 0;
    while i < |ms|
      invariant 0 <= i <= |ms|
      invariant Roles(parents, children, grandparents, personMap) == RolesOf(ms[..i])
      invariant childCount == |children| && grandparentCount == |grandparents|
      invariant parentCount == |parents| && localParentCount == |parents|
    {
      var member := ms[i];
      assert ms[..i + 1][..i] == ms[..i];
      match member.age {
        case AgeValue(age) =>
          var apiId: ApiId;
          if age < 18 {
            childCount := childCount + 1;
            apiId := ChildId(childCount);
            children := children + [apiId];
          } else if localParentCount < 2 {
            localParentCount := localParentCount + 1;
            parentCount := parentCount + 1;
            apiId := ParentId(parentCount);
            parents := parents + [apiId];
          } else {
            grandparentCount := grandparentCount + 1;
            apiId := GrandparentId(grandparentCount);
            grandparents := grandparents + [apiId];
          }
          personMap := personMap[apiId := member];
        case _ =>
      }
      i := i + 1;
    }
    assert ms[..i] == ms;
    roles := Roles(parents, children, grandparents, personMap);
  }

  /** The keys are numbered 1, 2, … within each role, and the map holds
      exactly the keys of the three lists, each bound to a member whose age
      parsed. */
  ghost predicate WellFormed(r: Roles)
  {
    && (forall k :: 0 <= k < |r.parents| ==> r.parents[k] == ParentId(k + 1))
    && (forall k :: 0 <= k < |r.children| ==> r.children[k] == ChildId(k + 1))
    && (forall k :: 0 <= k < |r.grandparents| ==> r.grandparents[k] == GrandparentId(k + 1))
    && (forall id :: id in r.personMap <==> id in r.parents || id in r.children || id in r.grandparents)
    && (forall id :: id in r.personMap ==> r.personMap[id].age.AgeValue?)
  }

  /** The members a list of keys stands for. */
  function Members(ids: seq<ApiId>, pm: map<ApiId, Member>): (ms: seq<Member>)
    requires forall id :: id in ids ==> id in pm
    ensures |ms| == |ids|
    decreases |ids|
  {
    if |ids| == 0 then [] else Members(ids[..|ids| - 1], pm) + [pm[ids[|ids| - 1]]]
  }

  lemma {:induction false} MembersUpdate(ids: seq<ApiId>, pm: map<ApiId, Member>, id: ApiId, m: Member)
    requires forall x :: x in ids ==> x in pm
    requires id !in ids
    ensures Members(ids, pm[id := m]) == Members(ids, pm)
    decreases |ids|
  {
    if |ids| > 0 {
      MembersUpdate(ids[..|ids| - 1], pm, id, m);
    }
  }

  lemma MembersPush(ids: seq<ApiId>, pm: map<ApiId, Member>, id: ApiId, m: Member)
    requires forall x :: x in ids ==> x in pm
    requires id !in ids
    ensures Members(ids + [id], pm[id := m]) == Members(ids, pm) + [m]
  {
    assert (ids + [id])[..|ids|] == ids;
    MembersUpdate(ids, pm, id, m);
  }

  /** The adults, the first two of whom are the parents. */
  function Adults(ms: seq<Member>): seq<Member> { Filter(ms, IsAdult) }

  function FirstTwo(xs: seq<Member>): seq<Member>
  {
    if |xs| <= 2 then xs else xs[..2]
  }

  function AfterTwo(xs: seq<Member>): seq<Member>
  {
    if |xs| <= 2 then [] else xs[2..]
  }

  /** What role assignment achieves over `ms`, stated without the loop. */
  ghost predicate RolesMatch(ms: seq<Member>, r: Roles)
  {
    && WellFormed(r)
    && |r.parents| <= 2
    && Members(r.children, r.personMap) == Filter(ms, IsMinor)
    && Members(r.parents, r.personMap) == FirstTwo(Adults(ms))
    && Members(r.grandparents, r.personMap) == AfterTwo(Adults(ms))
  }

  /** Role assignment, stated without the loop: the children are the members
      under 18, the parents the first two adults and the grandparents the
      remaining adults, each list in stored order; there are at most two
      parents. */
  lemma {:induction false} RolesOfMembers(ms: seq<Member>)
    ensures WellFormed(RolesOf(ms))
    ensures |RolesOf(ms).parents| <= 2
    ensures Members(RolesOf(ms).children, RolesOf(ms).personMap) == Filter(ms, IsMinor)
    ensures Members(RolesOf(ms).parents, RolesOf(ms).personMap) == FirstTwo(Adults(ms))
    ensures Members(RolesOf(ms).grandparents, RolesOf(ms).personMap) == AfterTwo(Adults(ms))
    decreases |ms|
  {
    if |ms| > 0 {
      var n := |ms|;
      RolesOfMembers(ms[..n - 1]);
      assert ms == ms[..n - 1] + [ms[n - 1]];
      RolesStep(ms[..n - 1], ms[n - 1]);
    }
  }

  /** One more member keeps the description true. */
  lemma RolesStep(prefix: seq<Member>, m: Member)
    requires RolesMatch(prefix, RolesOf(prefix))
    ensures RolesMatch(prefix + [m], RolesOf(prefix + [m]))
  {
    var ms := prefix + [m];
    assert ms[..|ms| - 1] == prefix;
    assert RolesOf(ms) == AssignOne(RolesOf(prefix), m);
    FilterSnoc(prefix, m, IsMinor);
    FilterSnoc(prefix, m, IsAdult);
    var r0 := RolesOf(prefix);
    if m.age.AgeValue? && m.age.years < 18 {
      StepChild(prefix, r0, m);
    } else if m.age.AgeValue? && |r0.parents| < 2 {
      StepParent(prefix, r0, m);
    } else if m.age.AgeValue? {
      StepGrandparent(prefix, r0, m);
    }
  }

  lemma FilterSnoc(xs: seq<Member>, m: Member, p: Member -> bool)
    ensures Filter(xs + [m], p) == Filter(xs, p) + (if p(m) then [m] else [])
  {
    assert (xs + [m])[..|xs|] == xs;
  }

  /** The three cases of one role step. */
  lemma AssignOneCases(r: Roles, m: Member)
    ensures m.age.AgeValue? && m.age.years < 18 ==>
      var id := ChildId(|r.children| + 1);
      AssignOne(r, m) == r.(children := r.children + [id], personMap := r.personMap[id := m])
    ensures m.age.AgeValue? && m.age.years >= 18 && |r.parents| < 2 ==>
      var id := ParentId(|r.parents| + 1);
      AssignOne(r, m) == r.(parents := r.parents + [id], personMap := r.personMap[id := m])
    ensures m.age.AgeValue? && m.age.years >= 18 && |r.parents| >= 2 ==>
      var id := GrandparentId(|r.grandparents| + 1);
      AssignOne(r, m) == r.(grandparents := r.grandparents + [id], personMap := r.personMap[id := m])
    ensures !m.age.AgeValue? ==> AssignOne(r, m) == r
  {
  }

  lemma StepChild(prefix: seq<Member>, r0: Roles, m: Member)
    requires RolesMatch(prefix, r0) && m.age.AgeValue? && m.age.years < 18
    requires Filter(prefix + [m], IsMinor) == Filter(prefix, IsMinor) + [m]
    requires Adults(prefix + [m]) == Adults(prefix)
    ensures RolesMatch(prefix + [m], AssignOne(r0, m))
  {
    var id := ChildId(|r0.children| + 1);
    var r1 := r0.(children := r0.children + [id], personMap := r0.personMap[id := m]);
    AssignOneCases(r0, m);
    assert AssignOne(r0, m) == r1;
    AssignChild(r0, m, id);
    assert Members(r1.children, r1.personMap) == Filter(prefix + [m], IsMinor);
    assert Members(r1.parents, r1.personMap) == FirstTwo(Adults(prefix + [m]));
    assert Members(r1.grandparents, r1.personMap) == AfterTwo(Adults(prefix + [m]));
  }

  lemma StepParent(prefix: seq<Member>, r0: Roles, m: Member)
    requires RolesMatch(prefix, r0) && m.age.AgeValue? && m.age.years >= 18 && |r0.parents| < 2
    requires Filter(prefix + [m], IsMinor) == Filter(prefix, IsMinor)
    requires Adults(prefix + [m]) == Adults(prefix) + [m]
    ensures RolesMatch(prefix + [m], AssignOne(r0, m))
  {
    var adults0 := Adults(prefix);
    assert |FirstTwo(adults0)| == |r0.parents| < 2;
    TwoSplitSnoc(adults0, m);
    var id := ParentId(|r0.parents| + 1);
    AssignOneCases(r0, m);
    AssignParent(r0, m, id);
  }

  lemma StepGrandparent(prefix: seq<Member>, r0: Roles, m: Member)
    requires RolesMatch(prefix, r0) && m.age.AgeValue? && m.age.years >= 18 && |r0.parents| >= 2
    requires Filter(prefix + [m], IsMinor) == Filter(prefix, IsMinor)
    requires Adults(prefix + [m]) == Adults(prefix) + [m]
    ensures RolesMatch(prefix + [m], AssignOne(r0, m))
  {
    var adults0 := Adults(prefix);
    assert |FirstTwo(adults0)| == |r0.parents| >= 2;
    TwoSplitSnoc(adults0, m);
    var id := GrandparentId(|r0.grandparents| + 1);
    AssignOneCases(r0, m);
    AssignGrandparent(r0, m, id);
  }

  /** Where one more adult goes: among the first two while there are fewer
      than two, after them otherwise. */
  lemma TwoSplitSnoc(xs: seq<Member>, m: Member)
    ensures |FirstTwo(xs)| < 2 ==> |xs| < 2 && FirstTwo(xs + [m]) == FirstTwo(xs) + [m] && AfterTwo(xs + [m]) == AfterTwo(xs)
    ensures |FirstTwo(xs)| >= 2 ==> FirstTwo(xs + [m]) == FirstTwo(xs) && AfterTwo(xs + [m]) == AfterTwo(xs) + [m]
  {
    if |xs| >= 2 {
      assert (xs + [m])[..2] == xs[..2];
      assert (xs + [m])[2..] == xs[2..] + [m];
    }
  }

  lemma AssignChild(r: Roles, m: Member, id: ApiId)
    requires WellFormed(r) && m.age.AgeValue? && id == ChildId(|r.children| + 1)
    ensures var r' := r.(children := r.children + [id], personMap := r.personMap[id := m]);
      && WellFormed(r')
      && Members(r'.children, r'.personMap) == Members(r.children, r.personMap) + [m]
      && Members(r'.parents, r'.personMap) == Members(r.parents, r.personMap)
      && Members(r'.grandparents, r'.personMap) == Members(r.grandparents, r.personMap)
  {
    var r' := r.(children := r.children + [id], personMap := r.personMap[id := m]);
    forall k | 0 <= k < |r.children|
      ensures r.children[k] != id
    {
    }
    assert id !in r.parents && id !in r.grandparents;
    MembersPush(r.children, r.personMap, id, m);
    MembersUpdate(r.parents, r.personMap, id, m);
    MembersUpdate(r.grandparents, r.personMap, id, m);
    assert forall k :: 0 <= k < |r'.children| ==> r'.children[k] == ChildId(k + 1);
    assert forall x :: x in r'.personMap <==> x in r'.parents || x in r'.children || x in r'.grandparents;
  }


  lemma AssignParent(r: Roles, m: Member, id: ApiId)
    requires WellFormed(r) && m.age.AgeValue? && id == ParentId(|r.parents| + 1)
    ensures var r' := r.(parents := r.parents + [id], personMap := r.personMap[id := m]);
      && WellFormed(r')
      && Members(r'.parents, r'.personMap) == Members(r.parents, r.personMap) + [m]
      && Members(r'.children, r'.personMap) == Members(r.children, r.personMap)
      && Members(r'.grandparents, r'.personMap) == Members(r.grandparents, r.personMap)
  {
    var r' := r.(parents := r.parents + [id], personMap := r.personMap[id := m]);
    forall k | 0 <= k < |r.parents|
      ensures r.parents[k] != id
    {
    }
    assert id !in r.children && id !in r.grandparents;
    MembersPush(r.parents, r.personMap, id, m);
    MembersUpdate(r.children, r.personMap, id, m);
    MembersUpdate(r.grandparents, r.personMap, id, m);
    assert forall k :: 0 <= k < |r'.parents| ==> r'.parents[k] == ParentId(k + 1);
    assert forall x :: x in r'.personMap <==> x in r'.parents || x in r'.children || x in r'.grandparents;
  }


  lemma AssignGrandparent(r: Roles, m: Member, id: ApiId)
    requires WellFormed(r) && m.age.AgeValue? && id == GrandparentId(|r.grandparents| + 1)
    ensures var r' := r.(grandparents := r.grandparents + [id], personMap := r.personMap[id := m]);
      && WellFormed(r')
      && Members(r'.grandparents, r'.personMap) == Members(r.grandparents, r.personMap) + [m]
      && Members(r'.children, r'.personMap) == Members(r.children, r.personMap)
      && Members(r'.parents, r'.personMap) == Members(r.parents, r.personMap)
  {
    var r' := r.(grandparents := r.grandparents + [id], personMap := r.personMap[id := m]);
    forall k | 0 <= k < |r.grandparents|
      ensures r.grandparents[k] != id
    {
    }
    assert id !in r.children && id !in r.parents;
    MembersPush(r.grandparents, r.personMap, id, m);
    MembersUpdate(r.children, r.personMap, id, m);
    MembersUpdate(r.parents, r.personMap, id, m);
    assert forall k :: 0 <= k < |r'.grandparents| ==> r'.grandparents[k] == GrandparentId(k + 1);
    assert forall x :: x in r'.personMap <==> x in r'.parents || x in r'.children || x in r'.grandparents;
  }


  /** Every member of a complete household lands in exactly one role list:
      the members the three lists stand for are, together, a permutation of
      the household. */
  lemma RolesPartition(ms: seq<Member>)
    requires IsComplete(ms)
    ensures WellFormed(RolesOf(ms))
    ensures var r := RolesOf(ms);
      multiset(Members(r.children, r.personMap) + Members(r.parents, r.personMap)
               + Members(r.grandparents, r.personMap)) == multiset(ms)
    ensures |RolesOf(ms).parents| + |RolesOf(ms).children| + |RolesOf(ms).grandparents| == |ms|
  {
    RolesOfMembers(ms);
    var r := RolesOf(ms);
    var all := Members(r.children, r.personMap) + Members(r.parents, r.personMap)
               + Members(r.grandparents, r.personMap);
    assert all == Filter(ms, IsMinor) + FirstTwo(Adults(ms)) + AfterTwo(Adults(ms));
    MinorsAndAdults(ms);
    assert |all| == |multiset(all)| == |multiset(ms)| == |ms|;
  }

  /** In a complete household every member is either under 18 or an adult. */
  lemma CompleteSplitsByAge(ms: seq<Member>)
    requires IsComplete(ms)
    ensures forall i :: 0 <= i < |ms| ==> IsMinor(ms[i]) != IsAdult(ms[i])
  {
    forall i | 0 <= i < |ms|
      ensures IsMinor(ms[i]) != IsAdult(ms[i])
    {
      assert MemberComplete(ms[i]);
    }
  }

  /** In a complete household the minors and the adults split into first two
      and the rest are, together, a permutation of the members. */
  lemma MinorsAndAdults(ms: seq<Member>)
    requires IsComplete(ms)
    ensures multiset(Filter(ms, IsMinor) + FirstTwo(Adults(ms)) + AfterTwo(Adults(ms))) == multiset(ms)
  {
    CompleteSplitsByAge(ms);
    var adults := Adults(ms);
    assert FirstTwo(adults) + AfterTwo(adults) == adults;
    FilterComplementSplit(ms, IsMinor, IsAdult, FirstTwo(adults), AfterTwo(adults));
  }

  // ---------------------------------------------------------------------
  // Baseline benefit request and response

  /** The year birth dates are derived from. */
  const CurrentYear: int := 2025

  function GenderLabel(g: Gender): string
  {
    match g
    case Female => "女性"
    case Male => "男性"
    case Other => "その他"
  }

  /** What is sent for one member: birth year `2025 - age` and gender label. */
  datatype PersonFacts = PersonFacts(birthYear: int, gender: string)

  /** The household part of the request: the three role lists and the facts
      of each keyed member. */
  datatype LookupRequest = LookupRequest(
    parents: seq<ApiId>,
    children: seq<ApiId>,
    grandparents: seq<ApiId>,
    persons: map<ApiId, PersonFacts>)

  /** The three monthly amounts read back; any of them may be null. */
  datatype BenefitResponse = BenefitResponse(
    welfare: Option<real>,
    childAllowance: Option<real>,
    singleParentAllowance: Option<real>)

  /** The request for a household whose roles have been assigned. */
  function BuildRequest(r: Roles): (req: LookupRequest)
    requires forall id :: id in r.personMap ==> r.personMap[id].age.AgeValue?
    ensures req.parents == r.parents && req.children == r.children && req.grandparents == r.grandparents
    ensures req.persons.Keys == r.personMap.Keys
    ensures forall id :: id in req.persons ==>
      req.persons[id].birthYear + r.personMap[id].age.years == CurrentYear
  {
    LookupRequest(r.parents, r.children, r.grandparents,
      map id | id in r.personMap ::
        PersonFacts(CurrentYear - r.personMap[id].age.years, GenderLabel(r.personMap[id].gender)))
  }

  /** The request sent for a household's members. */
  function RequestOf(ms: seq<Member>): LookupRequest
  {
    RolesAgesKnown(ms);
    BuildRequest(RolesOf(ms))
  }

  /** Every member placed in the person map has a known age. */
  lemma RolesAgesKnown(ms: seq<Member>)
    ensures forall id :: id in RolesOf(ms).personMap ==> RolesOf(ms).personMap[id].age.AgeValue?
  {
    RolesOfMembers(ms);
  }

  /** The yearly baseline benefit: twelve times the three monthly amounts,
      a null amount counting as 0. */
  function AnnualBi(resp: BenefitResponse): (bi: real)
    ensures bi / 12.0 == OrZero(resp.welfare) + OrZero(resp.childAllowance) + OrZero(resp.singleParentAllowance)
  {
    (OrZero(resp.welfare) + OrZero(resp.childAllowance) + OrZero(resp.singleParentAllowance)) * 12.0
  }

  /** A null monthly amount counts exactly as an amount of 0, so a response
      of three nulls is worth nothing; non-negative amounts give a
      non-negative yearly benefit. */
  lemma AnnualBiNullAsZero(resp: BenefitResponse)
    ensures AnnualBi(resp.(welfare := None)) == AnnualBi(resp.(welfare := Some(0.0)))
    ensures AnnualBi(resp.(childAllowance := None)) == AnnualBi(resp.(childAllowance := Some(0.0)))
    ensures AnnualBi(resp.(singleParentAllowance := None)) == AnnualBi(resp.(singleParentAllowance := Some(0.0)))
    ensures AnnualBi(BenefitResponse(None, None, None)) == 0.0
    ensures (OrZero(resp.welfare) >= 0.0 && OrZero(resp.childAllowance) >= 0.0
             && OrZero(resp.singleParentAllowance) >= 0.0) ==> AnnualBi(resp) >= 0.0
  {
  }

  // ---------------------------------------------------------------------
  // Parental average income

  /** The entered income in yen (the field is in units of 10,000 yen); a
      value that is not a number reads as 0. */
  function IncomeYen(m: Member): real
  {
    match m.income
    case IncomeValue(v) => v * 10000.0
    case _ => 0.0
  }

  /** The mean income in yen of `ps`, 0 for none. */
  function MeanIncome(ps: seq<Member>): real
  {
    if |ps| == 0 then 0.0 else SumBy(ps, IncomeYen) / (|ps| as real)
  }

  /** The loop over the parent list that sums incomes and counts parents. */
  method ParentAverageIncome(r: Roles) returns (avg: real)
    requires forall id :: id in r.parents ==> id in r.personMap
    ensures avg == MeanIncome(Members(r.parents, r.personMap))
  {
    var totalParentIncome := 0.0;
    var parentCountForIncome := 0;
    var i := 0;
    while i < |r.parents|
      invariant 0 <= i <= |r.parents|
      invariant parentCountForIncome == i
      invariant totalParentIncome == SumBy(Members(r.parents[..i], r.personMap), IncomeYen)
    {
      assert r.parents[..i + 1][..i] == r.parents[..i];
      var member := r.personMap[r.parents[i]];
      totalParentIncome := totalParentIncome + IncomeYen(member);
      parentCountForIncome := parentCountForIncome + 1;
      i := i + 1;
    }
    assert r.parents[..i] == r.parents;
    avg := if parentCountForIncome > 0 then totalParentIncome / (parentCountForIncome as real) else 0.0;
  }

  /** The mean does not depend on the order of the incomes averaged. */
  lemma MeanIncomePermutation(ps: seq<Member>, qs: seq<Member>)
    requires multiset(ps) == multiset(qs)
    ensures MeanIncome(ps) == MeanIncome(qs)
  {
    assert |ps| == |multiset(ps)| == |multiset(qs)| == |qs|;
    SumByPermutation(ps, qs, IncomeYen);
  }

  // ---------------------------------------------------------------------
  // Archetypes and surplus

  /** The archetype from age and household size alone. */
  function Classify(age: int, size: nat): (a: Archetype)
    ensures a == Child <==> age < 18
    ensures (a == SingleElder || a == CoupleElder) <==> age >= 65
    ensures (a == SingleYoung || a == SingleElder) <==> (age >= 18 && size == 1)
  {
    if age < 18 then Child
    else if age < 65 then (if size == 1 then SingleYoung else CoupleYoung)
    else (if size == 1 then SingleElder else CoupleElder)
  }

  /** The boundaries of the classification, for a one-person household. */
  lemma ClassifyBoundaries()
    ensures Classify(17, 1) == Child && Classify(18, 1) == SingleYoung
    ensures Classify(64, 1) == SingleYoung && Classify(65, 1) == SingleElder
    ensures Classify(18, 2) == CoupleYoung && Classify(65, 2) == CoupleElder
  {
  }

  /** One member's surplus: members under 18 are paid on the parental average
      income `avg`, others on their own income. */
  function MemberSurplus(policy: Policy, gamma: real, size: nat, avg: real, m: Member): real
  {
    match m.age
    case AgeValue(age) =>
      var income := if age < 18 then avg else IncomeYen(m);
      gamma * WeightedIncome(policy, Classify(age, size), income)
    case _ => 0.0
  }

  /** The summed surplus of the members of a household of `size` members. */
  function SurplusOf(policy: Policy, gamma: real, size: nat, avg: real, ms: seq<Member>): real
  {
    SumBy(ms, m => MemberSurplus(policy, gamma, size, avg, m))
  }

  /** The accumulating loop over the members. */
  method TotalSurplus(policy: Policy, gamma: real, members: seq<Member>, avg: real) returns (total: real)
    ensures total == SurplusOf(policy, gamma, |members|, avg, members)
  {
    var householdSize := |members|;
    total := 0.0;
    var i := 0;
    while i < |members|
      invariant 0 <= i <= |members|
      invariant total == SurplusOf(policy, gamma, householdSize, avg, members[..i])
    {
      var member := members[i];
      assert members[..i + 1][..i] == members[..i];
      match member.age {
        case AgeValue(age) =>
          var income := if age < 18 then avg else IncomeYen(member);
          var beta := Beta(policy.beta, Classify(age, householdSize));
          var surplus := 0.0;
          if Scale > 0.0 && income > 0.0 {
            surplus := gamma * beta * Decay(policy, income);
          }
          total := total + surplus;
        case _ =>
      }
      i := i + 1;
    }
    assert members[..i] == members;
  }

  /** The surplus of a household, with the children paid on the mean income of
      the first two adults in stored order (the parent list). */
  function HouseholdSurplus(policy: Policy, gamma: real, ms: seq<Member>): real
  {
    SurplusOf(policy, gamma, |ms|, MeanIncome(FirstTwo(Adults(ms))), ms)
  }

  /** The parental average the loop computes over the parent list is the mean
      income of the first two adults in stored order. */
  lemma ParentAverageOfFirstTwoAdults(ms: seq<Member>)
    ensures forall id :: id in RolesOf(ms).parents ==> id in RolesOf(ms).personMap
    ensures MeanIncome(Members(RolesOf(ms).parents, RolesOf(ms).personMap)) == MeanIncome(FirstTwo(Adults(ms)))
  {
    RolesOfMembers(ms);
  }

  /** Without members under 18 nobody is paid on the parental average, so the
      surplus does not depend on it. */
  lemma {:induction false} SurplusWithoutMinors(policy: Policy, gamma: real, size: nat,
                                                avg1: real, avg2: real, ms: seq<Member>)
    requires forall i :: 0 <= i < |ms| ==> !IsMinor(ms[i])
    ensures SurplusOf(policy, gamma, size, avg1, ms) == SurplusOf(policy, gamma, size, avg2, ms)
    decreases |ms|
  {
    if |ms| > 0 {
      var n := |ms|;
      SurplusWithoutMinors(policy, gamma, size, avg1, avg2, ms[..n - 1]);
      assert !IsMinor(ms[n - 1]);
    }
  }

  /** With at most two adults every adult is a parent, and without members
      under 18 nobody is paid on the parents' mean; in either case the
      surplus does not depend on the order in which the members were
      entered. */
  lemma HouseholdSurplusOrderIndependent(policy: Policy, gamma: real, ms: seq<Member>, others: seq<Member>)
    requires multiset(ms) == multiset(others)
    requires |Adults(ms)| <= 2 || forall i :: 0 <= i < |ms| ==> !IsMinor(ms[i])
    ensures HouseholdSurplus(policy, gamma, ms) == HouseholdSurplus(policy, gamma, others)
  {
    assert |ms| == |multiset(ms)| == |multiset(others)| == |others|;
    if |Adults(ms)| <= 2 {
      FilterPermutation(ms, others, IsAdult);
      assert |Adults(others)| == |multiset(Adults(others))| == |multiset(Adults(ms))| == |Adults(ms)|;
      MeanIncomePermutation(Adults(ms), Adults(others));
      var avg := MeanIncome(Adults(ms));
      SumByPermutation(ms, others, m => MemberSurplus(policy, gamma, |ms|, avg, m));
    } else {
      var avgM := MeanIncome(FirstTwo(Adults(ms)));
      var avgO := MeanIncome(FirstTwo(Adults(others)));
      SurplusWithoutMinors(policy, gamma, |ms|, avgM, avgO, ms);
      SumByPermutation(ms, others, m => MemberSurplus(policy, gamma, |ms|, avgO, m));
    }
  }

  /** Two parents aged 40 and 42 earning 300 and 500 (×10,000 yen) and a child
      of 5, entered in that order: the child is paid on 4,000,000 yen, the
      mean of the parents' incomes. */
  lemma ParentAveragingExample(policy: Policy, gamma: real, p1: Member, p2: Member, c: Member)
    requires p1.age == AgeValue(40) && p1.income == IncomeValue(300.0)
    requires p2.age == AgeValue(42) && p2.income == IncomeValue(500.0)
    requires c.age == AgeValue(5)
    ensures MeanIncome(FirstTwo(Adults([p1, p2, c]))) == 4000000.0
    ensures HouseholdSurplus(policy, gamma, [p1, p2, c])
         == gamma * (Beta(policy.beta, CoupleYoung) * Decay(policy, 3000000.0))
          + gamma * (Beta(policy.beta, CoupleYoung) * Decay(policy, 5000000.0))
          + gamma * (Beta(policy.beta, Child) * Decay(policy, 4000000.0))
  {
    FilterSnoc([], p1, IsAdult);
    assert [] + [p1] == [p1];
    FilterSnoc([p1], p2, IsAdult);
    assert [p1] + [p2] == [p1, p2];
    FilterSnoc([p1, p2], c, IsAdult);
    assert [p1, p2] + [c] == [p1, p2, c];
    assert FirstTwo(Adults([p1, p2, c])) == [p1, p2];
    MeanOfTwo(p1, p2);
    assert IncomeYen(p1) == 3000000.0 && IncomeYen(p2) == 5000000.0;
    var f := m => MemberSurplus(policy, gamma, 3, 4000000.0, m);
    SumBySnoc([], p1, f);
    SumBySnoc([p1], p2, f);
    SumBySnoc([p1, p2], c, f);
  }


  /** A single 30-year-old earning 300 (×10,000 yen) is a single young adult
      with weight 1: the surplus is γ × 1,000,000 × pow(3, α). */
  lemma SingleAdultExample(policy: Policy, gamma: real, m: Member)
    requires m.age == AgeValue(30) && m.income == IncomeValue(300.0)
    ensures HouseholdSurplus(policy, gamma, [m]) == gamma * (1000000.0 * policy.pow(3.0, policy.alpha))
  {
    FilterSnoc([], m, IsAdult);
    assert [] + [m] == [m];
    assert FirstTwo(Adults([m])) == [m];
    var avg := MeanIncome([m]);
    var f := x => MemberSurplus(policy, gamma, 1, avg, x);
    SumBySnoc([], m, f);
    assert SurplusOf(policy, gamma, 1, avg, [m]) == MemberSurplus(policy, gamma, 1, avg, m);
    assert IncomeYen(m) == 3000000.0;
    assert 3000000.0 / Scale == 3.0;
  }


  /** A policy whose power function is the identity: the transform is then
      linear, `Decay(x) == x`. */
  const LinearPolicy: Policy := Policy(1.0, BetaParams(0.5, 1.0, 1.0), (x, a) => x)

  lemma LinearAdult(avg: real, m: Member)
    requires IsAdult(m) && m.age.years < 65 && m.income.IncomeValue? && m.income.manYen > 0.0
    ensures MemberSurplus(LinearPolicy, 1.0, 4, avg, m) == m.income.manYen * 10000.0
  {
  }

  lemma LinearChild(avg: real, m: Member)
    requires IsMinor(m) && avg > 0.0
    ensures MemberSurplus(LinearPolicy, 1.0, 4, avg, m) == 0.5 * avg
  {
  }

  /** Three adults under 65 with positive incomes followed by a child, under
      the linear policy with γ = 1: the adults receive their incomes and the
      child half the mean of the first two. */
  lemma ThreeAdultsAndChild(x: Member, y: Member, z: Member, k: Member)
    requires IsAdult(x) && x.age.years < 65 && x.income.IncomeValue? && x.income.manYen > 0.0
    requires IsAdult(y) && y.age.years < 65 && y.income.IncomeValue? && y.income.manYen > 0.0
    requires IsAdult(z) && z.age.years < 65 && z.income.IncomeValue? && z.income.manYen > 0.0
    requires IsMinor(k)
    ensures HouseholdSurplus(LinearPolicy, 1.0, [x, y, z, k])
         == IncomeYen(x) + IncomeYen(y) + IncomeYen(z) + 0.5 * ((IncomeYen(x) + IncomeYen(y)) / 2.0)
  {
    var ms := [x, y, z, k];
    AdultsOfFour(x, y, z, k);
    assert FirstTwo(Adults(ms)) == [x, y];
    MeanOfTwo(x, y);
    var avg := (IncomeYen(x) + IncomeYen(y)) / 2.0;
    assert avg > 0.0;
    var total := SurplusFour(LinearPolicy, 1.0, avg, x, y, z, k);
    LinearAdult(avg, x);
    LinearAdult(avg, y);
    LinearAdult(avg, z);
    LinearChild(avg, k);
  }

  /** With three adults and a child, the order in which the members were
      entered changes the surplus: the child is paid on the mean of whichever
      two adults come first. */
  lemma OrderMattersWithThreeAdults(a: Member, b: Member, c: Member, k: Member)
    requires a.age == AgeValue(40) && a.income == IncomeValue(100.0)
    requires b.age == AgeValue(40) && b.income == IncomeValue(100.0)
    requires c.age == AgeValue(40) && c.income == IncomeValue(500.0)
    requires k.age == AgeValue(5)
    ensures multiset([a, b, c, k]) == multiset([c, a, b, k])
    ensures HouseholdSurplus(LinearPolicy, 1.0, [a, b, c, k]) == 7500000.0
    ensures HouseholdSurplus(LinearPolicy, 1.0, [c, a, b, k]) == 8500000.0
  {
    assert IncomeYen(a) == 1000000.0 && IncomeYen(b) == 1000000.0 && IncomeYen(c) == 5000000.0;
    ThreeAdultsAndChild(a, b, c, k);
    ThreeAdultsAndChild(c, a, b, k);
  }

  lemma MeanOfTwo(x: Member, y: Member)
    ensures MeanIncome([x, y]) == (IncomeYen(x) + IncomeYen(y)) / 2.0
  {
    SumBySnoc([], x, IncomeYen);
    assert [] + [x] == [x];
    SumBySnoc([x], y, IncomeYen);
    assert [x] + [y] == [x, y];
  }

  /** The surplus of a four-member household, term by term. */
  lemma SurplusFour(policy: Policy, gamma: real, avg: real, a: Member, b: Member, c: Member, d: Member)
    returns (total: real)
    ensures total == SurplusOf(policy, gamma, 4, avg, [a, b, c, d])
    ensures total == MemberSurplus(policy, gamma, 4, avg, a) + MemberSurplus(policy, gamma, 4, avg, b)
                   + MemberSurplus(policy, gamma, 4, avg, c) + MemberSurplus(policy, gamma, 4, avg, d)
  {
    var f := m => MemberSurplus(policy, gamma, 4, avg, m);
    SumBySnoc([], a, f);
    assert [] + [a] == [a];
    SumBySnoc([a], b, f);
    assert [a] + [b] == [a, b];
    SumBySnoc([a, b], c, f);
    assert [a, b] + [c] == [a, b, c];
    SumBySnoc([a, b, c], d, f);
    assert [a, b, c] + [d] == [a, b, c, d];
    total := SurplusOf(policy, gamma, 4, avg, [a, b, c, d]);
  }

  lemma AdultsOfFour(a: Member, b: Member, c: Member, k: Member)
    requires IsAdult(a) && IsAdult(b) && IsAdult(c) && !IsAdult(k)
    ensures Adults([a, b, c, k]) == [a, b, c]
  {
    FilterSnoc([], a, IsAdult);
    assert [] + [a] == [a];
    FilterSnoc([a], b, IsAdult);
    assert [a] + [b] == [a, b];
    FilterSnoc([a, b], c, IsAdult);
    assert [a, b] + [c] == [a, b, c];
    FilterSnoc([a, b, c], k, IsAdult);
    assert [a, b, c] + [k] == [a, b, c, k];
  }

  // ---------------------------------------------------------------------
  // One household

  /** A household's figures in units of 10,000 yen. */
  datatype HouseholdResult = HouseholdResult(bi: real, surplus: real, total: real)

  /** Skipped by the gate, stopped by a failed lookup, or computed. */
  datatype HouseholdOutcome = Skipped | LookupFailed | Computed(result: HouseholdResult)

  /** What one pass does with one household. */
  function HouseholdOutcomeOf(policy: Policy, gamma: real,
                              lookup: LookupRequest -> Option<BenefitResponse>,
                              h: Household): HouseholdOutcome
  {
    if !IsComplete(h.members) then Skipped
    else
      match lookup(RequestOf(h.members))
      case None => LookupFailed
      case Some(resp) =>
        var bi := AnnualBi(resp);
        var totalSurplus := HouseholdSurplus(policy, gamma, h.members);
        Computed(HouseholdResult(bi / 10000.0, totalSurplus / 10000.0, (bi + totalSurplus) / 10000.0))
  }

  /** The body of the per-household loop of `calculate`. */
  method CalculateHousehold(policy: Policy, gamma: real,
                            lookup: LookupRequest -> Option<BenefitResponse>,
                            household: Household) returns (outcome: HouseholdOutcome)
    ensures outcome == HouseholdOutcomeOf(policy, gamma, lookup, household)
  {
    var isComplete := IsComplete(household.members);
    if !isComplete {
      return Skipped;
    }
    var roles := AssignRoles(household.members);
    RolesAgesKnown(household.members);
    var request := BuildRequest(roles);
    assert request == RequestOf(household.members);
    var response := lookup(request);
    if response.None? {
      return LookupFailed;
    }
    var bi := AnnualBi(response.value);
    ParentAverageOfFirstTwoAdults(household.members);
    var parentAverageIncome := ParentAverageIncome(roles);
    var totalSurplus := TotalSurplus(policy, gamma, household.members, parentAverageIncome);
    assert totalSurplus == HouseholdSurplus(policy, gamma, household.members);
    outcome := Computed(HouseholdResult(bi / 10000.0, totalSurplus / 10000.0, (bi + totalSurplus) / 10000.0));
  }

  /** The gate and the lookup decide the outcome; a computed result holds the
      annual baseline benefit, the surplus with children on the mean income of
      the first two adults, and their sum, all divided by 10,000. */
  lemma HouseholdOutcomeCases(policy: Policy, gamma: real,
                              lookup: LookupRequest -> Option<BenefitResponse>, h: Household)
    ensures HouseholdOutcomeOf(policy, gamma, lookup, h).Skipped? <==> !IsComplete(h.members)
    ensures IsComplete(h.members) ==>
      (HouseholdOutcomeOf(policy, gamma, lookup, h).LookupFailed? <==> lookup(RequestOf(h.members)).None?)
    ensures HouseholdOutcomeOf(policy, gamma, lookup, h).Computed? ==>
      var res := HouseholdOutcomeOf(policy, gamma, lookup, h).result;
      && lookup(RequestOf(h.members)).Some?
      && res.bi * 10000.0 == AnnualBi(lookup(RequestOf(h.members)).value)
      && res.surplus * 10000.0 == SurplusOf(policy, gamma, |h.members|, MeanIncome(FirstTwo(Adults(h.members))), h.members)
      && res.total == res.bi + res.surplus
  {
    RolesOfMembers(h.members);
  }

  /** A one-member household with a blank age is skipped; with the age
      filled in it is not. */
  lemma GateExample(policy: Policy, gamma: real, lookup: LookupRequest -> Option<BenefitResponse>)
    ensures HouseholdOutcomeOf(policy, gamma, lookup,
              Household(1, "h", [Member(1, "m", AgeBlank, IncomeValue(300.0), Female)])) == Skipped
    ensures !HouseholdOutcomeOf(policy, gamma, lookup,
              Household(1, "h", [Member(1, "m", AgeValue(30), IncomeValue(300.0), Female)])).Skipped?
  {
    HouseholdOutcomeCases(policy, gamma, lookup,
      Household(1, "h", [Member(1, "m", AgeValue(30), IncomeValue(300.0), Female)]));
  }

  // ---------------------------------------------------------------------
  // A whole pass

  /** A pass either finishes with the results of every complete household,
      keyed by household id, or stops at the first failed lookup. */
  datatype PassOutcome = Done(results: map<int, HouseholdResult>) | Aborted(householdName: string)

  /** The pass over `hs`, starting from the results `acc` collected so far. */
  function RunPass(policy: Policy, gamma: real, lookup: LookupRequest -> Option<BenefitResponse>,
                   hs: seq<Household>, acc: map<int, HouseholdResult>): PassOutcome
    decreases |hs|
  {
    if |hs| == 0 then Done(acc)
    else match HouseholdOutcomeOf(policy, gamma, lookup, hs[0])
      case Skipped => RunPass(policy, gamma, lookup, hs[1..], acc)
      case LookupFailed => Aborted(hs[0].name)
      case Computed(res) => RunPass(policy, gamma, lookup, hs[1..], acc[hs[0].id := res])
  }

  /** A finished pass has a result for exactly the ids of the complete
      households (and those it started with); incomplete households get none
      unless another household shares their id. */
  lemma {:induction false} RunPassKeys(policy: Policy, gamma: real, lookup: LookupRequest -> Option<BenefitResponse>,
                                       hs: seq<Household>, acc: map<int, HouseholdResult>, id: int)
    requires RunPass(policy, gamma, lookup, hs, acc).Done?
    ensures id in RunPass(policy, gamma, lookup, hs, acc).results <==>
      id in acc || exists i :: 0 <= i < |hs| && hs[i].id == id && IsComplete(hs[i].members)
    decreases |hs|
  {
    if |hs| > 0 {
      var o := HouseholdOutcomeOf(policy, gamma, lookup, hs[0]);
      HouseholdOutcomeCases(policy, gamma, lookup, hs[0]);
      var acc' := if o.Computed? then acc[hs[0].id := o.result] else acc;
      RunPassKeys(policy, gamma, lookup, hs[1..], acc', id);
      if exists i :: 0 <= i < |hs| && hs[i].id == id && IsComplete(hs[i].members) {
        var i :| 0 <= i < |hs| && hs[i].id == id && IsComplete(hs[i].members);
        if i > 0 {
          assert hs[1..][i - 1] == hs[i];
        }
      }
      if exists i :: 0 <= i < |hs[1..]| && hs[1..][i].id == id && IsComplete(hs[1..][i].members) {
        var i :| 0 <= i < |hs[1..]| && hs[1..][i].id == id && IsComplete(hs[1..][i].members);
        assert hs[i + 1] == hs[1..][i];
      }
    }
  }

  /** A finished pass stores, under a household's id, what was computed for
      that household, when no other household shares the id. */
  lemma {:induction false} RunPassValue(policy: Policy, gamma: real, lookup: LookupRequest -> Option<BenefitResponse>,
                                        hs: seq<Household>, acc: map<int, HouseholdResult>, i: nat)
    requires RunPass(policy, gamma, lookup, hs, acc).Done?
    requires i < |hs| && IsComplete(hs[i].members)
    requires forall j :: 0 <= j < |hs| && j != i ==> hs[j].id != hs[i].id
    ensures hs[i].id in RunPass(policy, gamma, lookup, hs, acc).results
    ensures HouseholdOutcomeOf(policy, gamma, lookup, hs[i])
         == Computed(RunPass(policy, gamma, lookup, hs, acc).results[hs[i].id])
    decreases |hs|
  {
    var o := HouseholdOutcomeOf(policy, gamma, lookup, hs[0]);
    HouseholdOutcomeCases(policy, gamma, lookup, hs[0]);
    var acc' := if o.Computed? then acc[hs[0].id := o.result] else acc;
    if i == 0 {
      RunPassKeep(policy, gamma, lookup, hs[1..], acc', hs[0].id);
    } else {
      forall j | 0 <= j < |hs[1..]| && j != i - 1
        ensures hs[1..][j].id != hs[1..][i - 1].id
      {
        assert hs[1..][j] == hs[j + 1];
      }
      RunPassValue(policy, gamma, lookup, hs[1..], acc', i - 1);
    }
  }

  /** Results already collected survive households with other ids. */
  lemma {:induction false} RunPassKeep(policy: Policy, gamma: real, lookup: LookupRequest -> Option<BenefitResponse>,
                                       hs: seq<Household>, acc: map<int, HouseholdResult>, id: int)
    requires RunPass(policy, gamma, lookup, hs, acc).Done?
    requires id in acc
    requires forall j :: 0 <= j < |hs| ==> hs[j].id != id
    ensures id in RunPass(policy, gamma, lookup, hs, acc).results
    ensures RunPass(policy, gamma, lookup, hs, acc).results[id] == acc[id]
    decreases |hs|
  {
    if |hs| > 0 {
      var o := HouseholdOutcomeOf(policy, gamma, lookup, hs[0]);
      var acc' := if o.Computed? then acc[hs[0].id := o.result] else acc;
      forall j | 0 <= j < |hs[1..]|
        ensures hs[1..][j].id != id
      {
        assert hs[1..][j] == hs[j + 1];
      }
      RunPassKeep(policy, gamma, lookup, hs[1..], acc', id);
    }
  }

  /** An aborted pass names the first household, in list order, whose lookup
      failed. */
  lemma {:induction false} RunPassAborted(policy: Policy, gamma: real, lookup: LookupRequest -> Option<BenefitResponse>,
                                          hs: seq<Household>, acc: map<int, HouseholdResult>)
    requires RunPass(policy, gamma, lookup, hs, acc).Aborted?
    ensures exists i :: 0 <= i < |hs| && hs[i].name == RunPass(policy, gamma, lookup, hs, acc).householdName
                        && HouseholdOutcomeOf(policy, gamma, lookup, hs[i]).LookupFailed?
                        && forall j :: 0 <= j < i ==> !HouseholdOutcomeOf(policy, gamma, lookup, hs[j]).LookupFailed?
    decreases |hs|
  {
    var o := HouseholdOutcomeOf(policy, gamma, lookup, hs[0]);
    if !o.LookupFailed? {
      var acc' := if o.Computed? then acc[hs[0].id := o.result] else acc;
      var rest := hs[1..];
      RunPassAborted(policy, gamma, lookup, rest, acc');
      var i :| 0 <= i < |rest| && rest[i].name == RunPass(policy, gamma, lookup, rest, acc').householdName
               && HouseholdOutcomeOf(policy, gamma, lookup, rest[i]).LookupFailed?
               && forall j :: 0 <= j < i ==> !HouseholdOutcomeOf(policy, gamma, lookup, rest[j]).LookupFailed?;
      assert hs[i + 1] == rest[i];
      forall j | 0 <= j < i + 1
        ensures !HouseholdOutcomeOf(policy, gamma, lookup, hs[j]).LookupFailed?
      {
        if j > 0 {
          assert hs[j] == rest[j - 1];
        }
      }
    } else {
      assert hs[0].name == RunPass(policy, gamma, lookup, hs, acc).householdName;
    }
  }

  /** The error a failed lookup reports, naming the household. */
  datatype CalcError = LookupError(householdName: string)

  /** The hook's state: the last stored results and the last error. */
  class HouseholdCalculator {
    var result: Option<map<int, HouseholdResult>>
    var error: Option<CalcError>

    constructor ()
      ensures result == None && error == None
    {
      result := None;
      error := None;
    }

    /** `calculate`: nothing happens for an empty list or while γ is null;
        otherwise the error is cleared and the households are processed in
        order; the collected results replace the stored ones only if no lookup
        failed. */
    method Calculate(policy: Policy, gamma: Option<real>,
                     lookup: LookupRequest -> Option<BenefitResponse>, households: seq<Household>)
      modifies this
      ensures |households| == 0 || gamma.None? ==> result == old(result) && error == old(error)
      ensures |households| > 0 && gamma.Some? ==>
        match RunPass(policy, gamma.value, lookup, households, map[])
        case Done(m) => result == Some(m) && error == None
        case Aborted(name) => result == old(result) && error == Some(LookupError(name))
    {
      if |households| == 0 || gamma.None? {
        return;
      }
      error := None;
      var newResults: map<int, HouseholdResult> := map[];
      var i := 0;
      while i < |households|
        invariant 0 <= i <= |households|
        invariant result == old(result) && error == None
        invariant RunPass(policy, gamma.value, lookup, households[i..], newResults)
               == RunPass(policy, gamma.value, lookup, households, map[])
      {
        assert households[i..][1..] == households[i + 1..];
        var outcome := CalculateHousehold(policy, gamma.value, lookup, households[i]);
        match outcome {
          case Skipped =>
          case LookupFailed =>
            error := Some(LookupError(households[i].name));
            return;
          case Computed(res) =>
            newResults := newResults[households[i].id := res];
        }
        i := i + 1;
      }
      result := Some(newResults);
    }
  }
}
