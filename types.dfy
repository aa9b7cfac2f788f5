/** The records the simulator works on: reference persons and totals for the
    calibration, the three β inputs, and the households and members that the
    forms edit and the payout engine reads. Text inputs appear already parsed:
    a field is blank (empty after trimming), present but not a number, or a
    number. */
module Types {

  datatype Option<+T> = None | Some(value: T)

  function OrZero(x: Option<real>): real
  {
    match x
    case Some(v) => v
    case None => 0.0
  }

  /** One person of the reference population. A missing household id is
      `None`; a missing or non-numeric parental income is `None`. */
  datatype Person = Person(
    personId: string,
    householdId: Option<string>,
    householdType: Option<string>,
    parentIncome: Option<real>,
    age: int)

  /** The aggregate totals of the reference population. */
  datatype ActualTotals = ActualTotals(
    actualTotal: real,
    incomeActualTotal: real,
    allowanceActualTotal: real,
    biTotal: real)

  /** The three user-tunable β inputs. */
  datatype BetaParams = BetaParams(child: real, elder: real, couple: real)

  datatype Gender = Female | Male | Other

  /** The age field: blank, not an integer, or the integer it parses to. */
  datatype AgeInput = AgeBlank | AgeInvalid | AgeValue(years: int)

  /** The annual income field in units of 10,000 yen: blank, not a number,
      or the number it parses to. */
  datatype IncomeInput = IncomeBlank | IncomeInvalid | IncomeValue(manYen: real)

  datatype Member = Member(id: int, name: string, age: AgeInput, income: IncomeInput, gender: Gender)

  datatype Household = Household(id: int, name: string, members: seq<Member>)

  /** The fields the member forms edit: gender, age and income. */
  datatype Edit = SetAge(age: AgeInput) | SetIncome(income: IncomeInput) | SetGender(gender: Gender)

  /** A member with one field replaced; the edit never touches id or name. */
  function ApplyEdit(m: Member, e: Edit): (r: Member)
    ensures r.id == m.id && r.name == m.name
  {
    match e
    case SetAge(a) => m.(age := a)
    case SetIncome(i) => m.(income := i)
    case SetGender(g) => m.(gender := g)
  }

  /** The ids of `ms`, in order. */
  function MemberIds(ms: seq<Member>): (ids: seq<int>)
    ensures |ids| == |ms|
    ensures forall i :: 0 <= i < |ms| ==> ids[i] == ms[i].id
  {
    seq(|ms|, i requires 0 <= i < |ms| => ms[i].id)
  }

  /** No two members of `ms` share an id. */
  predicate IdsUnique(ms: seq<Member>)
  {
    forall i, j :: 0 <= i < j < |ms| ==> ms[i].id != ms[j].id
  }

  /** `members.map(m => m.id === memberId ? { ...m, [field]: value } : m)`:
      every member with id `memberId` edited, every other member as it was. */
  function EditMembers(ms: seq<Member>, memberId: int, e: Edit): (r: seq<Member>)
    ensures |r| == |ms| && MemberIds(r) == MemberIds(ms)
    ensures forall i :: 0 <= i < |ms| && ms[i].id != memberId ==> r[i] == ms[i]
    ensures forall i :: 0 <= i < |ms| && ms[i].id == memberId ==> r[i] == ApplyEdit(ms[i], e)
  {
    seq(|ms|, i requires 0 <= i < |ms| => if ms[i].id == memberId then ApplyEdit(ms[i], e) else ms[i])
  }

  /** Editing keeps the ids, so it keeps them unique. */
  lemma EditMembersKeepsIdsUnique(ms: seq<Member>, memberId: int, e: Edit)
    requires IdsUnique(ms)
    ensures IdsUnique(EditMembers(ms, memberId, e))
  {
    var r := EditMembers(ms, memberId, e);
    forall i, j | 0 <= i < j < |r|
      ensures r[i].id != r[j].id
    {
      assert r[i].id == MemberIds(r)[i] == MemberIds(ms)[i];
      assert r[j].id == MemberIds(r)[j] == MemberIds(ms)[j];
    }
  }

  /** An id no member carries selects nothing: the list comes back unchanged. */
  lemma EditMembersUnknownId(ms: seq<Member>, memberId: int, e: Edit)
    requires forall i :: 0 <= i < |ms| ==> ms[i].id != memberId
    ensures EditMembers(ms, memberId, e) == ms
  {
  }
}
