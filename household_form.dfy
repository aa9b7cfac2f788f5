/** The multi-household editor (app/src/components/HouseholdForm.tsx): every
    operation builds a new household list from the old one. Household ids are
    allocated as one more than the largest household id, member ids as one more
    than the largest member id across all households. */
module HouseholdForm {
  import opened Types
  import opened Sums
  import opened Numerals

  /** The ids of the households, in order. */
  function HouseholdIds(hs: seq<Household>): (ids: seq<int>)
    ensures |ids| == |hs|
    ensures forall i :: 0 <= i < |hs| ==> ids[i] == hs[i].id
  {
    seq(|hs|, i requires 0 <= i < |hs| => hs[i].id)
  }

  /** `households.flatMap(h => h.members)`. */
  function AllMembers(hs: seq<Household>): (all: seq<Member>)
    ensures forall i, j :: 0 <= i < |hs| && 0 <= j < |hs[i].members| ==> hs[i].members[j] in all
    ensures forall m :: m in all ==> exists i :: 0 <= i < |hs| && m in hs[i].members
    decreases |hs|
  {
    if |hs| == 0 then [] else AllMembers(hs[..|hs| - 1]) + hs[|hs| - 1].members
  }

  /** No two households share an id. */
  predicate HouseholdIdsUnique(hs: seq<Household>)
  {
    forall i, j :: 0 <= i < j < |hs| ==> hs[i].id != hs[j].id
  }

  /** No two member slots, in the same household or in different ones, share
      a member id. */
  predicate MemberIdsUnique(hs: seq<Household>)
  {
    forall i, j, i2, j2 ::
      && 0 <= i < |hs| && 0 <= j < |hs[i].members|
      && 0 <= i2 < |hs| && 0 <= j2 < |hs[i2].members|
      && (i != i2 || j != j2)
      ==> hs[i].members[j].id != hs[i2].members[j2].id
  }

  /** The invariant the editor keeps: household ids and member ids are keys. */
  predicate Valid(hs: seq<Household>)
  {
    HouseholdIdsUnique(hs) && MemberIdsUnique(hs)
  }

  /** The id `addHousehold` gives the new household: the largest id plus one,
      or 1 for an empty list. It exceeds every existing id. */
  function NextHouseholdId(hs: seq<Household>): (id: int)
    ensures forall i :: 0 <= i < |hs| ==> hs[i].id < id
    ensures |hs| == 0 ==> id == 1
    ensures |hs| > 0 ==> exists i :: 0 <= i < |hs| && hs[i].id == id - 1
  {
    if |hs| > 0 then MaxOf(HouseholdIds(hs)) + 1 else 1
  }

  /** The id a new member receives: the largest member id across all
      households plus one, counting from 0 when there are no members. */
  function NextMemberId(hs: seq<Household>): (id: int)
    ensures forall i, j :: 0 <= i < |hs| && 0 <= j < |hs[i].members| ==> hs[i].members[j].id < id
    ensures |AllMembers(hs)| == 0 ==> id == 1
    ensures |AllMembers(hs)| > 0 ==>
      exists i, j :: 0 <= i < |hs| && 0 <= j < |hs[i].members| && hs[i].members[j].id == id - 1
  {
    var all := AllMembers(hs);
    var maxMemberId := if |all| > 0 then MaxMemberId(hs); MaxOf(MemberIds(all)) else 0;
    maxMemberId + 1
  }

  /** The largest id of the flattened member list bounds every member slot
      and is the id of one of them. */
  lemma MaxMemberId(hs: seq<Household>)
    requires |AllMembers(hs)| > 0
    ensures forall i, j :: 0 <= i < |hs| && 0 <= j < |hs[i].members| ==>
      hs[i].members[j].id <= MaxOf(MemberIds(AllMembers(hs)))
    ensures exists i, j ::
      0 <= i < |hs| && 0 <= j < |hs[i].members| && hs[i].members[j].id == MaxOf(MemberIds(AllMembers(hs)))
  {
    var all := AllMembers(hs);
    var ids := MemberIds(all);
    var top := MaxOf(ids);
    forall i, j | 0 <= i < |hs| && 0 <= j < |hs[i].members|
      ensures hs[i].members[j].id <= top
    {
      var k :| 0 <= k < |all| && all[k] == hs[i].members[j];
      assert ids[k] == all[k].id;
    }
    var k :| 0 <= k < |ids| && ids[k] == top;
    assert all[k] in all;
    var i :| 0 <= i < |hs| && all[k] in hs[i].members;
    var j :| 0 <= j < |hs[i].members| && hs[i].members[j] == all[k];
  }

  /** A blank member as the editor creates it: named 世帯員<id>, age and income
      empty, gender female. */
  function BlankMember(id: int): Member
  {
    Member(id, "世帯員" + IntToString(id), AgeBlank, IncomeBlank, Female)
  }

  /** `addHousehold`: one household appended, named 世帯<id>, holding one blank
      member; both ids are fresh and the earlier households are untouched. */
  function AddHousehold(hs: seq<Household>): (r: seq<Household>)
    ensures |r| == |hs| + 1 && r[..|hs|] == hs
    ensures r[|hs|].id == NextHouseholdId(hs) && r[|hs|].name == "世帯" + IntToString(r[|hs|].id)
    ensures r[|hs|].members == [BlankMember(NextMemberId(hs))]
    ensures forall i :: 0 <= i < |hs| ==> hs[i].id != r[|hs|].id
    ensures forall i, j :: 0 <= i < |hs| && 0 <= j < |hs[i].members| ==>
      hs[i].members[j].id != r[|hs|].members[0].id
  {
    var newHouseholdId := NextHouseholdId(hs);
    var newMemberId := NextMemberId(hs);
    hs + [Household(newHouseholdId, "世帯" + IntToString(newHouseholdId), [BlankMember(newMemberId)])]
  }

  /** `addMember`: every household with id `householdId` gains one blank
      member at the end; the others are returned as they were. */
  function AddMember(hs: seq<Household>, householdId: int): (r: seq<Household>)
    ensures |r| == |hs|
    ensures forall i :: 0 <= i < |hs| && hs[i].id != householdId ==> r[i] == hs[i]
    ensures forall i :: 0 <= i < |hs| && hs[i].id == householdId ==>
      && r[i].id == hs[i].id && r[i].name == hs[i].name
      && r[i].members == hs[i].members + [BlankMember(NextMemberId(hs))]
  {
    var newMemberId := NextMemberId(hs);
    seq(|hs|, i requires 0 <= i < |hs| =>
      if hs[i].id == householdId
      then hs[i].(members := hs[i].members + [BlankMember(newMemberId)])
      else hs[i])
  }

  /** `updateMember`: inside the households with id `householdId`, the members
      with id `memberId` receive the edit; ids, names, sizes and every other
      member stay as they were. */
  function UpdateMember(hs: seq<Household>, householdId: int, memberId: int, e: Edit): (r: seq<Household>)
    ensures |r| == |hs|
    ensures forall i :: 0 <= i < |hs| ==>
      r[i].id == hs[i].id && r[i].name == hs[i].name && MemberIds(r[i].members) == MemberIds(hs[i].members)
    ensures forall i :: 0 <= i < |hs| && hs[i].id != householdId ==> r[i] == hs[i]
    ensures forall i :: 0 <= i < |hs| && hs[i].id == householdId ==>
      r[i].members == EditMembers(hs[i].members, memberId, e)
  {
    seq(|hs|, i requires 0 <= i < |hs| =>
      if hs[i].id == householdId
      then hs[i].(members := EditMembers(hs[i].members, memberId, e))
      else hs[i])
  }

  /** Adding a member to a household that does not exist changes nothing. */
  lemma AddMemberUnknownHousehold(hs: seq<Household>, householdId: int)
    requires forall i :: 0 <= i < |hs| ==> hs[i].id != householdId
    ensures AddMember(hs, householdId) == hs
  {
  }

  /** Editing a member of a household that does not exist changes nothing. */
  lemma UpdateMemberUnknownHousehold(hs: seq<Household>, householdId: int, memberId: int, e: Edit)
    requires forall i :: 0 <= i < |hs| ==> hs[i].id != householdId
    ensures UpdateMember(hs, householdId, memberId, e) == hs
  {
  }

  /** Editing a member id that no household holds changes nothing. */
  lemma UpdateMemberUnknownMember(hs: seq<Household>, householdId: int, memberId: int, e: Edit)
    requires forall i, j :: 0 <= i < |hs| && 0 <= j < |hs[i].members| ==> hs[i].members[j].id != memberId
    ensures UpdateMember(hs, householdId, memberId, e) == hs
  {
    var r := UpdateMember(hs, householdId, memberId, e);
    forall i | 0 <= i < |hs|
      ensures r[i] == hs[i]
    {
      if hs[i].id == householdId {
        EditMembersUnknownId(hs[i].members, memberId, e);
      }
    }
  }

  /** The empty list satisfies the invariant. */
  lemma EmptyValid()
    ensures Valid([])
  {
  }

  /** `addHousehold` keeps household ids and member ids unique. */
  lemma AddHouseholdKeepsValid(hs: seq<Household>)
    requires Valid(hs)
    ensures Valid(AddHousehold(hs))
  {
    AddHouseholdKeepsHouseholdIds(hs);
    AddHouseholdKeepsMemberIds(hs);
  }

  lemma AddHouseholdKeepsHouseholdIds(hs: seq<Household>)
    requires HouseholdIdsUnique(hs)
    ensures HouseholdIdsUnique(AddHousehold(hs))
  {
    var r := AddHousehold(hs);
    forall i, j | 0 <= i < j < |r|
      ensures r[i].id != r[j].id
    {
      assert r[i] == r[..|hs|][i] == hs[i];
      if j < |hs| {
        assert r[j] == r[..|hs|][j] == hs[j];
      }
    }
  }

  lemma AddHouseholdKeepsMemberIds(hs: seq<Household>)
    requires MemberIdsUnique(hs)
    ensures MemberIdsUnique(AddHousehold(hs))
  {
    var r := AddHousehold(hs);
    var n := |hs|;
    var newId := NextMemberId(hs);
    forall i | 0 <= i < n
      ensures r[i] == hs[i]
    {
      assert r[i] == r[..n][i];
    }
    assert r[n].members == [BlankMember(newId)];
    forall i, j | 0 <= i < |r| && 0 <= j < |r[i].members|
      ensures i < n ==> r[i].members[j].id == hs[i].members[j].id
      ensures i < n ==> r[i].members[j].id != newId
      ensures i == n ==> j == 0 && r[i].members[j].id == newId
    {
    }
  }

  /** `addMember` keeps the invariant. That household ids are unique matters:
      were two households to share the id, both would receive a member with
      the same fresh id. */
  lemma AddMemberKeepsValid(hs: seq<Household>, householdId: int)
    requires Valid(hs)
    ensures Valid(AddMember(hs, householdId))
  {
    var r := AddMember(hs, householdId);
    var newId := NextMemberId(hs);
    forall i, j | 0 <= i < j < |r|
      ensures r[i].id != r[j].id
    {
      assert r[i].id == hs[i].id && r[j].id == hs[j].id;
    }
    forall i, j | 0 <= i < |r| && 0 <= j < |r[i].members|
      ensures j < |hs[i].members| ==> r[i].members[j] == hs[i].members[j]
      ensures j >= |hs[i].members| ==> hs[i].id == householdId && r[i].members[j].id == newId
    {
    }
  }

  /** `updateMember` keeps every id where it was, and so the invariant. */
  lemma UpdateMemberKeepsValid(hs: seq<Household>, householdId: int, memberId: int, e: Edit)
    requires Valid(hs)
    ensures Valid(UpdateMember(hs, householdId, memberId, e))
  {
    var r := UpdateMember(hs, householdId, memberId, e);
    forall i, j | 0 <= i < |r| && 0 <= j < |r[i].members|
      ensures r[i].members[j].id == hs[i].members[j].id
    {
      assert r[i].members[j].id == MemberIds(r[i].members)[j];
    }
  }

  /** The first household of an empty editor is 世帯1 with member 世帯員1. */
  lemma FirstHousehold()
    ensures AddHousehold([]) == [Household(1, "世帯1", [BlankMember(1)])]
  {
    assert AllMembers([]) == [];
    assert NextHouseholdId([]) == 1 && NextMemberId([]) == 1;
    assert IntToString(1) == NatToString(1) == [DigitChar(1)] == "1";
    assert "世帯" + "1" == "世帯1";
    assert [] + [Household(1, "世帯1", [BlankMember(1)])] == [Household(1, "世帯1", [BlankMember(1)])];
  }
}
