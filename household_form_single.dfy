/** The single-household editor (app/src/components/HouseholdFormSingle.tsx):
    add, delete and edit the members of one household. Every operation returns
    a new household record with the same id and name. */
module HouseholdFormSingle {
  import opened Types
  import opened Sums
  import opened Numerals

  /** The id `addMember` gives the new member: the largest id plus one, or 1
      for an empty household. It exceeds every current id. */
  function NewMemberId(ms: seq<Member>): (id: int)
    ensures forall i :: 0 <= i < |ms| ==> ms[i].id < id
    ensures |ms| == 0 ==> id == 1
    ensures |ms| > 0 ==> exists i :: 0 <= i < |ms| && ms[i].id == id - 1
  {
    var maxMemberId := if |ms| > 0 then MaxOf(MemberIds(ms)) else 0;
    maxMemberId + 1
  }

  /** `addMember`: one member appended, named メンバー<n> for the new length
      n, with blank age and income and gender male; the earlier members are
      untouched and the new id is fresh. */
  function AddMember(h: Household): (r: Household)
    ensures r.id == h.id && r.name == h.name
    ensures |r.members| == |h.members| + 1 && r.members[..|h.members|] == h.members
    ensures r.members[|h.members|]
         == Member(NewMemberId(h.members), "メンバー" + IntToString(|h.members| + 1), AgeBlank, IncomeBlank, Male)
    ensures forall i :: 0 <= i < |h.members| ==> h.members[i].id < r.members[|h.members|].id
  {
    var newMemberId := NewMemberId(h.members);
    var newMemberIndex := |h.members| + 1;
    h.(members := h.members + [Member(newMemberId, "メンバー" + IntToString(newMemberIndex), AgeBlank, IncomeBlank, Male)])
  }

  /** Keeps a member unless it carries the deleted id. */
  function Survives(memberId: int): Member -> bool
  {
    (m: Member) => m.id != memberId
  }

  /** `deleteMember`: the members with id `memberId` removed, the others kept
      in their order. */
  function DeleteMember(h: Household, memberId: int): (r: Household)
    ensures r.id == h.id && r.name == h.name
    ensures forall m :: m in r.members <==> m in h.members && m.id != memberId
  {
    var kept := Filter(h.members, Survives(memberId));
    DeleteMembership(h.members, memberId);
    h.(members := kept)
  }

  lemma DeleteMembership(ms: seq<Member>, memberId: int)
    ensures forall m :: m in Filter(ms, Survives(memberId)) <==> m in ms && m.id != memberId
  {
    forall m {
      FilterMember(ms, Survives(memberId), m);
    }
  }

  /** `updateMember`: the members with id `memberId` receive the edit, the
      household and every other member stay as they were. */
  function UpdateMember(h: Household, memberId: int, e: Edit): (r: Household)
    ensures r.id == h.id && r.name == h.name
    ensures r.members == EditMembers(h.members, memberId, e)
  {
    h.(members := EditMembers(h.members, memberId, e))
  }

  /** Appending the fresh member keeps ids unique. */
  lemma AddMemberKeepsIdsUnique(h: Household)
    requires IdsUnique(h.members)
    ensures IdsUnique(AddMember(h).members)
  {
    var r := AddMember(h).members;
    var n := |h.members|;
    forall i, j | 0 <= i < j < |r|
      ensures r[i].id != r[j].id
    {
      assert r[i] == r[..n][i] == h.members[i];
      if j < n {
        assert r[j] == r[..n][j] == h.members[j];
      }
    }
  }

  /** When ids are unique and the member at index `k` carries `memberId`,
      deletion removes exactly that member and keeps the order of the rest. */
  lemma DeleteRemovesOne(h: Household, k: int)
    requires IdsUnique(h.members) && 0 <= k < |h.members|
    ensures DeleteMember(h, h.members[k].id).members == h.members[..k] + h.members[k + 1..]
  {
    var ms := h.members;
    var x := ms[k];
    var p := Survives(x.id);
    var before, after := ms[..k], ms[k + 1..];
    forall i | 0 <= i < |before| ensures p(before[i]) {
      assert before[i] == ms[i];
    }
    forall i | 0 <= i < |after| ensures p(after[i]) {
      assert after[i] == ms[k + 1 + i];
    }
    SplitAt(ms, k);
    FilterDropsOne(before, x, after, p);
    assert before + [x] + after == ms;
  }

  /** The delete control is offered for members after the first only
      (`index > 0`); deleting through it keeps the first member first. */
  lemma DeleteKeepsFirst(h: Household, k: int)
    requires IdsUnique(h.members) && 0 < k < |h.members|
    ensures var r := DeleteMember(h, h.members[k].id);
            |r.members| == |h.members| - 1 && r.members[0] == h.members[0]
  {
    DeleteRemovesOne(h, k);
  }

  /** Deleting an id no member carries changes nothing. */
  lemma DeleteUnknownId(h: Household, memberId: int)
    requires forall i :: 0 <= i < |h.members| ==> h.members[i].id != memberId
    ensures DeleteMember(h, memberId) == h
  {
    FilterAll(h.members, Survives(memberId));
  }

  /** Removing members keeps ids unique. */
  lemma {:induction false} FilterKeepsIdsUnique(ms: seq<Member>, p: Member -> bool)
    requires IdsUnique(ms)
    ensures IdsUnique(Filter(ms, p))
    decreases |ms|
  {
    if |ms| > 0 {
      var n := |ms|;
      var init, last := ms[..n - 1], ms[n - 1];
      assert IdsUnique(init) by {
        forall i, j | 0 <= i < j < |init| ensures init[i].id != init[j].id {
          assert init[i] == ms[i] && init[j] == ms[j];
        }
      }
      FilterKeepsIdsUnique(init, p);
      var f := Filter(init, p);
      if p(last) {
        forall i | 0 <= i < |f|
          ensures f[i].id != last.id
        {
          FilterMember(init, p, f[i]);
          var j :| 0 <= j < |init| && init[j] == f[i];
          assert ms[j] == f[i];
        }
        var g := f + [last];
        forall i, j | 0 <= i < j < |g|
          ensures g[i].id != g[j].id
        {
          assert g[i] == f[i];
          if j < |f| {
            assert g[j] == f[j];
          }
        }
      }
    }
  }

  lemma DeleteKeepsIdsUnique(h: Household, memberId: int)
    requires IdsUnique(h.members)
    ensures IdsUnique(DeleteMember(h, memberId).members)
  {
    FilterKeepsIdsUnique(h.members, Survives(memberId));
  }

  lemma UpdateKeepsIdsUnique(h: Household, memberId: int, e: Edit)
    requires IdsUnique(h.members)
    ensures IdsUnique(UpdateMember(h, memberId, e).members)
  {
    EditMembersKeepsIdsUnique(h.members, memberId, e);
  }
}
