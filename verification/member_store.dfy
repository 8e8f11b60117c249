/**
  The frontend's member store: the list of project members, looked up by the
  principal a member stands for, appended to, replaced in by member id and
  filtered by member id.
 */
module MemberStore {
  import opened Wrappers
  import opened Seqs

  datatype Principal = Principal(id: int, name: string)

  /** A project member; `role` stands for the attributes the store never inspects. */
  datatype Member = Member(id: int, principal: Principal, role: string)

  datatype MemberState = MemberState(memberList: seq<Member>)

  /**
    The placeholder id and the two placeholder members the store hands out,
    which are defined outside the store: the member for "no principal" and
    the member for "a principal with no member".
   */
  datatype Sentinels = Sentinels(emptyId: int, empty: Member, unknown: Member)

  /** The store starts with no members. */
  function InitialState(): (r: MemberState)
    ensures |r.memberList| == 0
  {
    MemberState([])
  }

  function StandsFor(id: int): Member -> bool {
    (m: Member) => m.principal.id == id
  }

  function HasId(id: int): Member -> bool {
    (m: Member) => m.id == id
  }

  function LacksId(id: int): Member -> bool {
    (m: Member) => m.id != id
  }

  /**
    The member standing for principal `id`: the empty member for the
    placeholder id, whatever the list holds; otherwise the first member in
    the list whose principal is `id`; otherwise the unknown member.
   */
  function MemberByPrincipalId(st: MemberState, id: int, z: Sentinels): (r: Member)
    ensures id == z.emptyId ==> r == z.empty
    ensures id != z.emptyId && (forall i :: 0 <= i < |st.memberList| ==> st.memberList[i].principal.id != id) ==> r == z.unknown
    ensures id != z.emptyId && (exists i :: 0 <= i < |st.memberList| && st.memberList[i].principal.id == id) ==>
      exists i :: 0 <= i < |st.memberList| && st.memberList[i] == r && r.principal.id == id
        && forall j :: 0 <= j < i ==> st.memberList[j].principal.id != id
  {
    if id == z.emptyId then z.empty
    else
      match Find(st.memberList, StandsFor(id))
      case Some(m) => m
      case None => z.unknown
  }

  /** Replaces the whole list, as after a fetch or a delete. */
  function SetMemberList(st: MemberState, memberList: seq<Member>): (r: MemberState)
    ensures r.memberList == memberList
  {
    MemberState(memberList)
  }

  /** Adds a member at the end of the list. */
  function AppendMember(st: MemberState, newMember: Member): (r: MemberState)
    ensures |r.memberList| == |st.memberList| + 1
    ensures r.memberList[..|st.memberList|] == st.memberList
    ensures r.memberList[|st.memberList|] == newMember
  {
    MemberState(st.memberList + [newMember])
  }

  /**
    Overwrites the first member whose id is the updated member's id; the list
    is unchanged when no member has that id.
   */
  function ReplaceMemberInList(st: MemberState, updated: Member): (r: MemberState)
    ensures |r.memberList| == |st.memberList|
    ensures forall i :: 0 <= i < |st.memberList| ==>
      r.memberList[i] == (if st.memberList[i].id == updated.id && (forall j :: 0 <= j < i ==> st.memberList[j].id != updated.id)
                          then updated else st.memberList[i])
    ensures (forall i :: 0 <= i < |st.memberList| ==> st.memberList[i].id != updated.id) ==> r == st
  {
    match FirstIndex(st.memberList, HasId(updated.id))
    case None => st
    case Some(i) => MemberState(st.memberList[i := updated])
  }

  /** The list after deleting member `id`: every member with another id, in order. */
  function DeleteMemberById(st: MemberState, id: int): (r: MemberState)
    ensures forall m: Member :: m in r.memberList <==> m in st.memberList && m.id != id
    ensures forall i :: 0 <= i < |r.memberList| ==> r.memberList[i].id != id
    ensures forall m: Member :: m.id != id ==> multiset(r.memberList)[m] == multiset(st.memberList)[m]
  {
    MemberState(Filter(st.memberList, LacksId(id)))
  }

  /** Deleting keeps relative order: it distributes over a split of the list. */
  lemma DeleteKeepsOrder(a: seq<Member>, b: seq<Member>, id: int)
    ensures DeleteMemberById(MemberState(a + b), id).memberList
            == DeleteMemberById(MemberState(a), id).memberList + DeleteMemberById(MemberState(b), id).memberList
  {
    FilterAppend(a, b, LacksId(id));
  }

  /** Deleting the same id twice is deleting it once. */
  lemma DeleteIdempotent(st: MemberState, id: int)
    ensures DeleteMemberById(DeleteMemberById(st, id), id) == DeleteMemberById(st, id)
  {
    FilterIdempotent(st.memberList, LacksId(id));
  }

  /** A member appended and then deleted by its own id leaves what deleting alone leaves; any other id keeps it last. */
  lemma DeleteAfterAppend(st: MemberState, m: Member, id: int)
    ensures m.id == id ==> DeleteMemberById(AppendMember(st, m), id) == DeleteMemberById(st, id)
    ensures m.id != id ==> DeleteMemberById(AppendMember(st, m), id) == AppendMember(DeleteMemberById(st, id), m)
  {
    FilterAppend(st.memberList, [m], LacksId(id));
    assert Filter([m], LacksId(id)) == (if m.id != id then [m] else []) by {
      assert [m][1..] == [];
    }
  }

  /** Replacing with the same member twice is replacing once. */
  lemma ReplaceIdempotent(st: MemberState, updated: Member)
    ensures ReplaceMemberInList(ReplaceMemberInList(st, updated), updated) == ReplaceMemberInList(st, updated)
  {
    var r := ReplaceMemberInList(st, updated);
    var rr := ReplaceMemberInList(r, updated);
    assert forall i :: 0 <= i < |r.memberList| ==> r.memberList[i].id == st.memberList[i].id;
    assert forall i :: 0 <= i < |rr.memberList| ==> rr.memberList[i] == r.memberList[i];
  }

  /** Filtering by id sees only ids: two lists that differ only at members with the deleted id filter alike. */
  lemma {:induction false} DeleteIgnoresMembersWithId(a: seq<Member>, b: seq<Member>, id: int)
    requires |a| == |b|
    requires forall i :: 0 <= i < |a| ==> a[i] == b[i] || (a[i].id == id && b[i].id == id)
    ensures Filter(a, LacksId(id)) == Filter(b, LacksId(id))
  {
    if |a| > 0 {
      DeleteIgnoresMembersWithId(a[1..], b[1..], id);
    }
  }

  /** A replaced member is one delete would remove, so replacing and then deleting that id is deleting alone. */
  lemma DeleteAfterReplace(st: MemberState, updated: Member)
    ensures DeleteMemberById(ReplaceMemberInList(st, updated), updated.id) == DeleteMemberById(st, updated.id)
  {
    DeleteIgnoresMembersWithId(ReplaceMemberInList(st, updated).memberList, st.memberList, updated.id);
  }

  /**
    Looking a principal up after an append finds the earlier member when the
    list already had one, and otherwise the appended member when it stands
    for that principal.
   */
  lemma LookupAfterAppend(st: MemberState, m: Member, id: int, z: Sentinels)
    requires id != z.emptyId
    ensures (exists i :: 0 <= i < |st.memberList| && st.memberList[i].principal.id == id) ==>
      MemberByPrincipalId(AppendMember(st, m), id, z) == MemberByPrincipalId(st, id, z)
    ensures (forall i :: 0 <= i < |st.memberList| ==> st.memberList[i].principal.id != id) ==>
      MemberByPrincipalId(AppendMember(st, m), id, z) == (if m.principal.id == id then m else z.unknown)
  {
    var s := st.memberList;
    var t := AppendMember(st, m).memberList;
    assert forall i :: 0 <= i < |s| ==> t[i] == s[i];
  }

  /** After a replacement that found its member, looking up the replaced member's principal finds a member standing for it. */
  lemma LookupAfterReplace(st: MemberState, updated: Member, z: Sentinels)
    requires updated.principal.id != z.emptyId
    requires exists i :: 0 <= i < |st.memberList| && st.memberList[i].id == updated.id
    ensures MemberByPrincipalId(ReplaceMemberInList(st, updated), updated.principal.id, z).principal.id == updated.principal.id
  {
    var i :| 0 <= i < |st.memberList| && st.memberList[i].id == updated.id;
    var k := FirstIndex(st.memberList, HasId(updated.id)).value;
    assert ReplaceMemberInList(st, updated).memberList[k] == updated;
  }
}
