/** The team store of src/store/teamStore.ts: members, departments (which list
    their members' ids and may name a lead), and the selected member. */
module Team {
  import opened Maybe
  import opened Tables

  type Id = string

  datatype TeamRole = Admin | Manager | MemberRole | ClientRole
  datatype MemberStatus = ActiveMember | Invited | Inactive

  /** `TeamMember`; its permissions and metadata records are not modelled. */
  datatype TeamMember = TeamMember(
    id: Id, name: string, email: string, role: TeamRole, department: string,
    status: MemberStatus, avatar: Option<string>, phone: Option<string>)

  datatype MemberPatch = MemberPatch(
    id: Option<Id>, name: Option<string>, email: Option<string>, role: Option<TeamRole>,
    department: Option<string>, status: Option<MemberStatus>, avatar: Option<string>, phone: Option<string>)

  datatype Department = Department(
    id: Id, name: string, description: string, lead: Option<Id>, members: seq<Id>, projects: seq<Id>)

  datatype DepartmentPatch = DepartmentPatch(
    id: Option<Id>, name: Option<string>, description: Option<string>, lead: Option<Id>,
    members: Option<seq<Id>>, projects: Option<seq<Id>>)

  function MergeMember(m: TeamMember, u: MemberPatch): TeamMember
  {
    TeamMember(Or(u.id, m.id), Or(u.name, m.name), Or(u.email, m.email), Or(u.role, m.role),
               Or(u.department, m.department), Or(u.status, m.status),
               OrElse(u.avatar, m.avatar), OrElse(u.phone, m.phone))
  }

  function MergeDepartment(d: Department, u: DepartmentPatch): Department
  {
    Department(Or(u.id, d.id), Or(u.name, d.name), Or(u.description, d.description),
               OrElse(u.lead, d.lead), Or(u.members, d.members), Or(u.projects, d.projects))
  }

  // ---------------------------------------------------------------------------
  // Table transitions

  /** `updateMember`'s new table. */
  function MembersUpdated(members: seq<TeamMember>, id: Id, u: MemberPatch): (r: seq<TeamMember>)
    ensures |r| == |members|
    ensures forall i :: 0 <= i < |members| && members[i].id == id ==> r[i] == MergeMember(members[i], u)
    ensures forall i :: 0 <= i < |members| && members[i].id != id ==> r[i] == members[i]
  {
    MapIf(members, (m: TeamMember) => m.id == id, (m: TeamMember) => MergeMember(m, u))
  }

  /** The members without this id, in order. */
  function MembersWithout(members: seq<TeamMember>, id: Id): (r: seq<TeamMember>)
    ensures forall m | m in r :: m in members && m.id != id
    ensures forall m | m in members && m.id != id :: m in r
  {
    Filter(members, (m: TeamMember) => m.id != id)
  }

  /** A list of member ids without this one, in order. */
  function IdsWithout(ids: seq<Id>, id: Id): (r: seq<Id>)
    ensures forall x | x in r :: x in ids && x != id
    ensures forall x | x in ids && x != id :: x in r
  {
    Filter(ids, (x: Id) => x != id)
  }

  /** One department once the member is removed: the id gone from its member list
      and its lead cleared if the member led it. */
  function Unstaffed(d: Department, memberId: Id): (r: Department)
    ensures r.members == IdsWithout(d.members, memberId)
    ensures r.lead == if d.lead == Some(memberId) then None else d.lead
    ensures r.(members := d.members, lead := d.lead) == d
  {
    d.(members := IdsWithout(d.members, memberId), lead := if d.lead == Some(memberId) then None else d.lead)
  }

  /** `removeMember`'s new department table: every department unstaffed. */
  function DepartmentsWithoutMember(departments: seq<Department>, memberId: Id): (r: seq<Department>)
    ensures |r| == |departments|
    ensures forall i :: 0 <= i < |departments| ==> r[i] == Unstaffed(departments[i], memberId)
  {
    MapIf(departments, (d: Department) => true, (d: Department) => Unstaffed(d, memberId))
  }

  /** `updateDepartment`'s new table. */
  function DepartmentsUpdated(departments: seq<Department>, id: Id, u: DepartmentPatch): (r: seq<Department>)
    ensures |r| == |departments|
    ensures forall i :: 0 <= i < |departments| && departments[i].id == id ==> r[i] == MergeDepartment(departments[i], u)
    ensures forall i :: 0 <= i < |departments| && departments[i].id != id ==> r[i] == departments[i]
  {
    MapIf(departments, (d: Department) => d.id == id, (d: Department) => MergeDepartment(d, u))
  }

  /** The departments without this id, in order. */
  function DepartmentsWithout(departments: seq<Department>, id: Id): (r: seq<Department>)
    ensures forall d | d in r :: d in departments && d.id != id
    ensures forall d | d in departments && d.id != id :: d in r
  {
    Filter(departments, (d: Department) => d.id != id)
  }

  /** `assignMemberToDepartment`'s new table: the member appended to the named
      departments that do not list it yet; every other department as it was. */
  function Assigned(departments: seq<Department>, memberId: Id, departmentId: Id): (r: seq<Department>)
    ensures |r| == |departments|
    ensures forall i :: 0 <= i < |departments| && departments[i].id == departmentId && memberId !in departments[i].members ==>
      r[i] == departments[i].(members := departments[i].members + [memberId])
    ensures forall i :: 0 <= i < |departments| && (departments[i].id != departmentId || memberId in departments[i].members) ==>
      r[i] == departments[i]
  {
    MapIf(departments,
          (d: Department) => d.id == departmentId && memberId !in d.members,
          (d: Department) => d.(members := d.members + [memberId]))
  }

  /** `removeMemberFromDepartment`'s new table: the id gone from the named
      departments' member lists; every other department as it was. */
  function Unassigned(departments: seq<Department>, memberId: Id, departmentId: Id): (r: seq<Department>)
    ensures |r| == |departments|
    ensures forall i :: 0 <= i < |departments| && departments[i].id == departmentId ==>
      r[i] == departments[i].(members := IdsWithout(departments[i].members, memberId))
    ensures forall i :: 0 <= i < |departments| && departments[i].id != departmentId ==> r[i] == departments[i]
  {
    MapIf(departments, (d: Department) => d.id == departmentId,
          (d: Department) => d.(members := IdsWithout(d.members, memberId)))
  }

  // ---------------------------------------------------------------------------
  // Properties

  /** After `removeMember(m)` no department lists `m` or is led by `m`. */
  lemma RemoveMemberLeavesNoTrace(departments: seq<Department>, memberId: Id)
    ensures forall d | d in DepartmentsWithoutMember(departments, memberId) :: memberId !in d.members && d.lead != Some(memberId)
  {
  }

  /** A list without duplicates. */
  predicate NoDuplicates(ids: seq<Id>)
  {
    forall i, j :: 0 <= i < j < |ids| ==> ids[i] != ids[j]
  }

  /** Assigning twice is assigning once. */
  lemma AssignIdempotent(departments: seq<Department>, memberId: Id, departmentId: Id)
    ensures Assigned(Assigned(departments, memberId, departmentId), memberId, departmentId)
         == Assigned(departments, memberId, departmentId)
  {
    MapIfIdempotent(departments,
                    (d: Department) => d.id == departmentId && memberId !in d.members,
                    (d: Department) => d.(members := d.members + [memberId]));
  }

  /** Assignment never creates a duplicate id in a member list. */
  lemma AssignKeepsNoDuplicates(departments: seq<Department>, memberId: Id, departmentId: Id)
    requires forall d | d in departments :: NoDuplicates(d.members)
    ensures forall d | d in Assigned(departments, memberId, departmentId) :: NoDuplicates(d.members)
  {
    var r := Assigned(departments, memberId, departmentId);
    forall d | d in r ensures NoDuplicates(d.members) {
      var k :| 0 <= k < |r| && r[k] == d;
      assert departments[k] in departments;
    }
  }

  /** After assignment the named department lists the member. */
  lemma AssignListsMember(departments: seq<Department>, memberId: Id, departmentId: Id, k: nat)
    requires k < |departments| && departments[k].id == departmentId
    ensures memberId in Assigned(departments, memberId, departmentId)[k].members
  {
  }

  // ---------------------------------------------------------------------------
  // The store

  class TeamStore {
    var members: seq<TeamMember>
    var departments: seq<Department>
    var selectedMemberId: Option<Id>

    constructor ()
      ensures members == [] && departments == [] && selectedMemberId.None?
    {
      members, departments, selectedMemberId := [], [], None;
    }

    /** `addMember`: appends. */
    method AddMember(member: TeamMember)
      modifies this
      ensures members == old(members) + [member]
      ensures departments == old(departments) && selectedMemberId == old(selectedMemberId)
    {
      members := members + [member];
    }

    /** `updateMember`: merges exactly the members with the id. */
    method UpdateMember(memberId: Id, updates: MemberPatch)
      modifies this
      ensures members == MembersUpdated(old(members), memberId, updates)
      ensures departments == old(departments) && selectedMemberId == old(selectedMemberId)
    {
      members := MembersUpdated(members, memberId, updates);
    }

    /** `removeMember`: removes the member and strips it from every department's
        member list and lead. */
    method RemoveMember(memberId: Id)
      modifies this
      ensures members == MembersWithout(old(members), memberId)
      ensures departments == DepartmentsWithoutMember(old(departments), memberId)
      ensures forall d | d in departments :: memberId !in d.members && d.lead != Some(memberId)
      ensures selectedMemberId == old(selectedMemberId)
    {
      RemoveMemberLeavesNoTrace(departments, memberId);
      members := MembersWithout(members, memberId);
      departments := DepartmentsWithoutMember(departments, memberId);
    }

    /** `addDepartment`: appends. */
    method AddDepartment(department: Department)
      modifies this
      ensures departments == old(departments) + [department]
      ensures members == old(members) && selectedMemberId == old(selectedMemberId)
    {
      departments := departments + [department];
    }

    /** `updateDepartment`: merges exactly the departments with the id. */
    method UpdateDepartment(departmentId: Id, updates: DepartmentPatch)
      modifies this
      ensures departments == DepartmentsUpdated(old(departments), departmentId, updates)
      ensures members == old(members) && selectedMemberId == old(selectedMemberId)
    {
      departments := DepartmentsUpdated(departments, departmentId, updates);
    }

    /** `removeDepartment`: removes the departments with the id; members untouched. */
    method RemoveDepartment(departmentId: Id)
      modifies this
      ensures departments == DepartmentsWithout(old(departments), departmentId)
      ensures members == old(members) && selectedMemberId == old(selectedMemberId)
    {
      departments := DepartmentsWithout(departments, departmentId);
    }

    /** `assignMemberToDepartment`: appends the id to the named department unless
        it is already listed. */
    method AssignMemberToDepartment(memberId: Id, departmentId: Id)
      modifies this
      ensures departments == Assigned(old(departments), memberId, departmentId)
      ensures old(forall d | d in departments :: NoDuplicates(d.members)) ==>
        forall d | d in departments :: NoDuplicates(d.members)
      ensures members == old(members) && selectedMemberId == old(selectedMemberId)
    {
      if forall d | d in departments :: NoDuplicates(d.members) {
        AssignKeepsNoDuplicates(departments, memberId, departmentId);
      }
      departments := Assigned(departments, memberId, departmentId);
    }

    /** `removeMemberFromDepartment`: drops the id from the named department only. */
    method RemoveMemberFromDepartment(memberId: Id, departmentId: Id)
      modifies this
      ensures departments == Unassigned(old(departments), memberId, departmentId)
      ensures members == old(members) && selectedMemberId == old(selectedMemberId)
    {
      departments := Unassigned(departments, memberId, departmentId);
    }

    /** `setSelectedMember`: changes the selection only. */
    method SetSelectedMember(memberId: Option<Id>)
      modifies this
      ensures selectedMemberId == memberId
      ensures members == old(members) && departments == old(departments)
    {
      selectedMemberId := memberId;
    }
  }
}
