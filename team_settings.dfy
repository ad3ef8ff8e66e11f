/** Team settings: inviting, updating, removing and (de)activating team
    members in the in-memory member list.  The new member's id (the clock)
    and joining date (the formatted date) are inputs. */
module TeamSettings {
  import opened Js

  datatype Member = Member(id: int, name: string, email: string, role: string, status: string, joinedDate: string)

  /** The invite form. */
  datatype Invite = Invite(email: string, role: string)

  const EmptyInvite := Invite("", "Editor")

  /** The name an invited member starts with: the address up to its first
      `@`. */
  function InviteName(email: string): (name: string)
    ensures '@' !in name && name <= email
  {
    BeforeFirst(email, '@')
  }

  /** For an address `local@domain` (with no `@` in the local part) the
      name is the local part. */
  lemma InviteNameLocalPart(local: string, domain: string)
    requires '@' !in local
    ensures InviteName(local + "@" + domain) == local
  {
    SplitAfter(local, domain, '@');
  }

  /** `handleUpdateMember`'s map: every member with the selected id is
      replaced by the edited copy; the others are kept. */
  function ReplaceMember(ms: seq<Member>, edited: Member): (r: seq<Member>)
    ensures |r| == |ms|
    ensures forall i :: 0 <= i < |r| ==> r[i] == if ms[i].id == edited.id then edited else ms[i]
  {
    seq(|ms|, i requires 0 <= i < |ms| => if ms[i].id == edited.id then edited else ms[i])
  }

  /** The status after a toggle: Active becomes Pending, anything else
      becomes Active. */
  function Toggled(status: string): (t: string)
    ensures status == "Active" ==> t == "Pending"
    ensures status != "Active" ==> t == "Active"
  {
    if status == "Active" then "Pending" else "Active"
  }

  /** Toggling twice restores Active and Pending, but turns any other status
      into Pending. */
  lemma ToggleTwice(status: string)
    ensures status == "Active" || status == "Pending" ==> Toggled(Toggled(status)) == status
    ensures status != "Active" && status != "Pending" ==> Toggled(Toggled(status)) == "Pending"
  {
  }

  /** `handleToggleStatus`'s map. */
  function ToggleMember(ms: seq<Member>, id: int): (r: seq<Member>)
    ensures |r| == |ms|
    ensures forall i :: 0 <= i < |r| ==>
      r[i] == if ms[i].id == id then ms[i].(status := Toggled(ms[i].status)) else ms[i]
  {
    seq(|ms|, i requires 0 <= i < |ms| => if ms[i].id == id then ms[i].(status := Toggled(ms[i].status)) else ms[i])
  }

  /** `handleDeleteMember`'s filter. */
  function DeleteMember(ms: seq<Member>, id: int): (r: seq<Member>)
    ensures forall m :: m in r <==> m in ms && m.id != id
    ensures |r| <= |ms|
  {
    if ms == [] then []
    else if ms[0].id == id then DeleteMember(ms[1..], id)
    else [ms[0]] + DeleteMember(ms[1..], id)
  }

  /** Deleting an id that is not there changes nothing. */
  lemma {:induction false} DeleteAbsent(ms: seq<Member>, id: int)
    requires forall i :: 0 <= i < |ms| ==> ms[i].id != id
    ensures DeleteMember(ms, id) == ms
  {
    if ms != [] {
      DeleteAbsent(ms[1..], id);
    }
  }

  class Team {
    var members: seq<Member>
    var isInviteModalOpen: bool
    var isEditModalOpen: bool
    var selectedMember: Option<Member>
    var inviteData: Invite

    constructor (initial: seq<Member>)
      ensures members == initial && !isInviteModalOpen && !isEditModalOpen
      ensures selectedMember.None? && inviteData == EmptyInvite
    {
      members := initial;
      isInviteModalOpen := false;
      isEditModalOpen := false;
      selectedMember := None;
      inviteData := EmptyInvite;
    }

    /** `handleInviteMember`: an empty address changes nothing; otherwise one
        pending member is appended and the form is closed and reset. */
    method InviteMember(now: int, today: string)
      modifies this`members, this`isInviteModalOpen, this`inviteData
      ensures old(inviteData).email == "" ==>
        members == old(members) && isInviteModalOpen == old(isInviteModalOpen) && inviteData == old(inviteData)
      ensures old(inviteData).email != "" ==>
        && members == old(members) + [Member(now, InviteName(old(inviteData).email), old(inviteData).email,
                                             old(inviteData).role, "Pending", today)]
        && |members| == |old(members)| + 1
        && !isInviteModalOpen && inviteData == EmptyInvite
    {
      if inviteData.email == "" {
        return;
      }
      var newMember := Member(now, InviteName(inviteData.email), inviteData.email, inviteData.role, "Pending", today);
      members := members + [newMember];
      isInviteModalOpen := false;
      inviteData := EmptyInvite;
    }

    /** `handleEditMember`. */
    method EditMember(m: Member)
      modifies this`selectedMember, this`isEditModalOpen
      ensures selectedMember == Some(m) && isEditModalOpen
    {
      selectedMember := Some(m);
      isEditModalOpen := true;
    }

    /** `handleUpdateMember`: nothing without a selection; otherwise the
        members with the selected id are replaced and the dialog closes. */
    method UpdateMember()
      modifies this`members, this`isEditModalOpen, this`selectedMember
      ensures old(selectedMember).None? ==>
        members == old(members) && isEditModalOpen == old(isEditModalOpen) && selectedMember.None?
      ensures old(selectedMember).Some? ==>
        members == ReplaceMember(old(members), old(selectedMember).value)
        && !isEditModalOpen && selectedMember.None?
    {
      if selectedMember.None? {
        return;
      }
      members := ReplaceMember(members, selectedMember.value);
      isEditModalOpen := false;
      selectedMember := None;
    }

    /** `handleDeleteMember`. */
    method RemoveMember(id: int)
      modifies this`members
      ensures members == DeleteMember(old(members), id)
    {
      members := DeleteMember(members, id);
    }

    /** `handleToggleStatus`. */
    method ToggleStatus(id: int)
      modifies this`members
      ensures members == ToggleMember(old(members), id)
    {
      members := ToggleMember(members, id);
    }
  }
}
