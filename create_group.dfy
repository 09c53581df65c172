/** The group-creation modal of src/components/CreateGroupModal.tsx: a
    group name, an editable list of participant names (initially the current
    user and one empty row), and the group built on submit. The generated id
    and avatar are parameters. */
module CreateGroup {
  import opened Wrappers
  import opened Schema
  import opened Strings
  import opened Seqs

  /** `s.trim()` is the empty string. */
  predicate Blank(s: string) {
    Trim(s) == []
  }

  /** `[...new Set(participants.filter(p => p.trim() !== ''))]`: the
      non-blank participants, untrimmed, each once, in order of first
      occurrence. */
  function ValidParticipants(participants: seq<string>): (r: seq<string>)
    ensures NoDuplicates(r)
    ensures forall i :: 0 <= i < |r| ==> !Blank(r[i]) && r[i] in participants
    ensures forall i :: 0 <= i < |participants| && !Blank(participants[i]) ==> participants[i] in r
    ensures forall i, j :: 0 <= i < j < |r| ==> IndexOf(participants, r[i]) < IndexOf(participants, r[j])
  {
    var keep := (p: string) => !Blank(p);
    var nonBlank := Filter(participants, keep);
    DedupFilterOrder(participants, keep);
    Dedup(nonBlank)
  }

  /** Whether the create button is enabled (CreateGroupModal.tsx:67). */
  predicate FormValid(groupName: string, participants: seq<string>) {
    !Blank(groupName) && exists i :: 0 <= i < |participants| && !Blank(participants[i])
  }

  /** The group `handleSubmit` passes on (CreateGroupModal.tsx:20-38), or
      `None` when a guard returns early. */
  function BuildGroup(groupName: string, participants: seq<string>, id: string, avatar: string): (r: Option<Group>)
    ensures r.None? <==> Blank(groupName) || forall i :: 0 <= i < |participants| ==> Blank(participants[i])
    ensures r.Some? ==>
      var g := r.value;
      && g.id == id && g.avatar == avatar && g.name == Trim(groupName) && g.name != []
      && g.members == ValidParticipants(participants) && g.memberCount == |g.members| >= 1
      && g.totalBalance == 0.0 && g.expenses == None
      && g.memberDetails.Some? && |g.memberDetails.value| == |g.members|
      && forall i :: 0 <= i < |g.members| ==> g.memberDetails.value[i] == GroupMember(g.members[i], false)
  {
    if Blank(groupName) then None
    else
      var validParticipants := ValidParticipants(participants);
      if |validParticipants| == 0 then None
      else
        Some(Group(id, Trim(groupName), validParticipants,
                   Some(seq(|validParticipants|, i requires 0 <= i < |validParticipants| =>
                          GroupMember(validParticipants[i], false))),
                   0.0, |validParticipants|, avatar, None))
  }

  /** The first row, the current user when the form opens, becomes the
      group's first member (the one counted as its admin) whenever it is not
      blank. */
  lemma CreatorIsFirstMember(groupName: string, participants: seq<string>, id: string, avatar: string)
    requires |participants| > 0 && !Blank(participants[0]) && !Blank(groupName)
    ensures var r := BuildGroup(groupName, participants, id, avatar);
      r.Some? && r.value.members[0] == participants[0]
  {
    var nonBlank := Filter(participants, (p: string) => !Blank(p));
    assert nonBlank[0] == participants[0];
    DedupKeepsHead(nonBlank);
  }

  /** `participants.filter((_, i) => i !== index)`. */
  function RemoveAt(xs: seq<string>, index: int): (r: seq<string>)
    ensures 0 <= index < |xs| ==>
      |r| == |xs| - 1 && forall j :: 0 <= j < |r| ==> r[j] == (if j < index then xs[j] else xs[j + 1])
    ensures !(0 <= index < |xs|) ==> r == xs
  {
    if 0 <= index < |xs| then xs[..index] + xs[index + 1..] else xs
  }

  class CreateGroupForm {
    const currentUser: string
    var groupName: string
    var participants: seq<string>

    constructor(currentUser: string)
      ensures this.currentUser == currentUser && groupName == "" && participants == [currentUser, ""]
    {
      this.currentUser := currentUser;
      groupName := "";
      participants := [currentUser, ""];
    }

    predicate IsFormValid()
      reads this
    {
      FormValid(groupName, participants)
    }

    /** `handleClose`: back to the initial state. */
    method HandleClose()
      modifies this`groupName, this`participants
      ensures groupName == "" && participants == [currentUser, ""]
    {
      groupName := "";
      participants := [currentUser, ""];
    }

    /** `addParticipant`: one more empty row. */
    method AddParticipant()
      modifies this`participants
      ensures participants == old(participants) + [""]
    {
      participants := participants + [""];
    }

    /** `updateParticipant(index, value)` for a row on screen. */
    method UpdateParticipant(index: nat, value: string)
      requires index < |participants|
      modifies this`participants
      ensures participants == old(participants)[index := value]
    {
      participants := participants[index := value];
    }

    /** `removeParticipant(index)`: the last remaining row is never removed. */
    method RemoveParticipant(index: int)
      modifies this`participants
      ensures |old(participants)| > 1 ==> participants == RemoveAt(old(participants), index)
      ensures |old(participants)| <= 1 ==> participants == old(participants)
      ensures |old(participants)| >= 1 ==> |participants| >= 1
    {
      if |participants| > 1 {
        participants := RemoveAt(participants, index);
      }
    }

    /** `handleSubmit`: the new group, after which the form is reset; the
      form is left as it was when a guard returns early. */
    method HandleSubmit(id: string, avatar: string) returns (group: Option<Group>)
      modifies this`groupName, this`participants
      ensures group == BuildGroup(old(groupName), old(participants), id, avatar)
      ensures group.Some? <==> old(IsFormValid())
      ensures group.Some? ==> groupName == "" && participants == [currentUser, ""]
      ensures group.None? ==> groupName == old(groupName) && participants == old(participants)
    {
      group := BuildGroup(groupName, participants, id, avatar);
      if group.Some? {
        HandleClose();
      }
    }
  }
}
