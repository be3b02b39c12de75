/**
 * Group: a personal group holds only its owner, a team group at least one
 * member; members are added in place, never to a personal group and never
 * twice.
 */
module Groups {
  import opened Results
  import Text

  datatype GroupType = Personal | Team

  datatype GroupProps = GroupProps(name: string, groupType: GroupType, ownerId: string, memberIds: seq<string>)

  /** The business rules `Group.create` checks, in its order. */
  function CheckRules(props: GroupProps): (r: Result<()>)
    ensures Text.IsBlank(props.name) ==> r == Fail(GroupNameEmpty)
    ensures !Text.IsBlank(props.name) && props.groupType == Personal && props.memberIds != [props.ownerId] ==>
              r == Fail(PersonalGroupOwnerOnly)
    ensures !Text.IsBlank(props.name) && props.groupType == Team && |props.memberIds| == 0 ==>
              r == Fail(TeamGroupEmpty)
    ensures r.Ok? <==> !Text.IsBlank(props.name)
                       && (props.groupType == Personal ==> props.memberIds == [props.ownerId])
                       && (props.groupType == Team ==> |props.memberIds| > 0)
  {
    Text.TrimEmptyIffBlank(props.name);
    if |Text.Trim(props.name)| == 0 then Fail(GroupNameEmpty)
    else if props.groupType == Personal && (|props.memberIds| != 1 || props.memberIds[0] != props.ownerId) then
      Fail(PersonalGroupOwnerOnly)
    else if props.groupType == Team && |props.memberIds| == 0 then Fail(TeamGroupEmpty)
    else Ok(())
  }

  predicate NoDuplicates(ids: seq<string>) {
    forall i, j :: 0 <= i < j < |ids| ==> ids[i] != ids[j]
  }

  /** Appending an id that is not yet present keeps the ids distinct. */
  lemma AppendFreshKeepsDistinct(ids: seq<string>, id: string)
    requires NoDuplicates(ids) && id !in ids
    ensures NoDuplicates(ids + [id])
  {
  }

  class Group {
    const id: string
    const name: string
    const groupType: GroupType
    const ownerId: string
    var memberIds: seq<string>

    /** The rules `create` established still hold. */
    predicate Valid()
      reads this
    {
      CheckRules(GroupProps(name, groupType, ownerId, memberIds)).Ok?
    }

    constructor (props: GroupProps, id: string)
      ensures this.id == id && name == props.name && groupType == props.groupType
      ensures ownerId == props.ownerId && memberIds == props.memberIds
    {
      this.id := id;
      name := props.name;
      groupType := props.groupType;
      ownerId := props.ownerId;
      memberIds := props.memberIds;
    }

    /** `Group.create`: a new Group holding props, if props pass the rules. */
    static method Create(props: GroupProps, id: string) returns (r: Result<Group>)
      ensures r.Fail? <==> CheckRules(props).Fail?
      ensures r.Fail? ==> r.error == CheckRules(props).error
      ensures r.Ok? ==> fresh(r.value) && r.value.Valid() && r.value.id == id
                        && r.value.name == props.name && r.value.groupType == props.groupType
                        && r.value.ownerId == props.ownerId && r.value.memberIds == props.memberIds
    {
      var rules := CheckRules(props);
      if rules.Fail? {
        return Fail(rules.error);
      }
      var g := new Group(props, id);
      return Ok(g);
    }

    /**
     * `addMember`: refused for a personal group and for an id already present;
     * otherwise the id is appended at the end, and nothing else changes.
     */
    method AddMember(userId: string) returns (r: Result<()>)
      modifies this`memberIds
      ensures groupType == Personal ==> r == Fail(PersonalGroupClosed) && memberIds == old(memberIds)
      ensures groupType == Team && userId in old(memberIds) ==>
                r == Fail(MemberExists) && memberIds == old(memberIds)
      ensures groupType == Team && userId !in old(memberIds) ==>
                r == Ok(()) && memberIds == old(memberIds) + [userId]
      ensures old(NoDuplicates(memberIds)) ==> NoDuplicates(memberIds)
      ensures old(Valid()) ==> Valid()
    {
      if groupType == Personal {
        return Fail(PersonalGroupClosed);
      }
      if userId in memberIds {
        return Fail(MemberExists);
      }
      if NoDuplicates(memberIds) {
        AppendFreshKeepsDistinct(memberIds, userId);
      }
      memberIds := memberIds + [userId];
      return Ok(());
    }
  }

  /** A personal group is accepted exactly when its members are its owner alone. */
  lemma PersonalGroupIsOwnerOnly(name: string, ownerId: string, memberIds: seq<string>)
    requires !Text.IsBlank(name)
    ensures CheckRules(GroupProps(name, Personal, ownerId, memberIds)).Ok? <==> memberIds == [ownerId]
  {
  }
}
