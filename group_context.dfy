/** The current-group provider: the group id chosen from the user's group
    claims, what the provider renders while it settles, and the lookup of the
    chosen group among the available ones. The auth state (`user`,
    `loading`) and the token's claims are inputs. */
module GroupContext {
  import opened Wrappers

  /** The provider's `groupId` (`null | false | string`): `Undecided` is
      `false`, the value before any choice and the value without a user;
      `NoGroup` is `null`, a signed-in user without groups. */
  datatype GroupId = Undecided | NoGroup | Chosen(id: string)
  {
    /** JavaScript truthiness: only a non-empty id is truthy. */
    predicate Truthy() {
      Chosen? && id != ""
    }
  }

  /** `token.claims.groups || []`. */
  function ClaimedGroups(groups: Option<seq<string>>): (claims: seq<string>)
    ensures groups.None? ==> claims == []
    ensures groups.Some? ==> claims == groups.value
  {
    match groups
    case None => []
    case Some(g) => g
  }

  /** The id the selection effect settles on. */
  function NextGroupId(claims: seq<string>, hasUser: bool, currentId: GroupId): (g: GroupId)
    ensures |claims| == 0 ==> g == if hasUser then NoGroup else Undecided
    ensures |claims| > 0 && currentId.Truthy() && currentId.id in claims ==> g == currentId
    ensures |claims| > 0 && !(currentId.Truthy() && currentId.id in claims) ==> g == Chosen(claims[0])
  {
    if |claims| == 0 then (if hasUser then NoGroup else Undecided)
    else if currentId.Truthy() && currentId.id in claims then currentId
    else Chosen(claims[0])
  }

  /** Whenever the user has claims, the chosen id is one of them. */
  lemma ChosenGroupIsClaimed(claims: seq<string>, hasUser: bool, currentId: GroupId)
    requires |claims| > 0
    ensures NextGroupId(claims, hasUser, currentId).Chosen?
    ensures NextGroupId(claims, hasUser, currentId).id in claims
  {
  }

  /** Settling is stable: running the selection effect again on the same
      claims keeps the id it chose. */
  lemma NextGroupIdIsStable(claims: seq<string>, hasUser: bool, currentId: GroupId)
    ensures var g := NextGroupId(claims, hasUser, currentId);
      NextGroupId(claims, hasUser, g) == g
  {
  }

  /** What the provider renders. */
  datatype Screen = Spinner | Register | Children

  /** The render gate: the spinner while anything is pending or the two ids
      disagree; then the group-registration page when the settled id is
      `null`; the application otherwise. */
  function Gate(loading: bool, processing: bool, claimsFetched: bool, hasUser: bool,
                groupId: GroupId, updatedGroupId: GroupId): (s: Screen)
    ensures s == Spinner <==>
      loading || processing || !claimsFetched || !hasUser || groupId != updatedGroupId
    ensures s == Register <==>
      !loading && !processing && claimsFetched && hasUser && groupId == updatedGroupId && updatedGroupId == NoGroup
  {
    if loading || processing || !claimsFetched || !hasUser || groupId != updatedGroupId then Spinner
    else if updatedGroupId == NoGroup then Register
    else Children
  }

  /** Once the claims are in and the ids agree, a signed-in user without
      claims is sent to register a group, and one with claims gets the
      application under one of the claimed groups. */
  lemma SettledGate(claims: seq<string>, currentId: GroupId)
    ensures var g := NextGroupId(claims, true, currentId);
      && (|claims| == 0 ==> Gate(false, false, true, true, g, g) == Register)
      && (|claims| > 0 ==> Gate(false, false, true, true, g, g) == Children && g.Chosen? && g.id in claims)
  {
  }

  /** The provider's state. */
  class GroupState {
    var groupId: GroupId
    var processing: bool
    var claimsFetched: bool
    var updatedGroupId: GroupId
    var currentGroupsClaims: seq<string>

    constructor ()
      ensures groupId == Undecided && updatedGroupId == Undecided
      ensures processing && !claimsFetched && currentGroupsClaims == []
    {
      groupId := Undecided;
      processing := true;
      claimsFetched := false;
      updatedGroupId := Undecided;
      currentGroupsClaims := [];
    }

    /** The token arrived: store its claims, or none. */
    method ReceiveClaims(groups: Option<seq<string>>)
      modifies this
      ensures currentGroupsClaims == ClaimedGroups(groups) && claimsFetched
      ensures groupId == old(groupId) && processing == old(processing) && updatedGroupId == old(updatedGroupId)
    {
      currentGroupsClaims := groups.GetOr([]);
      claimsFetched := true;
    }

    /** The selection effect: flags processing, picks the id from the claims
      and the current id, and clears the flag. */
    method SelectGroup(hasUser: bool)
      modifies this
      ensures groupId == NextGroupId(old(currentGroupsClaims), hasUser, old(groupId))
      ensures !processing
      ensures currentGroupsClaims == old(currentGroupsClaims) && claimsFetched == old(claimsFetched)
      ensures updatedGroupId == old(updatedGroupId)
    {
      processing := true;
      if |currentGroupsClaims| == 0 {
        groupId := if hasUser then NoGroup else Undecided;
      } else {
        var currentId := groupId;
        if currentId.Chosen? && currentId.id != "" && currentId.id in currentGroupsClaims {
          groupId := currentId;
        } else {
          groupId := Chosen(currentGroupsClaims[0]);
        }
      }
      processing := false;
    }

    /** The effect that copies `groupId` into `updatedGroupId`. */
    method SyncUpdatedGroupId()
      modifies this
      ensures updatedGroupId == groupId == old(groupId)
      ensures processing == old(processing) && claimsFetched == old(claimsFetched)
      ensures currentGroupsClaims == old(currentGroupsClaims)
    {
      updatedGroupId := groupId;
    }

    /** `changeGroup`: picks a group by id. */
    method ChangeGroup(newGroupId: string)
      modifies this
      ensures groupId == Chosen(newGroupId)
      ensures processing == old(processing) && claimsFetched == old(claimsFetched)
      ensures updatedGroupId == old(updatedGroupId) && currentGroupsClaims == old(currentGroupsClaims)
    {
      groupId := Chosen(newGroupId);
    }

    /** The screen the provider renders in this state. */
    function Rendered(loading: bool, hasUser: bool): Screen
      reads this
    {
      Gate(loading, processing, claimsFetched, hasUser, groupId, updatedGroupId)
    }
  }

  /** A group the user belongs to, as fetched (`Pick<IGroup, ...>`). */
  datatype AvailableGroup = AvailableGroup(name: string, creatorUid: string, id: string)

  /** `currentGroup`: the first available group whose id equals `groupId`;
      none while the id is `null` or `false`. */
  function CurrentGroup(availableGroups: seq<AvailableGroup>, groupId: GroupId): (r: Option<AvailableGroup>)
    ensures r.Some? ==> groupId.Chosen? && r.value.id == groupId.id && r.value in availableGroups
    ensures r.None? <==> !groupId.Chosen? || forall k :: 0 <= k < |availableGroups| ==> availableGroups[k].id != groupId.id
  {
    if |availableGroups| == 0 || !groupId.Chosen? then None
    else if availableGroups[0].id == groupId.id then Some(availableGroups[0])
    else CurrentGroup(availableGroups[1..], groupId)
  }

  /** `find` returns the first group with the id. */
  lemma {:induction false} CurrentGroupFirst(availableGroups: seq<AvailableGroup>, id: string, k: nat)
    requires k < |availableGroups| && availableGroups[k].id == id
    requires forall j :: 0 <= j < k ==> availableGroups[j].id != id
    ensures CurrentGroup(availableGroups, Chosen(id)) == Some(availableGroups[k])
  {
    if k > 0 {
      CurrentGroupFirst(availableGroups[1..], id, k - 1);
    }
  }
}
