/**
 * The store of enabled skill ids.  An empty list means every skill is
 * enabled; a list holding the sentinel `"__none__"` means none is.
 */
module EnabledSkills {

  const NoneEnabled: string := "__none__"

  predicate NoDuplicates(ids: seq<string>)
  {
    forall i, j :: 0 <= i < j < |ids| ==> ids[i] != ids[j]
  }

  /** `isEnabled` over a given list. */
  function IsEnabledIn(ids: seq<string>, id: string): (r: bool)
    ensures NoneEnabled in ids ==> !r
    ensures NoneEnabled !in ids && ids == [] ==> r
    ensures NoneEnabled !in ids && ids != [] ==> (r <==> id in ids)
  {
    if NoneEnabled in ids then false else ids == [] || id in ids
  }

  /** `ids.filter(x => x !== id)`. */
  function Remove(ids: seq<string>, id: string): (r: seq<string>)
    ensures forall x :: x in r <==> x in ids && x != id
    ensures |r| <= |ids|
    ensures NoDuplicates(ids) ==> NoDuplicates(r)
  {
    if ids == [] then []
    else
      var rest := Remove(ids[1..], id);
      assert forall x :: x in ids[1..] ==> x in ids;
      NoDuplicatesTail(ids);
      if ids[0] == id then rest else [ids[0]] + rest
  }

  lemma NoDuplicatesTail(ids: seq<string>)
    requires ids != []
    ensures NoDuplicates(ids) ==> NoDuplicates(ids[1..]) && ids[0] !in ids[1..]
  {
    if NoDuplicates(ids) {
      forall k | 0 <= k < |ids| - 1 ensures ids[1..][k] != ids[0] {
        assert ids[1..][k] == ids[k + 1];
      }
    }
  }

  /** The list `setEnabled(id, enabled)` leaves behind. */
  function SetEnabledNext(ids: seq<string>, id: string, enabled: bool): (r: seq<string>)
    ensures forall x :: x in r ==> x in ids || x == id || x == NoneEnabled
    ensures |r| <= |ids| + 1
    ensures enabled && id != NoneEnabled ==> id in r && NoneEnabled !in r
    ensures !enabled && id in ids && NoneEnabled !in ids ==> id !in r && r != []
    ensures !enabled && (id !in ids || NoneEnabled in ids) ==> r == ids
  {
    var base := if NoneEnabled in ids then [] else ids;
    var hasId := id in base;
    if enabled && !hasId then base + [id]
    else if !enabled && hasId then
      var next := Remove(base, id);
      if next == [] then [NoneEnabled] else next
    else ids
  }

  /** The list `initFromAllIds(allIds)` leaves behind. */
  function InitNext(ids: seq<string>, allIds: seq<string>): (r: seq<string>)
    ensures ids == [] ==> r == allIds
    ensures ids != [] ==> r == ids
  {
    if ids == [] && allIds != [] then allIds else ids
  }

  /** After `setEnabled(id, b)` the id is enabled exactly when `b`, except that disabling under "all enabled" does nothing. */
  lemma SetEnabledTakesEffect(ids: seq<string>, id: string, enabled: bool)
    requires id != NoneEnabled
    requires enabled || ids != []
    ensures IsEnabledIn(SetEnabledNext(ids, id, enabled), id) == enabled
  {
  }

  /** Enabling adds the id and drops the sentinel. */
  lemma EnableAddsId(ids: seq<string>, id: string)
    requires id != NoneEnabled
    ensures var next := SetEnabledNext(ids, id, true);
      id in next && NoneEnabled !in next
  {
  }

  /** Disabling a listed id removes it and never leaves the empty "all enabled" list behind. */
  lemma DisableRemovesId(ids: seq<string>, id: string)
    requires id in ids && NoneEnabled !in ids
    ensures var next := SetEnabledNext(ids, id, false);
      id !in next && next != []
  {
  }

  /** Disabling while everything is enabled, or while nothing is, changes nothing. */
  lemma DisableNoOp(ids: seq<string>, id: string)
    requires ids == [] || ids == [NoneEnabled]
    ensures SetEnabledNext(ids, id, false) == ids
  {
  }

  /** Asking for the state an id is already in changes nothing. */
  lemma SetEnabledIdempotent(ids: seq<string>, id: string, enabled: bool)
    requires NoneEnabled !in ids && id != NoneEnabled
    requires (id in ids) == enabled
    ensures SetEnabledNext(ids, id, enabled) == ids
  {
  }

  /** `setEnabled` never introduces a duplicate id. */
  lemma SetEnabledNoDuplicates(ids: seq<string>, id: string, enabled: bool)
    requires NoDuplicates(ids)
    ensures NoDuplicates(SetEnabledNext(ids, id, enabled))
  {
  }

  /** Once some list is stored, toggling one id leaves every other id's state alone. */
  lemma SetEnabledLeavesOthers(ids: seq<string>, id: string, enabled: bool, other: string)
    requires ids != [] && id != NoneEnabled && other != id
    ensures IsEnabledIn(SetEnabledNext(ids, id, enabled), other) == IsEnabledIn(ids, other)
  {
    var next := SetEnabledNext(ids, id, enabled);
    if NoneEnabled !in ids && id in ids && !enabled {
      var rest := Remove(ids, id);
      assert other in rest <==> other in ids;
      assert NoneEnabled !in rest;
    } else if NoneEnabled !in ids && id !in ids && enabled {
      assert next == ids + [id];
      assert other in next <==> other in ids;
      assert NoneEnabled !in next;
    }
  }

  /** Enabling the sentinel itself leaves it in the list, so afterwards no skill is enabled. */
  lemma EnablingSentinelDisablesAll(ids: seq<string>, other: string)
    ensures !IsEnabledIn(SetEnabledNext(ids, NoneEnabled, true), other)
  {
  }

  /** Enabling one id while everything is enabled narrows the list to that id alone. */
  lemma EnableUnderAllEnabledNarrows(id: string, other: string)
    requires id != NoneEnabled && other != id
    ensures SetEnabledNext([], id, true) == [id]
    ensures IsEnabledIn([], other) && !IsEnabledIn([id], other)
  {
  }

  /** Copying all ids in keeps every one of them enabled, and only an empty list is replaced. */
  lemma InitKeepsEnabled(ids: seq<string>, allIds: seq<string>, id: string)
    requires id in allIds && NoneEnabled !in allIds
    ensures IsEnabledIn(InitNext(ids, allIds), id) == IsEnabledIn(ids, id)
    ensures ids != [] ==> InitNext(ids, allIds) == ids
  {
  }

  class SkillsStore {
    var enabledSkillIds: seq<string>

    /** The initial state: every skill enabled. */
    constructor ()
      ensures enabledSkillIds == []
    {
      enabledSkillIds := [];
    }

    method SetEnabled(skillId: string, enabled: bool)
      modifies this
      ensures enabledSkillIds == SetEnabledNext(old(enabledSkillIds), skillId, enabled)
    {
      var ids := enabledSkillIds;
      if NoneEnabled in ids {
        ids := [];
      }
      var hasId := skillId in ids;
      if enabled && !hasId {
        enabledSkillIds := ids + [skillId];
        return;
      }
      if !enabled && hasId {
        var next := Remove(ids, skillId);
        enabledSkillIds := if |next| == 0 then [NoneEnabled] else next;
        return;
      }
    }

    method SetEnabledIds(ids: seq<string>)
      modifies this
      ensures enabledSkillIds == ids
    {
      enabledSkillIds := ids;
    }

    function IsEnabled(skillId: string): (r: bool)
      reads this
      ensures NoneEnabled in enabledSkillIds ==> !r
      ensures NoneEnabled !in enabledSkillIds ==> (r <==> enabledSkillIds == [] || skillId in enabledSkillIds)
    {
      IsEnabledIn(enabledSkillIds, skillId)
    }

    method InitFromAllIds(allIds: seq<string>)
      modifies this
      ensures enabledSkillIds == InitNext(old(enabledSkillIds), allIds)
    {
      if |enabledSkillIds| == 0 && |allIds| > 0 {
        enabledSkillIds := allIds;
      }
    }
  }
}
