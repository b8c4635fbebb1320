/**
 * The filter and selection logic of the two model-repository web views,
 * DigitalTwinRepositoryViews/main.js and pnpRepositoryViews/main.js. The
 * two scripts hold the same functions; where they differ (only the Digital
 * Twin view drops items without a display name) a flag says which one is
 * meant.
 */
module RepositoryViews {
  import opened Strings

  /** `filterTagsOrAnd`: 'and' or 'or'. */
  datatype TagsOrAnd = And | Or

  /** `filterStatus`: 'All', 'Published' or 'Saved'. */
  datatype Status = All | Published | Saved

  /** A listed model: `tags` may be missing. */
  datatype Item = Item(displayName: string, published: bool, tags: OptionalTags)

  datatype OptionalTags = NoTags | Tags(values: seq<string>)

  /** `tags.indexOf(tag)`: the first position of `tag`, or -1. */
  function IndexOfTag(tags: seq<string>, tag: string): (r: int)
    ensures -1 <= r < |tags|
    ensures r == -1 <==> tag !in tags
    ensures r >= 0 ==> tags[r] == tag && tag !in tags[..r]
  {
    if |tags| == 0 then -1
    else if tags[0] == tag then 0
    else
      var k := IndexOfTag(tags[1..], tag);
      if k < 0 then -1
      else
        assert tags[..k + 1] == [tags[0]] + tags[1..][..k];
        k + 1
  }

  /** `splice(index, 1)`. */
  function RemoveAt(tags: seq<string>, index: nat): (r: seq<string>)
    requires index < |tags|
    ensures |r| == |tags| - 1
    ensures multiset(r) == multiset(tags) - multiset{tags[index]}
  {
    assert tags == tags[..index] + [tags[index]] + tags[index + 1..];
    tags[..index] + tags[index + 1..]
  }

  /**
   * The 'and' walk of `isMatchTags`: each selected tag, in order, removes
   * its first occurrence from the tags; the walk stops at the first
   * selected tag that is not there. The result is what is left and
   * whether every selected tag was found.
   */
  function RemoveEach(tags: seq<string>, selected: seq<string>): (seq<string>, bool)
    decreases |selected|
  {
    if |selected| == 0 then (tags, true)
    else
      var index := IndexOfTag(tags, selected[0]);
      if index == -1 then (tags, false) else RemoveEach(RemoveAt(tags, index), selected[1..])
  }

  /** Every selected tag is found exactly when the selection fits in the tags, counting repeats. */
  lemma {:induction false} RemoveEachMultiset(tags: seq<string>, selected: seq<string>)
    ensures RemoveEach(tags, selected).1 <==> multiset(selected) <= multiset(tags)
    ensures RemoveEach(tags, selected).1 ==> multiset(RemoveEach(tags, selected).0) == multiset(tags) - multiset(selected)
    decreases |selected|
  {
    if |selected| > 0 {
      var tag := selected[0];
      assert selected == [tag] + selected[1..];
      var index := IndexOfTag(tags, tag);
      if index != -1 {
        RemoveEachMultiset(RemoveAt(tags, index), selected[1..]);
      } else {
        assert multiset(tags)[tag] == 0;
      }
    }
  }

  /**
   * What `isMatchTags` answers for the tags it is given: with tags
   * missing or empty only an empty selection matches; an empty selection
   * matches anything; 'or' wants one selected tag present; 'and' wants
   * every selected tag found and nothing else left.
   */
  function MatchTags(tags: OptionalTags, selected: seq<string>, orAnd: TagsOrAnd): bool
  {
    if (tags.NoTags? || |tags.values| == 0) && |selected| > 0 then false
    else if |selected| == 0 then true
    else
      match orAnd
      case Or => exists k :: 0 <= k < |selected| && selected[k] in tags.values
      case And => RemoveEach(tags.values, selected) == ([], true)
  }

  /** 'and' matches exactly when the item's tags are the selected tags, repeats counted, in any order. */
  lemma MatchAndExact(tags: seq<string>, selected: seq<string>)
    requires |selected| > 0
    ensures MatchTags(Tags(tags), selected, And) <==> multiset(tags) == multiset(selected)
  {
    RemoveEachMultiset(tags, selected);
  }

  /** 'or' matches exactly when some selected tag is among the item's tags. */
  lemma MatchOrSome(tags: seq<string>, selected: seq<string>)
    requires |selected| > 0
    ensures MatchTags(Tags(tags), selected, Or) <==> exists k :: 0 <= k < |selected| && selected[k] in tags
  {
  }

  /** The item's own tags array, which `isMatchTags` receives and may splice. */
  class TagArray {
    var values: seq<string>

    constructor(values: seq<string>)
      ensures this.values == values
    {
      this.values := values;
    }
  }

  /**
   * The tags left in the item's array after `isMatchTags` as written: the
   * 'and' walk splices out what it finds, up to the first selected tag
   * that is missing; nothing changes otherwise.
   */
  function TagsAfterAsWritten(tags: seq<string>, selected: seq<string>, orAnd: TagsOrAnd): seq<string>
  {
    if |tags| == 0 || |selected| == 0 || orAnd == Or then tags else RemoveEach(tags, selected).0
  }

  /**
   * `isMatchTags` as written: the answer is `MatchTags`, but in 'and' mode
   * the matched tags are spliced out of the item's own array.
   */
  method IsMatchTagsAsWritten(tags: TagArray?, selectedTags: seq<string>, orAnd: TagsOrAnd) returns (r: bool)
    modifies tags
    ensures r == MatchTags(if tags == null then NoTags else Tags(old(tags.values)), selectedTags, orAnd)
    ensures tags != null ==> tags.values == TagsAfterAsWritten(old(tags.values), selectedTags, orAnd)
  {
    if (tags == null || |tags.values| == 0) && |selectedTags| > 0 {
      return false;
    }
    if |selectedTags| == 0 {
      return true;
    }
    if orAnd == Or {
      r := AnySelected(tags.values, selectedTags);
    } else {
      var found := SpliceEach(tags, selectedTags);
      r := found && |tags.values| == 0;
    }
  }

  /** The 'or' walk of `isMatchTags`: true at the first selected tag present. */
  method AnySelected(tags: seq<string>, selectedTags: seq<string>) returns (r: bool)
    ensures r <==> exists k :: 0 <= k < |selectedTags| && selectedTags[k] in tags
  {
    for k := 0 to |selectedTags|
      invariant forall j :: 0 <= j < k ==> selectedTags[j] !in tags
    {
      if IndexOfTag(tags, selectedTags[k]) != -1 {
        return true;
      }
    }
    return false;
  }

  /**
   * The 'and' walk of `isMatchTags`: each selected tag found is spliced out
   * of the item's array; the walk stops at the first one missing.
   */
  method SpliceEach(tags: TagArray, selectedTags: seq<string>) returns (found: bool)
    modifies tags
    ensures (tags.values, found) == RemoveEach(old(tags.values), selectedTags)
  {
    for k := 0 to |selectedTags|
      invariant RemoveEach(old(tags.values), selectedTags) == RemoveEach(tags.values, selectedTags[k..])
    {
      var index := IndexOfTag(tags.values, selectedTags[k]);
      assert selectedTags[k..][1..] == selectedTags[k + 1..];
      if index == -1 {
        return false;
      }
      tags.values := RemoveAt(tags.values, index);
    }
    assert selectedTags[|selectedTags|..] == [];
    return true;
  }

  /**
   * The input that shows it: an item tagged `t` under the 'and' selection
   * [t] matches, and its tags become empty; the same item under the same
   * selection then no longer matches, so the list changes on every
   * redraw.
   */
  lemma AsWrittenMatchesOnce(t: string)
    ensures MatchTags(Tags([t]), [t], And)
    ensures TagsAfterAsWritten([t], [t], And) == []
    ensures !MatchTags(Tags(TagsAfterAsWritten([t], [t], And)), [t], And)
  {
    assert RemoveAt([t], 0) == [];
    assert RemoveEach([t], [t]) == RemoveEach([], []);
  }

  /** The filter settings of a view. */
  datatype FilterState = FilterState(
    showSearchBar: bool, filterKeywords: string, filterStatus: Status,
    filterTags: seq<string>, filterTagsOrAnd: TagsOrAnd)

  /**
   * The test `filterItems` applies to one item: its status, its tags, and
   * the keywords as a case-insensitive substring of its display name. The
   * Digital Twin view (`requireDisplayName`) also drops items without a
   * display name.
   */
  predicate Keep(item: Item, state: FilterState, requireDisplayName: bool)
  {
    var keywords := Trim(state.filterKeywords);
    (state.filterStatus == All || (item.published && state.filterStatus == Published) ||
      (!item.published && state.filterStatus == Saved)) &&
    MatchTags(item.tags, state.filterTags, state.filterTagsOrAnd) &&
    (!requireDisplayName || item.displayName != "") &&
    (keywords == "" || Contains(ToLower(item.displayName), ToLower(keywords)))
  }

  /**
   * `filterItems`, with the tag test made pure: the list itself when the
   * search bar is hidden, otherwise the items that pass `Keep`, in order.
   */
  function FilterItems(list: seq<Item>, state: FilterState, requireDisplayName: bool): (r: seq<Item>)
    ensures !state.showSearchBar ==> r == list
    ensures |r| <= |list|
    ensures forall x :: x in r <==> x in list && (!state.showSearchBar || Keep(x, state, requireDisplayName))
  {
    if !state.showSearchBar then list
    else if |list| == 0 then []
    else
      var rest := FilterItems(list[1..], state, requireDisplayName);
      if Keep(list[0], state, requireDisplayName) then [list[0]] + rest else rest
  }

  /** Filtering again with the same settings changes nothing, so every redraw shows the same list. */
  lemma {:induction false} FilterItemsIdempotent(list: seq<Item>, state: FilterState, requireDisplayName: bool)
    ensures FilterItems(FilterItems(list, state, requireDisplayName), state, requireDisplayName) ==
      FilterItems(list, state, requireDisplayName)
  {
    if state.showSearchBar && |list| > 0 {
      var rest := FilterItems(list[1..], state, requireDisplayName);
      FilterItemsIdempotent(list[1..], state, requireDisplayName);
      if Keep(list[0], state, requireDisplayName) {
        assert ([list[0]] + rest)[1..] == rest;
      }
    }
  }

  /**
   * `addRemoveInterface` / `addRemoveCapability`: a present id is spliced
   * out at its first position, an absent one is pushed at the end.
   */
  function Toggle(selected: seq<string>, id: string): (r: seq<string>)
    ensures id in selected ==> |r| == |selected| - 1 && multiset(r) == multiset(selected) - multiset{id}
    ensures id !in selected ==> r == selected + [id]
  {
    var index := IndexOfTag(selected, id);
    if index != -1 then RemoveAt(selected, index) else selected + [id]
  }

  predicate NoRepeats(ids: seq<string>)
  {
    forall i, j :: 0 <= i < j < |ids| ==> ids[i] != ids[j]
  }

  /**
   * On a selection without repeats, a toggle flips the id's membership,
   * keeps every other id and keeps the selection free of repeats; toggling
   * an absent id twice restores the selection.
   */
  lemma ToggleFlips(selected: seq<string>, id: string, other: string)
    requires NoRepeats(selected) && other != id
    ensures id in Toggle(selected, id) <==> id !in selected
    ensures other in Toggle(selected, id) <==> other in selected
    ensures NoRepeats(Toggle(selected, id))
    ensures id !in selected ==> Toggle(Toggle(selected, id), id) == selected
  {
    if id in selected {
      ToggleRemoves(selected, id, other);
    } else {
      IndexOfTagLast(selected, id);
      assert (selected + [id])[..|selected|] == selected;
    }
  }

  /** Removing a present id from a selection without repeats. */
  lemma ToggleRemoves(selected: seq<string>, id: string, other: string)
    requires NoRepeats(selected) && other != id && id in selected
    ensures id !in Toggle(selected, id)
    ensures other in Toggle(selected, id) <==> other in selected
    ensures NoRepeats(Toggle(selected, id))
  {
    var index := IndexOfTag(selected, id);
    var r := Toggle(selected, id);
    assert r == selected[..index] + selected[index + 1..];
    RemovedPositions(selected, index);
    assert id !in r;
    if other in selected {
      var p :| 0 <= p < |selected| && selected[p] == other;
      assert p < index ==> r[p] == other;
      assert p > index ==> r[p - 1] == other;
    }
  }

  /** Where the entries of a sequence go when one entry is removed. */
  lemma RemovedPositions(s: seq<string>, index: nat)
    requires index < |s|
    ensures forall k :: 0 <= k < index ==> (s[..index] + s[index + 1..])[k] == s[k]
    ensures forall k :: index < k < |s| ==> (s[..index] + s[index + 1..])[k - 1] == s[k]
  {
  }

  lemma IndexOfTagLast(selected: seq<string>, id: string)
    requires id !in selected
    ensures IndexOfTag(selected + [id], id) == |selected|
  {
    assert (selected + [id])[..|selected|] == selected;
  }

  /** The state of one repository view that the filter and selection buttons change. */
  class RepositoryView {
    var showSearchBar: bool
    var showStatusSelector: bool
    var showTagSelector: bool
    var filterKeywords: string
    var filterStatus: Status
    var filterTags: seq<string>
    var filterTagsOrAnd: TagsOrAnd
    var selectedInterfaces: seq<string>
    var selectedCapabilityModels: seq<string>

    /** The initial data of the view. */
    constructor()
      ensures !showSearchBar && !showStatusSelector && !showTagSelector
      ensures filterKeywords == "" && filterStatus == All && filterTags == [] && filterTagsOrAnd == And
      ensures selectedInterfaces == [] && selectedCapabilityModels == []
    {
      showSearchBar := false;
      showStatusSelector := false;
      showTagSelector := false;
      filterKeywords := "";
      filterStatus := All;
      filterTags := [];
      filterTagsOrAnd := And;
      selectedInterfaces := [];
      selectedCapabilityModels := [];
    }

    function Filter(): FilterState
      reads this
    {
      FilterState(showSearchBar, filterKeywords, filterStatus, filterTags, filterTagsOrAnd)
    }

    /** `clearFilter`: no tags, status All, no keywords, both selectors closed. */
    method ClearFilter()
      modifies this
      ensures filterTags == [] && filterStatus == All && filterKeywords == ""
      ensures !showStatusSelector && !showTagSelector
      ensures showSearchBar == old(showSearchBar) && filterTagsOrAnd == old(filterTagsOrAnd)
      ensures selectedInterfaces == old(selectedInterfaces) && selectedCapabilityModels == old(selectedCapabilityModels)
    {
      filterTags := [];
      filterStatus := All;
      showStatusSelector := false;
      filterKeywords := "";
      showTagSelector := false;
    }

    /** `selectFilterStatus`: the status is set and its selector closed. */
    method SelectFilterStatus(status: Status)
      modifies this
      ensures filterStatus == status && !showStatusSelector
      ensures showSearchBar == old(showSearchBar) && showTagSelector == old(showTagSelector)
      ensures filterKeywords == old(filterKeywords) && filterTags == old(filterTags) && filterTagsOrAnd == old(filterTagsOrAnd)
      ensures selectedInterfaces == old(selectedInterfaces) && selectedCapabilityModels == old(selectedCapabilityModels)
    {
      filterStatus := status;
      showStatusSelector := false;
    }

    /** `showHideSearchBar`: the search bar flips and both selectors close. */
    method ShowHideSearchBar()
      modifies this
      ensures showSearchBar == !old(showSearchBar) && !showStatusSelector && !showTagSelector
      ensures filterKeywords == old(filterKeywords) && filterStatus == old(filterStatus)
      ensures filterTags == old(filterTags) && filterTagsOrAnd == old(filterTagsOrAnd)
      ensures selectedInterfaces == old(selectedInterfaces) && selectedCapabilityModels == old(selectedCapabilityModels)
    {
      showSearchBar := !showSearchBar;
      showStatusSelector := false;
      showTagSelector := false;
    }

    /** `addRemoveInterface`. */
    method AddRemoveInterface(id: string)
      modifies this
      ensures selectedInterfaces == Toggle(old(selectedInterfaces), id)
      ensures selectedCapabilityModels == old(selectedCapabilityModels) && Filter() == old(Filter())
    {
      var index := IndexOfTag(selectedInterfaces, id);
      if index != -1 {
        selectedInterfaces := RemoveAt(selectedInterfaces, index);
      } else {
        selectedInterfaces := selectedInterfaces + [id];
      }
    }

    /** `addRemoveCapability`. */
    method AddRemoveCapability(id: string)
      modifies this
      ensures selectedCapabilityModels == Toggle(old(selectedCapabilityModels), id)
      ensures selectedInterfaces == old(selectedInterfaces) && Filter() == old(Filter())
    {
      var index := IndexOfTag(selectedCapabilityModels, id);
      if index != -1 {
        selectedCapabilityModels := RemoveAt(selectedCapabilityModels, index);
      } else {
        selectedCapabilityModels := selectedCapabilityModels + [id];
      }
    }
  }

  /** After `clearFilter` an open search bar shows every item that passes the display-name test. */
  lemma ClearedFilterKeepsAll(list: seq<Item>, showSearchBar: bool, orAnd: TagsOrAnd, requireDisplayName: bool)
    ensures var r := FilterItems(list, FilterState(showSearchBar, "", All, [], orAnd), requireDisplayName);
      forall x :: x in r <==> x in list && (!showSearchBar || !requireDisplayName || x.displayName != "")
  {
  }
}
