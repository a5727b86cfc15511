/**
  The navigation editor form: a list of navigation tabs that the user can
  extend with a fresh default tab, shorten by removing a tab, and mark
  hidden. The tab list is the form's `navTabs` value.
 */
module NavigationEditor {
  import opened JsValues

  /** What a tab shows: posts with given tags, one post, or an outside link. */
  datatype NavTabContent = FilterByTags(tags: seq<string>) | SpecificPost(postId: nat) | OuterUrl(url: string)

  /** `NavTab`; the source's `type` field is `tabType` here. */
  datatype NavTab = NavTab(
    id: int,
    title: string,
    content: NavTabContent,
    description: string,
    hidden: bool,
    tabType: string)

  /** The content type of a new tab. */
  const ByTag: string := "by-tag"

  /** No two tabs share an id. */
  predicate DistinctIds(tabs: seq<NavTab>)
  {
    forall i, j :: 0 <= i < j < |tabs| ==> tabs[i].id != tabs[j].id
  }

  /**
    `navTabs.reduce((cur, prev) => cur.id > prev.id ? cur : prev)`: a left
    fold without a seed, so the list must not be empty. The result is a tab
    of the list with the largest id; on a tie the later tab wins.
   */
  function MaxTab(tabs: seq<NavTab>): (r: NavTab)
    requires |tabs| > 0
    ensures r in tabs
    ensures forall i :: 0 <= i < |tabs| ==> tabs[i].id <= r.id
    ensures exists k :: 0 <= k < |tabs| && tabs[k] == r && forall j :: k < j < |tabs| ==> tabs[j].id < r.id
  {
    if |tabs| == 1 then tabs[0]
    else
      var acc := MaxTab(tabs[..|tabs| - 1]);
      var last := tabs[|tabs| - 1];
      if acc.id > last.id then acc else last
  }

  /** `getMaxId`: the largest id in a non-empty tab list, and the id of one of its tabs. */
  function GetMaxId(tabs: seq<NavTab>): (m: int)
    requires |tabs| > 0
    ensures exists i :: 0 <= i < |tabs| && tabs[i].id == m
    ensures forall i :: 0 <= i < |tabs| ==> tabs[i].id <= m
  {
    MaxTab(tabs).id
  }

  /**
    `defaultTab`: an empty, visible tab filtering by an empty tag list, whose
    id is one more than the largest id, so it differs from every tab's id.
   */
  function DefaultTab(tabs: seq<NavTab>): (t: NavTab)
    requires |tabs| > 0
    ensures t.id == GetMaxId(tabs) + 1
    ensures forall i :: 0 <= i < |tabs| ==> tabs[i].id < t.id
    ensures t !in tabs
    ensures t.title == "" && t.description == "" && !t.hidden
    ensures t.tabType == ByTag && t.content == FilterByTags([])
  {
    NavTab(GetMaxId(tabs) + 1, "", FilterByTags([]), "", false, ByTag)
  }

  /** "+ Add Tab": `arrayHelpers.push(defaultTab)` appends the default tab and keeps the others. */
  function AddTab(tabs: seq<NavTab>): (r: seq<NavTab>)
    requires |tabs| > 0
    ensures |r| == |tabs| + 1
    ensures r[..|tabs|] == tabs
    ensures r[|tabs|] == DefaultTab(tabs)
  {
    tabs + [DefaultTab(tabs)]
  }

  /** The delete icon of row `index`: `arrayHelpers.remove(index)` deletes that tab only. */
  function RemoveTab(tabs: seq<NavTab>, index: nat): (r: seq<NavTab>)
    requires index < |tabs|
    ensures |r| == |tabs| - 1
    ensures forall i :: 0 <= i < index ==> r[i] == tabs[i]
    ensures forall i :: index <= i < |r| ==> r[i] == tabs[i + 1]
    ensures multiset(r) + multiset{tabs[index]} == multiset(tabs)
  {
    assert tabs == tabs[..index] + [tabs[index]] + tabs[index + 1..];
    tabs[..index] + tabs[index + 1..]
  }

  /**
    `getMaxId` as written, for any list: `reduce` without a seed throws on an
    empty list (`None` here); otherwise it yields the largest id.
   */
  function GetMaxIdAsWritten(tabs: seq<NavTab>): (r: Option<int>)
    ensures r.None? <==> tabs == []
    ensures r.Some? ==> forall i :: 0 <= i < |tabs| ==> tabs[i].id <= r.value
    ensures r.Some? ==> exists i :: 0 <= i < |tabs| && tabs[i].id == r.value
  {
    if tabs == [] then None else Some(GetMaxId(tabs))
  }

  /**
    The delete icon can remove the last row (the list rendering expects an
    empty list), after which the next render's `defaultTab` throws in `getMaxId`.
   */
  lemma RemovingLastTabBreaksDefaultTab(t: NavTab)
    ensures RemoveTab([t], 0) == []
    ensures GetMaxIdAsWritten(RemoveTab([t], 0)).None?
  {
  }

  /**
    The default tab as evidently intended for any list: the id after the
    largest one, or 1 for an empty list.
   */
  function NextTab(tabs: seq<NavTab>): (t: NavTab)
    ensures forall i :: 0 <= i < |tabs| ==> tabs[i].id < t.id
    ensures t !in tabs
    ensures tabs == [] ==> t.id == 1
    ensures tabs != [] ==> t == DefaultTab(tabs)
  {
    match GetMaxIdAsWritten(tabs)
    case None => NavTab(1, "", FilterByTags([]), "", false, ByTag)
    case Some(m) => NavTab(m + 1, "", FilterByTags([]), "", false, ByTag)
  }

  /** "+ Add Tab" with the corrected default tab: defined on every list, and it keeps ids distinct. */
  function AddNextTab(tabs: seq<NavTab>): (r: seq<NavTab>)
    ensures |r| == |tabs| + 1
    ensures r[..|tabs|] == tabs && r[|tabs|] == NextTab(tabs)
    ensures tabs != [] ==> r == AddTab(tabs)
  {
    tabs + [NextTab(tabs)]
  }

  /** The corrected add keeps ids distinct on every list, and an emptied list can be refilled. */
  lemma AddNextTabKeepsIdsDistinct(tabs: seq<NavTab>)
    requires DistinctIds(tabs)
    ensures DistinctIds(AddNextTab(tabs))
    ensures AddNextTab([]) == [NextTab([])] && NextTab([]).id == 1
  {
    var r := AddNextTab(tabs);
    forall i, j | 0 <= i < j < |r| ensures r[i].id != r[j].id {
      assert r[i] == tabs[i];
      if j < |tabs| {
        assert r[j] == tabs[j];
      }
    }
  }

  /** Adding a tab keeps the ids distinct. */
  lemma AddTabKeepsIdsDistinct(tabs: seq<NavTab>)
    requires |tabs| > 0 && DistinctIds(tabs)
    ensures DistinctIds(AddTab(tabs))
  {
    AddNextTabKeepsIdsDistinct(tabs);
  }

  /** The added tab holds the new largest id, so a second add again gets a fresh one. */
  lemma AddTabRaisesMaxId(tabs: seq<NavTab>)
    requires |tabs| > 0
    ensures GetMaxId(AddTab(tabs)) == GetMaxId(tabs) + 1
  {
    var r := AddTab(tabs);
    assert r[..|r| - 1] == tabs;
  }

  /**
    The list after `n` clicks on "+ Add Tab": the original tabs come first,
    and each click raises the largest id by one.
   */
  function AddTabs(tabs: seq<NavTab>, n: nat): (r: seq<NavTab>)
    requires |tabs| > 0
    ensures |r| == |tabs| + n
    ensures r[..|tabs|] == tabs
    ensures GetMaxId(r) == GetMaxId(tabs) + n
  {
    if n == 0 then tabs
    else
      var prev := AddTabs(tabs, n - 1);
      AddTabRaisesMaxId(prev);
      AddTab(prev)
  }

  /** Removing a tab keeps the ids distinct. */
  lemma RemoveTabKeepsIdsDistinct(tabs: seq<NavTab>, index: nat)
    requires index < |tabs| && DistinctIds(tabs)
    ensures DistinctIds(RemoveTab(tabs, index))
  {
    var r := RemoveTab(tabs, index);
    forall i, j | 0 <= i < j < |r| ensures r[i].id != r[j].id {
      var i', j' := if i < index then i else i + 1, if j < index then j else j + 1;
      assert r[i] == tabs[i'] && r[j] == tabs[j'];
    }
  }

  /** Removing the tab just added gives back the list as it was. */
  lemma RemoveAddedTab(tabs: seq<NavTab>)
    requires |tabs| > 0
    ensures RemoveTab(AddTab(tabs), |tabs|) == tabs
  {
    var r := RemoveTab(AddTab(tabs), |tabs|);
    assert forall i :: 0 <= i < |tabs| ==> r[i] == tabs[i];
  }

  /**
    The hide icon of row `index` as written:
    `setFieldValue(navTabs.index.hidden, nt.hidden)` stores the flag it read.
   */
  function HideClickAsWritten(tabs: seq<NavTab>, index: nat): (r: seq<NavTab>)
    requires index < |tabs|
    ensures |r| == |tabs|
  {
    tabs[index := tabs[index].(hidden := tabs[index].hidden)]
  }

  /** The hide icon as written never changes the list: a hidden tab cannot be shown, nor a shown one hidden. */
  lemma HideClickIsNoOp(tabs: seq<NavTab>, index: nat)
    requires index < |tabs|
    ensures HideClickAsWritten(tabs, index) == tabs
    ensures HideClickAsWritten(tabs, index)[index].hidden == tabs[index].hidden
  {
    var r := HideClickAsWritten(tabs, index);
    assert forall i :: 0 <= i < |tabs| ==> r[i] == tabs[i];
  }

  /** The hide icon as intended: flip the `hidden` flag of row `index` and leave everything else alone. */
  function ToggleHidden(tabs: seq<NavTab>, index: nat): (r: seq<NavTab>)
    requires index < |tabs|
    ensures |r| == |tabs|
    ensures r[index].hidden == !tabs[index].hidden
    ensures r[index].(hidden := tabs[index].hidden) == tabs[index]
    ensures forall i :: 0 <= i < |tabs| && i != index ==> r[i] == tabs[i]
  {
    tabs[index := tabs[index].(hidden := !tabs[index].hidden)]
  }

  /** Toggling twice restores the list, and toggling keeps the ids distinct. */
  lemma ToggleHiddenTwice(tabs: seq<NavTab>, index: nat)
    requires index < |tabs|
    ensures ToggleHidden(ToggleHidden(tabs, index), index) == tabs
    ensures DistinctIds(tabs) ==> DistinctIds(ToggleHidden(tabs, index))
  {
    var r := ToggleHidden(ToggleHidden(tabs, index), index);
    assert forall i :: 0 <= i < |tabs| ==> r[i] == tabs[i];
  }
}
