/**
 * The Interactivity API store of the frontend display block
 * (src/blocks/starter-item-frontend/view.js). The wrapper's context holds
 * `activeFilter`; each filter button adds its `slug` and each item card its
 * `categories`, so every getter reads `activeFilter` together with the
 * element's own context, and the two actions assign `activeFilter`.
 */
module FrontendStore {
  import opened Wrappers

  /** `state.hasActiveFilter`. */
  function HasActiveFilter(activeFilter: string): (active: bool)
    ensures active <==> activeFilter != ""
  {
    activeFilter != ""
  }

  /** `state.isFilterActive` for the button whose context holds `slug`. */
  function IsFilterActive(activeFilter: string, slug: string): (isActive: bool)
    ensures isActive <==> activeFilter == slug
  {
    activeFilter == slug
  }

  /** `state.isItemHidden` for the card whose context holds `categories` (`None` when it has none). */
  function IsItemHidden(activeFilter: string, categories: Option<seq<string>>): (hidden: bool)
    ensures !HasActiveFilter(activeFilter) ==> !hidden
    ensures HasActiveFilter(activeFilter) ==> (hidden <==> categories.None? || activeFilter !in categories.value)
  {
    if activeFilter == "" then false
    else !(categories.Some? && activeFilter in categories.value)
  }

  /** The wrapper context that the actions write to. */
  class FilterContext {
    var activeFilter: string

    /** The block renders with no filter selected. */
    constructor ()
      ensures activeFilter == ""
    {
      activeFilter := "";
    }

    /** `actions.setFilter` on the button whose context holds `slug`. */
    method SetFilter(slug: string)
      modifies this
      ensures activeFilter == slug
      ensures IsFilterActive(activeFilter, slug)
      ensures forall other :: IsFilterActive(activeFilter, other) <==> other == slug
    {
      activeFilter := slug;
    }

    /** `actions.clearFilter`. */
    method ClearFilter()
      modifies this
      ensures activeFilter == ""
      ensures !HasActiveFilter(activeFilter)
      ensures forall categories :: !IsItemHidden(activeFilter, categories)
    {
      activeFilter := "";
    }
  }

  /** An item is hidden only while a filter is active. */
  lemma HiddenOnlyWhileFiltering(activeFilter: string, categories: Option<seq<string>>)
    ensures IsItemHidden(activeFilter, categories) ==> HasActiveFilter(activeFilter)
  {
  }

  /**
   * Under the filter of a category button, the cards shown are exactly those
   * listing that category, and at most one button of a row with distinct
   * slugs is marked active.
   */
  lemma {:induction false} FilterSelectsCategory(slugs: seq<string>, k: nat, cards: seq<Option<seq<string>>>)
    requires k < |slugs| && slugs[k] != ""
    requires forall i, j :: 0 <= i < j < |slugs| ==> slugs[i] != slugs[j]
    ensures forall i :: 0 <= i < |slugs| ==> (IsFilterActive(slugs[k], slugs[i]) <==> i == k)
    ensures forall c :: 0 <= c < |cards| ==>
      (!IsItemHidden(slugs[k], cards[c]) <==> cards[c].Some? && slugs[k] in cards[c].value)
  {
    forall i | 0 <= i < |slugs| ensures IsFilterActive(slugs[k], slugs[i]) <==> i == k {
      if i < k {
        assert slugs[i] != slugs[k];
      } else if i > k {
        assert slugs[k] != slugs[i];
      }
    }
  }
}
