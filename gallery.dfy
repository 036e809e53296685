/**
 * The gallery filter buttons (`initGallery`): clicking a filter makes it the
 * only one with the `active` class and shows exactly the gallery items whose
 * category matches the filter's value, or every item for the value "all".
 */
module Gallery {

  /** The filter value that shows every item. */
  const ShowAll: string := "all"

  /** Whether an item of `category` is displayed under `filterValue`. */
  predicate Visible(filterValue: string, category: string)
  {
    filterValue == ShowAll || category == filterValue
  }

  /** The display flags of items with `categories` under `filterValue`. */
  function Displayed(filterValue: string, categories: seq<string>): (shown: seq<bool>)
    ensures |shown| == |categories|
    ensures forall i :: 0 <= i < |categories| ==>
      (shown[i] <==> filterValue == ShowAll || categories[i] == filterValue)
  {
    seq(|categories|, i requires 0 <= i < |categories| => Visible(filterValue, categories[i]))
  }

  /** The "all" filter shows every item. */
  lemma AllShowsEverything(categories: seq<string>)
    ensures forall i :: 0 <= i < |categories| ==> Displayed(ShowAll, categories)[i]
  {
  }

  /**
   * Any other filter shows exactly the items of its category: the number of
   * items shown equals the number of items in that category.
   */
  lemma {:induction false} CategoryFilterCount(filterValue: string, categories: seq<string>)
    requires filterValue != ShowAll
    ensures CountTrue(Displayed(filterValue, categories)) == CountOf(filterValue, categories)
    decreases |categories|
  {
    if categories != [] {
      var n := |categories|;
      assert Displayed(filterValue, categories)[..n - 1] == Displayed(filterValue, categories[..n - 1]);
      CategoryFilterCount(filterValue, categories[..n - 1]);
    }
  }

  /** How many of `flags` are set. */
  function CountTrue(flags: seq<bool>): nat
    decreases |flags|
  {
    if flags == [] then 0
    else CountTrue(flags[..|flags| - 1]) + (if flags[|flags| - 1] then 1 else 0)
  }

  /** How many of `categories` equal `c`. */
  function CountOf(c: string, categories: seq<string>): nat
    decreases |categories|
  {
    if categories == [] then 0
    else CountOf(c, categories[..|categories| - 1]) + (if categories[|categories| - 1] == c then 1 else 0)
  }

  /** The filter buttons and the gallery items as the page holds them. */
  class GalleryFilters {
    /** Each filter button's `data-filter` value. */
    const filterValues: array<string>
    /** Whether each filter button has the `active` class. */
    const active: array<bool>
    /** Each gallery item's `data-category`. */
    const categories: array<string>
    /** Whether each gallery item is displayed. */
    const displayed: array<bool>

    ghost predicate Valid()
      reads this
    {
      && filterValues.Length == active.Length
      && categories.Length == displayed.Length
      && active != displayed
    }

    /** The gallery as populated: every item displayed, no filter touched yet. */
    constructor (values: seq<string>, initiallyActive: seq<bool>, itemCategories: seq<string>)
      requires |values| == |initiallyActive|
      ensures Valid()
      ensures filterValues[..] == values && active[..] == initiallyActive
      ensures categories[..] == itemCategories
      ensures displayed[..] == seq(|itemCategories|, _ => true)
    {
      filterValues := new string[|values|](i requires 0 <= i < |values| => values[i]);
      active := new bool[|initiallyActive|](i requires 0 <= i < |initiallyActive| => initiallyActive[i]);
      categories := new string[|itemCategories|](i requires 0 <= i < |itemCategories| => itemCategories[i]);
      displayed := new bool[|itemCategories|](_ => true);
    }

    /** The click handler of filter button `k`. */
    method OnFilterClick(k: nat)
      requires Valid() && k < filterValues.Length
      modifies active, displayed
      ensures forall j :: 0 <= j < active.Length ==> (active[j] <==> j == k)
      ensures displayed[..] == Displayed(filterValues[k], categories[..])
    {
      var j := 0;
      while j < active.Length
        invariant 0 <= j <= active.Length
        invariant forall m :: 0 <= m < j ==> !active[m]
      {
        active[j] := false;
        j := j + 1;
      }
      active[k] := true;

      var filterValue := filterValues[k];
      var i := 0;
      while i < displayed.Length
        invariant 0 <= i <= displayed.Length
        invariant forall m :: 0 <= m < i ==> displayed[m] == Visible(filterValue, categories[m])
        invariant forall m :: 0 <= m < active.Length ==> (active[m] <==> m == k)
      {
        displayed[i] := Visible(filterValue, categories[i]);
        i := i + 1;
      }
    }
  }
}
