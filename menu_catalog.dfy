/**
 * The menu catalog (`MenuManager`): the list of all items, loaded once, and the
 * category query the menu window fills its three sections from.
 */
module MenuCatalog {
  import opened MenuItems
  import opened Lists

  /**
   * `GetItemsByCategory(category)`: the catalog items whose category is `category`, in
   * catalog order. Each variant's category label comes from its override of the abstract
   * `GetCategory()`, passed in as `categoryOf`.
   */
  function ItemsByCategory(allMenuItems: seq<MenuItem>, category: string,
                           categoryOf: ItemKind -> string): (r: seq<MenuItem>)
    ensures |r| <= |allMenuItems|
    ensures forall i :: 0 <= i < |r| ==> categoryOf(r[i].kind) == category
    ensures forall i :: 0 <= i < |allMenuItems| && categoryOf(allMenuItems[i].kind) == category
              ==> allMenuItems[i] in r
  {
    if allMenuItems == [] then []
    else
      var rest := ItemsByCategory(allMenuItems[1..], category, categoryOf);
      assert forall i :: 1 <= i < |allMenuItems| ==> allMenuItems[i] == allMenuItems[1..][i - 1];
      if categoryOf(allMenuItems[0].kind) == category then [allMenuItems[0]] + rest else rest
  }

  /** The query keeps catalog order: its result is a subsequence of the catalog. */
  lemma {:induction false} ItemsByCategoryKeepsOrder(allMenuItems: seq<MenuItem>, category: string,
                                                    categoryOf: ItemKind -> string)
    ensures IsSubsequence(ItemsByCategory(allMenuItems, category, categoryOf), allMenuItems)
  {
    if allMenuItems != [] {
      ItemsByCategoryKeepsOrder(allMenuItems[1..], category, categoryOf);
      var rest := ItemsByCategory(allMenuItems[1..], category, categoryOf);
      if categoryOf(allMenuItems[0].kind) != category {
        SubsequenceOfTail(rest, allMenuItems);
      }
    }
  }

  /**
   * The query returns each matching catalog item as often as the catalog lists it,
   * and nothing else.
   */
  lemma {:induction false} ItemsByCategoryCounts(allMenuItems: seq<MenuItem>, category: string,
                                                categoryOf: ItemKind -> string, x: MenuItem)
    ensures multiset(ItemsByCategory(allMenuItems, category, categoryOf))[x]
            == if categoryOf(x.kind) == category then multiset(allMenuItems)[x] else 0
  {
    if allMenuItems != [] {
      ItemsByCategoryCounts(allMenuItems[1..], category, categoryOf, x);
      assert allMenuItems == [allMenuItems[0]] + allMenuItems[1..];
    }
  }
}
