// The live-inventory search of src/components/inventory-tab.tsx: the models
// whose lower-cased name contains the lower-cased search term, in inventory
// order.

module InventoryTab {
  import opened Text
  import opened Seqs
  import opened Types

  /** The match test for one model. */
  function Matches(term: string): InventoryModel -> bool {
    (home: InventoryModel) => Contains(ToLower(home.name), ToLower(term))
  }

  /** `filteredInventory` */
  function FilterInventory(inventory: seq<InventoryModel>, searchTerm: string): (r: seq<InventoryModel>)
    ensures forall i :: 0 <= i < |r| ==> r[i] in inventory && Contains(ToLower(r[i].name), ToLower(searchTerm))
    ensures forall i :: 0 <= i < |inventory| && Contains(ToLower(inventory[i].name), ToLower(searchTerm)) ==> inventory[i] in r
    ensures forall m :: multiset(r)[m] == (if Contains(ToLower(m.name), ToLower(searchTerm)) then multiset(inventory)[m] else 0)
    ensures IsSubsequence(r, inventory)
    ensures |r| <= |inventory|
  {
    FilterCounts(inventory, Matches(searchTerm));
    Filter(inventory, Matches(searchTerm))
  }

  /** An empty search term shows the whole inventory. */
  lemma EmptyTermKeepsAll(inventory: seq<InventoryModel>)
    ensures FilterInventory(inventory, "") == inventory
  {
    forall i | 0 <= i < |inventory|
      ensures Matches("")(inventory[i])
    {
      ContainsEmpty(ToLower(inventory[i].name));
    }
    FilterAll(inventory, Matches(""));
  }

  /** Search terms that lower-case alike select the same models, so the
      search ignores the case of the letters A to Z. */
  lemma CaseInsensitive(inventory: seq<InventoryModel>, term1: string, term2: string)
    requires ToLower(term1) == ToLower(term2)
    ensures FilterInventory(inventory, term1) == FilterInventory(inventory, term2)
  {
    FilterAgreeing(inventory, Matches(term1), Matches(term2));
  }

  /** Searching the results again with the same term changes nothing. */
  lemma SearchIdempotent(inventory: seq<InventoryModel>, term: string)
    ensures FilterInventory(FilterInventory(inventory, term), term) == FilterInventory(inventory, term)
  {
    FilterIdempotent(inventory, Matches(term));
  }
}
