/** The general inventory screen (`components/inventory/general-inventory.tsx`): thirty sample items,
    the category checkboxes, a name search and ten rows per page. */
module GeneralInventory {
  import opened Util
  import opened Text
  import opened InventoryControls

  datatype Item = Item(id: string, name: string, stock: int)

  function ItemName(i: Item): string { i.name }

  /** `inventoryData`; the random stock levels are given as `stock`. */
  function InventoryData(stock: nat -> int): (r: seq<Item>)
    ensures |r| == 30
    ensures forall i :: 0 <= i < 30 ==>
      r[i] == Item("INV-" + NatToString(1000 + i), "일반 재고 품목 " + NatToString(i + 1), stock(i))
  {
    seq(30, i requires 0 <= i < 30 => Item("INV-" + NatToString(1000 + i), "일반 재고 품목 " + NatToString(i + 1), stock(i)))
  }

  /** `filteredData`. */
  function FilteredData(items: seq<Item>, term: string, searchType: string): seq<Item>
  {
    NameSearch(items, ItemName, term, searchType)
  }

  /** `currentItems` and `totalPages`. */
  function CurrentItems(items: seq<Item>, term: string, searchType: string, page: int): seq<Item>
  {
    PageRows(FilteredData(items, term, searchType), page, ItemsPerPage)
  }

  function ItemPages(items: seq<Item>, term: string, searchType: string): nat
  {
    TotalPages(|FilteredData(items, term, searchType)|, ItemsPerPage)
  }

  /** Without a name search the thirty items fill exactly three pages of ten, the first page showing
      the first ten items. */
  lemma UnfilteredPages(stock: nat -> int, term: string, searchType: string)
    requires term == "" || searchType != ByName
    ensures var items := InventoryData(stock);
      ItemPages(items, term, searchType) == 3 && CurrentItems(items, term, searchType, 1) == items[..10]
  {
    var items := InventoryData(stock);
    NameSearchIff(items, ItemName, term, searchType, items[0]);
    PageRowsWindow(items, 1, ItemsPerPage);
  }

  class InventoryPage {
    var searchTerm: string
    var searchType: string
    var currentPage: int
    const categories: CategoryBox
    const items: seq<Item>

    constructor (stock: nat -> int)
      ensures searchTerm == "" && searchType == "all" && currentPage == 1
      ensures fresh(categories) && categories.searchCategory == [AllCategories]
      ensures items == InventoryData(stock)
    {
      searchTerm, searchType := "", "all";
      currentPage := 1;
      categories := new CategoryBox();
      items := InventoryData(stock);
    }

    function Rows(): seq<Item>
      reads this
    {
      CurrentItems(items, searchTerm, searchType, currentPage)
    }

    /** A checkbox click changes only the categories; the table does not read them. */
    method ClickCategory(value: string)
      modifies categories
      ensures categories.searchCategory == CheckboxChange(old(categories.searchCategory), value)
      ensures Rows() == old(Rows())
    {
      categories.HandleCheckboxChange(value);
    }

    method SetSearch(term: string, kind: string)
      modifies this`searchTerm, this`searchType
      ensures searchTerm == term && searchType == kind && currentPage == old(currentPage)
    {
      searchTerm, searchType := term, kind;
    }

    method SetCurrentPage(page: int)
      modifies this`currentPage
      ensures currentPage == page
    {
      currentPage := page;
    }
  }
}
