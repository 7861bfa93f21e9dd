/** The controls the two inventory screens share, written identically in
    `components/inventory/general-inventory.tsx` and `components/inventory/print-materials.tsx`: the
    category checkboxes with their `handleCheckboxChange` handler, and the name search of the table. */
module InventoryControls {
  import opened Util
  import opened Text

  /** The checkbox value that stands for every category. */
  const AllCategories: string := "all"

  function IsNot(value: string): string -> bool
  {
    (c: string) => c != value
  }

  /** The category list `handleCheckboxChange(value)` leaves behind. The handler computes
      `newCategories` (the list without "all") from the list it started with, assigns the toggled
      list, and then, when `newCategories` is empty, assigns `["all"]`; the last assignment wins. */
  function CheckboxChange(categories: seq<string>, value: string): seq<string>
  {
    if value == AllCategories then [AllCategories]
    else
      var newCategories := Filter(categories, IsNot(AllCategories));
      if |newCategories| == 0 then [AllCategories]
      else if value in newCategories then Filter(newCategories, IsNot(value))
      else newCategories + [value]
  }

  /** Clicking "all" always selects just "all". */
  lemma ClickAllResets(categories: seq<string>)
    ensures CheckboxChange(categories, AllCategories) == [AllCategories]
  {
  }

  /** When some category other than "all" was selected, a click on another value toggles that value
      in the list with "all" removed and leaves the membership of every other value alone. */
  lemma ClickToggles(categories: seq<string>, value: string, x: string)
    requires value != AllCategories
    requires exists c :: c in categories && c != AllCategories
    ensures var r := CheckboxChange(categories, value);
      AllCategories !in r &&
      (value in r <==> value !in categories) &&
      (x != value && x != AllCategories ==> (x in r <==> x in categories))
  {
    var c :| c in categories && c != AllCategories;
    var newCategories := Filter(categories, IsNot(AllCategories));
    FilterMembers(categories, IsNot(AllCategories), c);
    FilterMembers(categories, IsNot(AllCategories), value);
    FilterMembers(categories, IsNot(AllCategories), x);
    FilterMembers(categories, IsNot(AllCategories), AllCategories);
    FilterMembers(newCategories, IsNot(value), value);
    FilterMembers(newCategories, IsNot(value), x);
    FilterMembers(newCategories, IsNot(value), AllCategories);
  }

  /** From `["all"]`, every click leaves `["all"]`: the reset tests the list before the toggle, which
      is empty there. */
  lemma StuckAtAll(value: string)
    ensures CheckboxChange([AllCategories], value) == [AllCategories]
  {
    FilterSingleton(AllCategories, IsNot(AllCategories));
  }

  /** The list after a series of clicks. */
  function Clicks(categories: seq<string>, values: seq<string>): seq<string>
    decreases |values|
  {
    if values == [] then categories else Clicks(CheckboxChange(categories, values[0]), values[1..])
  }

  /** The checkboxes start at `["all"]` and no series of clicks ever changes that. */
  lemma {:induction false} NeverLeavesAll(values: seq<string>)
    ensures Clicks([AllCategories], values) == [AllCategories]
  {
    if values != [] {
      StuckAtAll(values[0]);
      NeverLeavesAll(values[1..]);
    }
  }

  /** The handler as it evidently was meant to work: the reset to `["all"]` tests the list after the
      toggle. */
  function CheckboxIntended(categories: seq<string>, value: string): seq<string>
  {
    if value == AllCategories then [AllCategories]
    else
      var newCategories := Filter(categories, IsNot(AllCategories));
      var toggled := if value in newCategories then Filter(newCategories, IsNot(value)) else newCategories + [value];
      if |toggled| == 0 then [AllCategories] else toggled
  }

  /** With the intended handler a click on a category leaves "all" for exactly that category, and a
      second click on it returns to "all". */
  lemma IntendedLeavesAll(value: string)
    requires value != AllCategories
    ensures CheckboxIntended([AllCategories], value) == [value]
    ensures CheckboxIntended([value], value) == [AllCategories]
  {
    FilterSingleton(AllCategories, IsNot(AllCategories));
    FilterSingleton(value, IsNot(AllCategories));
    FilterSingleton(value, IsNot(value));
  }

  /** The intended handler toggles the clicked value and keeps every other one, and it never shows
      "all" beside a category. */
  lemma IntendedToggles(categories: seq<string>, value: string, x: string)
    requires value != AllCategories
    ensures var r := CheckboxIntended(categories, value);
      r == [AllCategories] ||
      (AllCategories !in r && (value in r <==> value !in categories) &&
       (x != value && x != AllCategories ==> (x in r <==> x in categories)))
  {
    var newCategories := Filter(categories, IsNot(AllCategories));
    FilterMembers(categories, IsNot(AllCategories), value);
    FilterMembers(categories, IsNot(AllCategories), x);
    FilterMembers(categories, IsNot(AllCategories), AllCategories);
    FilterMembers(newCategories, IsNot(value), value);
    FilterMembers(newCategories, IsNot(value), x);
    FilterMembers(newCategories, IsNot(value), AllCategories);
  }

  /** The state behind the checkboxes. */
  class CategoryBox {
    var searchCategory: seq<string>

    constructor ()
      ensures searchCategory == [AllCategories]
    {
      searchCategory := [AllCategories];
    }

    /** `handleCheckboxChange(value)`, one setter call after the other. */
    method HandleCheckboxChange(value: string)
      modifies this
      ensures searchCategory == CheckboxChange(old(searchCategory), value)
    {
      if value == AllCategories {
        searchCategory := [AllCategories];
      } else {
        var newCategories := Filter(searchCategory, IsNot(AllCategories));
        if value in newCategories {
          searchCategory := Filter(newCategories, IsNot(value));
        } else {
          searchCategory := newCategories + [value];
        }
        if |newCategories| == 0 {
          searchCategory := [AllCategories];
        }
      }
    }
  }

  /** The search type that restricts the table. */
  const ByName: string := "name"

  /** The table's filter callback: a row is dropped only when the term is non-empty, the search type
      is "name" and the lowercased name lacks the lowercased term. */
  predicate SearchKeeps(name: string, term: string, searchType: string)
  {
    !(term != "" && searchType == ByName && !Matches(name, term))
  }

  function KeepsName<T>(name: T -> string, term: string, searchType: string): T -> bool
  {
    (x: T) => SearchKeeps(name(x), term, searchType)
  }

  /** `filteredData`. */
  function NameSearch<T>(items: seq<T>, name: T -> string, term: string, searchType: string): seq<T>
  {
    Filter(items, KeepsName(name, term, searchType))
  }

  /** A row is listed exactly when it is not excluded by a name search; an empty term or the search
      type "all" lists every row in order. */
  lemma NameSearchIff<T>(items: seq<T>, name: T -> string, term: string, searchType: string, x: T)
    ensures x in NameSearch(items, name, term, searchType) <==>
      x in items && !(term != "" && searchType == ByName && !Matches(name(x), term))
    ensures term == "" || searchType != ByName ==> NameSearch(items, name, term, searchType) == items
  {
    FilterMembers(items, KeepsName(name, term, searchType), x);
    FilterAll(items, KeepsName(name, term, searchType));
  }

  /** The rows per page of both inventory tables. */
  const ItemsPerPage: nat := 10
}
