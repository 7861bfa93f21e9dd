/** The print-material inventory screen (`components/inventory/print-materials.tsx`): thirty sample
    materials, the stock chart with its own material select, the category checkboxes, a name search
    and ten rows per page. */
module PrintMaterials {
  import opened Util
  import opened Text
  import opened InventoryControls

  datatype Material = Material(id: string, name: string, stock: int, stockCC: int, color: string)

  /** One bar of the chart: `{ name, cc }`. */
  datatype ChartPoint = ChartPoint(name: string, cc: int)

  function MaterialName(m: Material): string { m.name }

  /** `printMaterialsData`; the random stock levels and colours are given as functions of the
      position. */
  function PrintMaterialsData(stock: nat -> int, stockCC: nat -> int, color: nat -> string): (r: seq<Material>)
    ensures |r| == 30
    ensures forall i :: 0 <= i < 30 ==>
      r[i] == Material("MAT-" + NatToString(1000 + i), "3D 프린트 소재 " + NatToString(i + 1), stock(i), stockCC(i), color(i))
  {
    seq(30, i requires 0 <= i < 30 =>
      Material("MAT-" + NatToString(1000 + i), "3D 프린트 소재 " + NatToString(i + 1), stock(i), stockCC(i), color(i)))
  }

  /** The chart select value that shows every material. */
  const AllMaterials: string := "all"

  function ToPoint(m: Material): ChartPoint
  {
    ChartPoint(m.name, m.stockCC)
  }

  /** `material.name.includes(filter)`, case-sensitive. */
  function NameIncludes(filter: string): Material -> bool
  {
    (m: Material) => Includes(m.name, filter)
  }

  /** `generateChartData(materials, filter)`. */
  function GenerateChartData(materials: seq<Material>, filter: string): seq<ChartPoint>
  {
    if filter == AllMaterials then Map(materials, ToPoint)
    else Map(Filter(materials, NameIncludes(filter)), ToPoint)
  }

  /** With "all" the chart has one bar per material, in order, carrying its name and its stock in cc. */
  lemma ChartAll(materials: seq<Material>)
    ensures var r := GenerateChartData(materials, AllMaterials);
      |r| == |materials| &&
      forall i :: 0 <= i < |r| ==> r[i].name == materials[i].name && r[i].cc == materials[i].stockCC
  {
  }

  /** With any other value the chart has a bar for exactly the materials whose name contains the
      value, compared with case, and as many bars as there are such materials. */
  lemma ChartFiltered(materials: seq<Material>, filter: string, m: Material)
    requires filter != AllMaterials
    ensures ToPoint(m) in GenerateChartData(materials, filter) <==>
      exists k :: 0 <= k < |materials| && ToPoint(materials[k]) == ToPoint(m) && Includes(materials[k].name, filter)
    ensures |GenerateChartData(materials, filter)| == Count(materials, NameIncludes(filter))
  {
    var kept := Filter(materials, NameIncludes(filter));
    var r := GenerateChartData(materials, filter);
    CountIsFilterLength(materials, NameIncludes(filter));
    if ToPoint(m) in r {
      var j :| 0 <= j < |r| && r[j] == ToPoint(m);
      FilterMembers(materials, NameIncludes(filter), kept[j]);
      var k :| 0 <= k < |materials| && materials[k] == kept[j];
    }
    if exists k :: 0 <= k < |materials| && ToPoint(materials[k]) == ToPoint(m) && Includes(materials[k].name, filter) {
      var k :| 0 <= k < |materials| && ToPoint(materials[k]) == ToPoint(m) && Includes(materials[k].name, filter);
      FilterMembers(materials, NameIncludes(filter), materials[k]);
      var j :| 0 <= j < |kept| && kept[j] == materials[k];
      assert r[j] == ToPoint(m);
    }
  }

  /** `filteredData`, `currentItems` and `totalPages`. */
  function FilteredData(materials: seq<Material>, term: string, searchType: string): seq<Material>
  {
    NameSearch(materials, MaterialName, term, searchType)
  }

  function CurrentItems(materials: seq<Material>, term: string, searchType: string, page: int): seq<Material>
  {
    PageRows(FilteredData(materials, term, searchType), page, ItemsPerPage)
  }

  function MaterialPages(materials: seq<Material>, term: string, searchType: string): nat
  {
    TotalPages(|FilteredData(materials, term, searchType)|, ItemsPerPage)
  }

  /** A page holds at most ten rows, and every listed material appears on the page its position gives. */
  lemma TenPerPage(materials: seq<Material>, term: string, searchType: string, page: int, i: nat)
    requires page >= 1
    ensures |CurrentItems(materials, term, searchType, page)| <= ItemsPerPage
    ensures var f := FilteredData(materials, term, searchType);
      i < |f| ==> 1 <= i / 10 + 1 <= MaterialPages(materials, term, searchType) &&
                  CurrentItems(materials, term, searchType, i / 10 + 1)[i % 10] == f[i]
  {
    var f := FilteredData(materials, term, searchType);
    PageRowsWindow(f, page, ItemsPerPage);
    if i < |f| {
      var p := RowOnItsPage(f, ItemsPerPage, i);
    }
  }

  class MaterialsPage {
    var searchTerm: string
    var searchType: string
    var currentPage: int
    var chartFilter: string
    const categories: CategoryBox
    const materials: seq<Material>

    constructor (stock: nat -> int, stockCC: nat -> int, color: nat -> string)
      ensures searchTerm == "" && searchType == "all" && currentPage == 1 && chartFilter == AllMaterials
      ensures fresh(categories) && categories.searchCategory == [AllCategories]
      ensures materials == PrintMaterialsData(stock, stockCC, color)
    {
      searchTerm, searchType := "", "all";
      currentPage := 1;
      chartFilter := AllMaterials;
      categories := new CategoryBox();
      materials := PrintMaterialsData(stock, stockCC, color);
    }

    function Rows(): seq<Material>
      reads this
    {
      CurrentItems(materials, searchTerm, searchType, currentPage)
    }

    /** `chartData`: computed from the whole list, whatever the table search. */
    function ChartData(): seq<ChartPoint>
      reads this
    {
      GenerateChartData(materials, chartFilter)
    }

    /** The table search leaves the chart alone. */
    method SetSearch(term: string, kind: string)
      modifies this`searchTerm, this`searchType
      ensures searchTerm == term && searchType == kind && currentPage == old(currentPage)
      ensures ChartData() == old(ChartData())
    {
      searchTerm, searchType := term, kind;
    }

    /** The chart select leaves the table alone. */
    method SetChartFilter(filter: string)
      modifies this`chartFilter
      ensures chartFilter == filter && Rows() == old(Rows())
    {
      chartFilter := filter;
    }

    method ClickCategory(value: string)
      modifies categories
      ensures categories.searchCategory == CheckboxChange(old(categories.searchCategory), value)
      ensures Rows() == old(Rows()) && ChartData() == old(ChartData())
    {
      categories.HandleCheckboxChange(value);
    }

    method SetCurrentPage(page: int)
      modifies this`currentPage
      ensures currentPage == page
    {
      currentPage := page;
    }
  }
}
