/** The dashboard (`components/dashboard-overview.tsx`): two tables over constant data, each with a
    status select and its own three-row pager, and summary cards that count statuses. */
module DashboardOverview {
  import opened Util

  datatype ProjectRow = ProjectRow(
    id: string,
    client: string,
    name: string,
    assignee: string,
    status: string,
    progress: int,
    startDate: string,
    endDate: string)

  datatype PrinterRow = PrinterRow(
    id: string,
    name: string,
    model: string,
    usage: string,
    waitingJobs: int,
    remainingMaterial: string,
    status: string)

  /** The select value that keeps every row. */
  const All: string := "전체"
  const InProgress: string := "진행중"
  const Waiting: string := "대기중"

  /** `itemsPerPage`, shared by both tables. */
  const ItemsPerPage: nat := 3

  const ProjectsData: seq<ProjectRow> := [
    ProjectRow("1", "ABC 기업", "웹사이트 리뉴얼 프로젝트", "김철수", "진행중", 75, "2025-05-01", "2025-05-15"),
    ProjectRow("2", "XYZ 회사", "모바일 앱 개발", "박영희", "진행중", 40, "2025-05-08", "2025-05-30"),
    ProjectRow("3", "123 기관", "3D 프린팅 시제품 제작", "이지훈", "완료", 100, "2025-05-02", "2025-05-03"),
    ProjectRow("4", "DEF 기업", "신규 장비 도입", "최민지", "진행중", 20, "2025-05-12", "2025-05-25"),
    ProjectRow("5", "GHI 회사", "제품 디자인 개선", "정수민", "진행중", 60, "2025-05-05", "2025-05-20"),
    ProjectRow("6", "JKL 기업", "마케팅 자료 제작", "김영수", "완료", 100, "2025-05-01", "2025-05-10")
  ]

  const PrintersData: seq<PrinterRow> := [
    PrinterRow("1", "프린터 A", "Ultimaker S5", "250cc", 3, "75%", "진행중"),
    PrinterRow("2", "프린터 B", "Prusa i3 MK3S+", "120cc", 1, "45%", "대기중"),
    PrinterRow("3", "프린터 C", "Formlabs Form 3", "180cc", 0, "90%", "대기중"),
    PrinterRow("4", "프린터 D", "Creality Ender 3", "300cc", 2, "30%", "진행중"),
    PrinterRow("5", "프린터 E", "Anycubic Photon", "220cc", 1, "60%", "대기중"),
    PrinterRow("6", "프린터 F", "Zortrax M200", "150cc", 0, "85%", "진행중")
  ]

  /** The filter callback of both tables: "전체" keeps the row, any other value keeps the rows with
      exactly that status. */
  function StatusIs<T>(status: T -> string, filter: string): T -> bool
  {
    (x: T) => filter == All || status(x) == filter
  }

  function StatusFilter<T>(rows: seq<T>, status: T -> string, filter: string): seq<T>
  {
    Filter(rows, StatusIs(status, filter))
  }

  /** "전체" keeps every row in order; any other value keeps exactly the rows with that status. */
  lemma StatusFilterIff<T>(rows: seq<T>, status: T -> string, filter: string, x: T)
    ensures StatusFilter(rows, status, All) == rows
    ensures filter != All ==> (x in StatusFilter(rows, status, filter) <==> x in rows && status(x) == filter)
  {
    FilterAll(rows, StatusIs(status, All));
    FilterMembers(rows, StatusIs(status, filter), x);
  }

  function ProjectStatus(p: ProjectRow): string { p.status }
  function PrinterStatus(p: PrinterRow): string { p.status }

  /** `filteredProjects` and `filteredPrinters`. */
  function FilteredProjects(filter: string): seq<ProjectRow>
  {
    StatusFilter(ProjectsData, ProjectStatus, filter)
  }

  function FilteredPrinters(filter: string): seq<PrinterRow>
  {
    StatusFilter(PrintersData, PrinterStatus, filter)
  }

  /** `rows.slice((page - 1) * 3, (page - 1) * 3 + 3)`. */
  function Paginated<T>(rows: seq<T>, page: int): seq<T>
  {
    JsSlice(rows, (page - 1) * ItemsPerPage, (page - 1) * ItemsPerPage + ItemsPerPage)
  }

  /** Both tables cut the same three-row window as the other tables of the application, at most three
      rows, and their page count is `Math.ceil(n / 3)`. */
  lemma PaginatedWindow<T>(rows: seq<T>, page: int)
    requires page >= 1
    ensures Paginated(rows, page) == PageRows(rows, page, ItemsPerPage)
    ensures |Paginated(rows, page)| <= ItemsPerPage
    ensures |rows| > 0 ==> 1 <= TotalPages(|rows|, ItemsPerPage) && Paginated(rows, 1) == rows[..if |rows| < 3 then |rows| else 3]
  {
    assert (page - 1) * ItemsPerPage == page * ItemsPerPage - ItemsPerPage;
    PageRowsWindow(rows, page, ItemsPerPage);
    PageRowsWindow(rows, 1, ItemsPerPage);
  }

  predicate ProjectActive(p: ProjectRow) { p.status == InProgress }
  predicate PrinterActive(p: PrinterRow) { p.status == InProgress }
  predicate PrinterWaiting(p: PrinterRow) { p.status == Waiting }

  /** The summary cards count the unfiltered data: four projects in progress, three printers
      printing and three waiting, whatever the selects show. */
  lemma SummaryCounts()
    ensures Count(ProjectsData, ProjectActive) == 4
    ensures Count(PrintersData, PrinterActive) == 3
    ensures Count(PrintersData, PrinterWaiting) == 3
  {
    var p, q := ProjectsData, PrintersData;
    assert p[1..][1..][1..][1..][1..][1..] == [];
    assert q[1..][1..][1..][1..][1..][1..] == [];
  }

  predicate ProjectDone(p: ProjectRow) { p.status == "완료" }

  /** Two of the sample projects are finished, so the 완료 filter lists two rows. */
  lemma FinishedProjects()
    ensures |FilteredProjects("완료")| == 2
  {
    var p := ProjectsData;
    assert p[1..][1..][1..][1..][1..][1..] == [];
    assert Count(ProjectsData, ProjectDone) == 2;
    assert "완료" != All;
    forall i | 0 <= i < |p| ensures ProjectDone(p[i]) == StatusIs(ProjectStatus, "완료")(p[i]) {
      assert StatusIs(ProjectStatus, "완료")(p[i]) == ("완료" == All || ProjectStatus(p[i]) == "완료");
    }
    CountSameTest(ProjectsData, ProjectDone, StatusIs(ProjectStatus, "완료"));
    CountIsFilterLength(ProjectsData, StatusIs(ProjectStatus, "완료"));
  }

  class Overview {
    var projectFilter: string
    var printerFilter: string
    var projectPage: int
    var printerPage: int

    constructor ()
      ensures projectFilter == All && printerFilter == All && projectPage == 1 && printerPage == 1
    {
      projectFilter, printerFilter := All, All;
      projectPage, printerPage := 1, 1;
    }

    function ProjectRows(): seq<ProjectRow>
      reads this
    {
      Paginated(FilteredProjects(projectFilter), projectPage)
    }

    function PrinterRows(): seq<PrinterRow>
      reads this
    {
      Paginated(FilteredPrinters(printerFilter), printerPage)
    }

    /** The project select: its page is kept, the printer table is untouched. */
    method SetProjectFilter(filter: string)
      modifies this`projectFilter
      ensures projectFilter == filter && PrinterRows() == old(PrinterRows())
    {
      projectFilter := filter;
    }

    method SetPrinterFilter(filter: string)
      modifies this`printerFilter
      ensures printerFilter == filter && ProjectRows() == old(ProjectRows())
    {
      printerFilter := filter;
    }

    /** The project pager: the printer table is untouched. */
    method SetProjectPage(page: int)
      modifies this`projectPage
      ensures projectPage == page && PrinterRows() == old(PrinterRows())
    {
      projectPage := page;
    }

    method SetPrinterPage(page: int)
      modifies this`printerPage
      ensures printerPage == page && ProjectRows() == old(ProjectRows())
    {
      printerPage := page;
    }
  }

  /** Choosing 완료 on the project select while on page 2 leaves page 2 in place; the two finished
      projects fit on page 1, so the table shows nothing. */
  method FilterKeepsStalePage() returns (o: Overview)
    ensures o.projectPage == 2 && o.projectFilter == "완료" && o.ProjectRows() == []
  {
    o := new Overview();
    o.SetProjectPage(2);
    o.SetProjectFilter("완료");
    assert o.ProjectRows() == Paginated(FilteredProjects("완료"), 2);
    FinishedSecondPageEmpty();
  }

  lemma FinishedSecondPageEmpty()
    ensures Paginated(FilteredProjects("완료"), 2) == []
  {
    var rows := FilteredProjects("완료");
    FinishedProjects();
    assert JsIndex(3, |rows|) == |rows|;
  }
}
