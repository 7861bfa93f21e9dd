/** The project list (`components/projects-table.tsx`): a column-header sort that toggles between
    ascending and descending, a sorted copy of the list, deletion by id and a five-row page. */
module ProjectsTable {
  import opened Util
  import opened Sorting
  import opened ProjectTypes

  /** `SortField`. */
  datatype SortField = ById | ByClient | ByType | ByStartDate | ByEndDate | ByStatus

  /** `SortDirection`. */
  datatype SortDirection = Asc | Desc

  /** `itemsPerPage`. */
  const ItemsPerPage: nat := 5

  /** `statusOrder`: the rank a status sorts by. */
  function StatusRank(s: ProjectStatus): int
  {
    match s
    case Waiting => 1
    case InDesign => 2
    case InProduction => 3
    case InFinalReview => 4
    case Done => 5
  }

  /** Status ranks run 1..5 in the order 대기 < 진행중 - 설계 < 진행중 - 제작 < 진행중 - 최종 검토 < 완료,
      so two statuses share a rank only when they are the same. */
  lemma StatusRankOrder(s: ProjectStatus, t: ProjectStatus)
    ensures 1 <= StatusRank(s) <= 5
    ensures StatusRank(s) == StatusRank(t) ==> s == t
    ensures StatusRank(Waiting) < StatusRank(InDesign) < StatusRank(InProduction) <
            StatusRank(InFinalReview) < StatusRank(Done)
  {
  }

  /** `direction`: 1 ascending, -1 descending. */
  function Direction(d: SortDirection): int
  {
    if d == Asc then 1 else -1
  }

  /** The comparison of the chosen column before the direction is applied; `collate` stands for
      `String.prototype.localeCompare`. */
  function FieldCompare(field: SortField, collate: (string, string) -> int, a: Project, b: Project): int
  {
    match field
    case ById => a.id - b.id
    case ByClient => collate(a.client, b.client)
    case ByType => collate(TypeLabel(a.kind), TypeLabel(b.kind))
    case ByStartDate => a.startDate - b.startDate
    case ByEndDate => a.endDate - b.endDate
    case ByStatus => StatusRank(a.status) - StatusRank(b.status)
  }

  /** The comparator handed to `sort`: the column comparison times the direction. */
  function ProjectCompare(field: SortField, dir: SortDirection, collate: (string, string) -> int): (Project, Project) -> int
  {
    (a: Project, b: Project) => FieldCompare(field, collate, a, b) * Direction(dir)
  }

  /** `sortedProjects`: a sorted copy; the state list itself is left in its order. */
  function SortedProjects(projects: seq<Project>, field: SortField, dir: SortDirection,
                          collate: (string, string) -> int): seq<Project>
  {
    StableSort(projects, ProjectCompare(field, dir, collate))
  }

  /** With a consistent `localeCompare`, the table's comparator is consistent in both directions. */
  lemma ProjectCompareConsistent(field: SortField, dir: SortDirection, collate: (string, string) -> int)
    requires Consistent(collate)
    ensures Consistent(ProjectCompare(field, dir, collate))
  {
    var cmp := ProjectCompare(field, dir, collate);
    forall a, b ensures cmp(a, b) < 0 <==> cmp(b, a) > 0 {
      FieldFlip(field, collate, a, b);
    }
    forall a, b, c | cmp(a, b) <= 0 && cmp(b, c) <= 0 ensures cmp(a, c) <= 0 {
      if dir == Asc {
        FieldTrans(field, collate, a, b, c);
      } else {
        FieldTrans(field, collate, c, b, a);
        FieldFlip(field, collate, a, c);
      }
    }
  }

  lemma FieldFlip(field: SortField, collate: (string, string) -> int, a: Project, b: Project)
    requires Consistent(collate)
    ensures FieldCompare(field, collate, a, b) < 0 <==> FieldCompare(field, collate, b, a) > 0
    ensures FieldCompare(field, collate, a, b) > 0 <==> FieldCompare(field, collate, b, a) < 0
  {
  }

  lemma FieldTrans(field: SortField, collate: (string, string) -> int, a: Project, b: Project, c: Project)
    requires Consistent(collate)
    requires FieldCompare(field, collate, a, b) <= 0 && FieldCompare(field, collate, b, c) <= 0
    ensures FieldCompare(field, collate, a, c) <= 0
  {
    if field == ByClient {
      var x := collate(a.client, c.client);
    } else if field == ByType {
      var x := collate(TypeLabel(a.kind), TypeLabel(c.kind));
    }
  }

  /** The sorted copy is a permutation of the list, and under `asc` the chosen column never decreases
      from one row to a later one, under `desc` it never increases. */
  lemma SortedProjectsOrdered(projects: seq<Project>, field: SortField, dir: SortDirection,
                              collate: (string, string) -> int)
    requires Consistent(collate)
    ensures multiset(SortedProjects(projects, field, dir, collate)) == multiset(projects)
    ensures var r := SortedProjects(projects, field, dir, collate);
      forall i, j :: 0 <= i < j < |r| ==>
        if dir == Asc then FieldCompare(field, collate, r[i], r[j]) <= 0
        else FieldCompare(field, collate, r[i], r[j]) >= 0
  {
    var cmp := ProjectCompare(field, dir, collate);
    ProjectCompareConsistent(field, dir, collate);
    SortSorted(projects, cmp);
  }

  /** The sort is stable in both directions: the rows that tie with any row `e` on the chosen column
      appear in the sorted copy in their original relative order. */
  lemma SortedProjectsStable(projects: seq<Project>, field: SortField, dir: SortDirection,
                             collate: (string, string) -> int, e: Project)
    requires Consistent(collate)
    ensures var cmp := ProjectCompare(field, dir, collate);
      Filter(SortedProjects(projects, field, dir, collate), Ties(cmp, e)) == Filter(projects, Ties(cmp, e))
  {
    ProjectCompareConsistent(field, dir, collate);
    SortStable(projects, ProjectCompare(field, dir, collate), e);
  }

  /** Two rows tie under the table's comparator exactly when the column compares them as equal, in
      either direction. */
  lemma TiesIgnoreDirection(field: SortField, dir: SortDirection, collate: (string, string) -> int, e: Project, y: Project)
    ensures Ties(ProjectCompare(field, dir, collate), e)(y) <==> FieldCompare(field, collate, e, y) == 0
  {
  }

  /** The header click: the current column flips its direction; another column becomes the sort
      column, ascending. */
  function NextSort(field: SortField, dir: SortDirection, clicked: SortField): (SortField, SortDirection)
  {
    if field == clicked then (field, if dir == Asc then Desc else Asc) else (clicked, Asc)
  }

  /** Clicking the current column twice restores its direction; clicking a new column twice leaves it
      descending. */
  lemma SortTwice(field: SortField, dir: SortDirection, clicked: SortField)
    ensures var (f1, d1) := NextSort(field, dir, clicked);
      NextSort(f1, d1, clicked) == if field == clicked then (field, dir) else (clicked, Desc)
  {
  }

  function IdIsNot(id: int): Project -> bool
  {
    (p: Project) => p.id != id
  }

  /** `deleteProject(id)`. */
  function DeleteProject(projects: seq<Project>, id: int): seq<Project>
  {
    Filter(projects, IdIsNot(id))
  }

  /** Deleting removes exactly the projects with that id. */
  lemma DeleteProjectIff(projects: seq<Project>, id: int, p: Project)
    ensures p in DeleteProject(projects, id) <==> p in projects && p.id != id
  {
    FilterMembers(projects, IdIsNot(id), p);
  }

  class ProjectsPage {
    var projects: seq<Project>
    var sortField: SortField
    var sortDirection: SortDirection
    var currentPage: int

    /** The table starts with the sample projects, sorted by id ascending, on page 1. */
    constructor (sample: seq<Project>)
      ensures projects == sample && sortField == ById && sortDirection == Asc && currentPage == 1
    {
      projects := sample;
      sortField, sortDirection := ById, Asc;
      currentPage := 1;
    }

    /** `handleSort(field)`. */
    method HandleSort(field: SortField)
      modifies this`sortField, this`sortDirection
      ensures (sortField, sortDirection) == NextSort(old(sortField), old(sortDirection), field)
    {
      if sortField == field {
        sortDirection := if sortDirection == Asc then Desc else Asc;
      } else {
        sortField := field;
        sortDirection := Asc;
      }
    }

    /** `deleteProject(id)`; the page is not clamped. */
    method Delete(id: int)
      modifies this`projects
      ensures projects == DeleteProject(old(projects), id)
    {
      projects := DeleteProject(projects, id);
    }

    /** `handlePageChange`. */
    method HandlePageChange(page: int)
      modifies this`currentPage
      ensures currentPage == page
    {
      currentPage := page;
    }

    /** `currentItems`: five rows of the sorted copy. */
    function CurrentItems(collate: (string, string) -> int): seq<Project>
      reads this
    {
      PageRows(SortedProjects(projects, sortField, sortDirection, collate), currentPage, ItemsPerPage)
    }

    /** `totalPages`. */
    function PageCount(): nat
      reads this
    {
      TotalPages(|projects|, ItemsPerPage)
    }
  }
}
