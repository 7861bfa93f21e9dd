/** The stock movement dialog (`components/inventory/inventory-modal.tsx`): its fields start from the
    record being edited, and a searchable picker chooses the project. */
module InventoryModal {
  import opened Util
  import opened Text

  datatype PickerProject = PickerProject(id: string, name: string)

  /** `type`: incoming | outgoing. */
  datatype Movement = Incoming | Outgoing

  /** `initialData`. */
  datatype InitialData = InitialData(name: string, kind: Movement, projectId: string, quantity: int)

  /** `projects`: the 120 projects of the picker. */
  function PickerProjects(): (r: seq<PickerProject>)
    ensures |r| == 120
    ensures forall i :: 0 <= i < 120 ==>
      r[i] == PickerProject("PRJ-" + NatToString(1000 + i), "프로젝트 " + NatToString(i + 1))
  {
    seq(120, i requires 0 <= i < 120 => PickerProject("PRJ-" + NatToString(1000 + i), "프로젝트 " + NatToString(i + 1)))
  }

  /** The picker's search matches the name or the id, ignoring case. */
  predicate PickerMatches(p: PickerProject, term: string)
  {
    Matches(p.name, term) || Matches(p.id, term)
  }

  function MatchesTerm(term: string): PickerProject -> bool
  {
    (p: PickerProject) => PickerMatches(p, term)
  }

  /** `filteredProjects`. */
  function FilteredProjects(projects: seq<PickerProject>, term: string): seq<PickerProject>
  {
    Filter(projects, MatchesTerm(term))
  }

  /** A project is offered exactly when the term occurs in its name or id; the empty term offers all
      120 in order. */
  lemma FilteredProjectsIff(projects: seq<PickerProject>, term: string, p: PickerProject)
    ensures p in FilteredProjects(projects, term) <==> p in projects && PickerMatches(p, term)
    ensures FilteredProjects(projects, "") == projects
    ensures |FilteredProjects(PickerProjects(), "")| == 120
  {
    FilterMembers(projects, MatchesTerm(term), p);
    EmptyTermOffersAll(projects);
    EmptyTermOffersAll(PickerProjects());
  }

  lemma EmptyTermOffersAll(projects: seq<PickerProject>)
    ensures FilteredProjects(projects, "") == projects
  {
    forall i | 0 <= i < |projects| ensures MatchesTerm("")(projects[i]) {
      EmptyTermMatches(projects[i].name);
    }
    FilterAll(projects, MatchesTerm(""));
  }

  /** `projects.find((project) => project.id === projectId)`: the first project with that id. */
  function Find(projects: seq<PickerProject>, id: string): (r: Option<PickerProject>)
    ensures r.None? <==> forall k :: 0 <= k < |projects| ==> projects[k].id != id
    ensures r.Some? ==> r.value.id == id && r.value in projects
  {
    FindFirst(projects, (p: PickerProject) => p.id == id)
  }

  /** The picker's button text: the chosen project's name, or "프로젝트 선택" when nothing is chosen;
      an id that no project has shows nothing. */
  function PickerLabel(projects: seq<PickerProject>, projectId: string): Option<string>
  {
    if projectId == "" then Some("프로젝트 선택")
    else
      var found := Find(projects, projectId);
      if found.Some? then Some(found.value.name) else None
  }

  /** With distinct ids, the button shows the name of the one project with the chosen id. */
  lemma LabelNamesChosen(projects: seq<PickerProject>, k: nat)
    requires k < |projects| && projects[k].id != ""
    requires forall i, j :: 0 <= i < j < |projects| ==> projects[i].id != projects[j].id
    ensures PickerLabel(projects, projects[k].id) == Some(projects[k].name)
  {
    var found := Find(projects, projects[k].id);
    var m :| 0 <= m < |projects| && projects[m] == found.value;
    assert m == k;
  }

  class Modal {
    var name: string
    var kind: Movement
    var projectId: string
    var quantity: string
    var open: bool
    var searchTerm: string

    /** The fields start from `initialData`, and are empty (movement "incoming") without it. */
    constructor (initialData: Option<InitialData>)
      ensures initialData.None? ==> name == "" && kind == Incoming && projectId == "" && quantity == ""
      ensures initialData.Some? ==>
        (name == initialData.value.name && kind == initialData.value.kind &&
         projectId == initialData.value.projectId && quantity == IntToString(initialData.value.quantity))
      ensures !open && searchTerm == ""
    {
      if initialData.Some? {
        name := initialData.value.name;
        kind := initialData.value.kind;
        projectId := initialData.value.projectId;
        quantity := IntToString(initialData.value.quantity);
      } else {
        name, kind, projectId, quantity := "", Incoming, "", "";
      }
      open := false;
      searchTerm := "";
    }

    /** `onSelect(currentValue)`: choosing the chosen project again clears the choice, any other one
        becomes the choice; the popover closes either way. */
    method Select(currentValue: string)
      modifies this`projectId, this`open
      ensures projectId == if currentValue == old(projectId) then "" else currentValue
      ensures !open
    {
      projectId := if currentValue == projectId then "" else currentValue;
      open := false;
    }
  }

  /** Selecting the same project twice from no choice returns to no choice. */
  method SelectTwice(m: Modal, id: string)
    requires m.projectId == "" && id != ""
    modifies m
    ensures m.projectId == "" && !m.open
  {
    m.Select(id);
    assert m.projectId == id;
    m.Select(id);
  }
}
