/** The administrator list (`components/admin-management.tsx`): search, paging, add/edit/delete through
    dialogs, the summary cards, and the "recent login" card that sorts the list in place. */
module AdminManagement {
  import opened Util
  import opened Text
  import opened Sorting

  /** `role`: 관리자 | 슈퍼관리자 | 일반 사용자. */
  datatype Role = Manager | SuperAdmin | Member

  /** `status`: 활성 | 비활성. */
  datatype Status = Active | Inactive

  datatype Admin = Admin(
    id: string,
    name: string,
    email: string,
    role: Role,
    department: string,
    status: Status,
    lastLogin: string,
    avatar: Option<string>)

  /** `formData`. The dialogs always set the role and the status, so only the text fields can be
      empty. */
  datatype AdminForm = AdminForm(name: string, email: string, role: Role, department: string, status: Status)

  /** `itemsPerPage`. */
  const ItemsPerPage: nat := 5

  const Avatar: string := "/placeholder.svg?height=40&width=40"

  /** The `lastLogin` text of an account that has not logged in yet. */
  const NeverLoggedIn: string := "아직 로그인하지 않음"

  /** The form after `resetForm()`. */
  const EmptyForm: AdminForm := AdminForm("", "", Member, "", Active)

  /** The eight sample administrators. */
  const InitialAdmins: seq<Admin> := [
    Admin("ADM001", "김관리", "admin1@example.com", SuperAdmin, "IT 부서", Active, "2025-05-10 14:30", Some(Avatar)),
    Admin("ADM002", "이사용", "admin2@example.com", Manager, "인사 부서", Active, "2025-05-09 11:15", Some(Avatar)),
    Admin("ADM003", "박일반", "user1@example.com", Member, "영업 부서", Active, "2025-05-08 09:45", Some(Avatar)),
    Admin("ADM004", "최비활", "inactive@example.com", Member, "마케팅 부서", Inactive, "2025-04-30 16:20", Some(Avatar)),
    Admin("ADM005", "정보안", "security@example.com", Manager, "보안 부서", Active, "2025-05-11 10:45", Some(Avatar)),
    Admin("ADM006", "한개발", "developer@example.com", Member, "개발 부서", Active, "2025-05-10 09:30", Some(Avatar)),
    Admin("ADM007", "송디자인", "designer@example.com", Member, "디자인 부서", Active, "2025-05-09 14:20", Some(Avatar)),
    Admin("ADM008", "강마케팅", "marketing@example.com", Member, "마케팅 부서", Inactive, "2025-05-01 11:10", Some(Avatar))
  ]

  // ---------------------------------------------------------------- search and paging

  /** The search box matches the name, the e-mail or the department, ignoring case. */
  predicate AdminMatches(a: Admin, term: string)
  {
    Matches(a.name, term) || Matches(a.email, term) || Matches(a.department, term)
  }

  function MatchesTerm(term: string): Admin -> bool
  {
    (a: Admin) => AdminMatches(a, term)
  }

  /** `filteredAdmins`. */
  function FilteredAdmins(admins: seq<Admin>, term: string): seq<Admin>
  {
    Filter(admins, MatchesTerm(term))
  }

  /** An administrator is listed exactly when the term occurs in one of the three fields, and the
      empty term lists everybody in the original order. */
  lemma FilteredAdminsIff(admins: seq<Admin>, term: string, a: Admin)
    ensures a in FilteredAdmins(admins, term) <==> a in admins && AdminMatches(a, term)
    ensures FilteredAdmins(admins, "") == admins
  {
    FilterMembers(admins, MatchesTerm(term), a);
    forall i | 0 <= i < |admins| ensures MatchesTerm("")(admins[i]) {
      EmptyTermMatches(admins[i].name);
    }
    FilterAll(admins, MatchesTerm(""));
  }

  /** `currentItems`: the rows of the filtered list on `page`. */
  function CurrentItems(admins: seq<Admin>, term: string, page: int): seq<Admin>
  {
    PageRows(FilteredAdmins(admins, term), page, ItemsPerPage)
  }

  /** `totalPages`. */
  function AdminPages(admins: seq<Admin>, term: string): nat
  {
    TotalPages(|FilteredAdmins(admins, term)|, ItemsPerPage)
  }

  // ---------------------------------------------------------------- records built by the handlers

  /** `ADM` followed by the number padded to three digits. */
  function AdminId(n: nat): string
  {
    "ADM" + PadStart(NatToString(n), 3, '0')
  }

  /** The record `handleAddAdmin` appends when the list has `count` entries: its id comes from the
      length of the list, and it has never logged in. */
  function NewAdmin(form: AdminForm, count: nat): (a: Admin)
    ensures a.id == AdminId(count + 1) && a.lastLogin == NeverLoggedIn
    ensures a.name == form.name && a.email == form.email && a.department == form.department
    ensures a.role == form.role && a.status == form.status
  {
    Admin(AdminId(count + 1), form.name, form.email, form.role, form.department, form.status,
          NeverLoggedIn, Some(Avatar))
  }

  /** `value || fallback` on strings. */
  function OrElse(value: string, fallback: string): string
  {
    if value != "" then value else fallback
  }

  /** The record as `handleEditAdmin` rewrites it. */
  function Edited(a: Admin, form: AdminForm): Admin
  {
    a.(name := OrElse(form.name, a.name), email := OrElse(form.email, a.email), role := form.role,
       department := OrElse(form.department, a.department), status := form.status)
  }

  function EditWhere(id: string, form: AdminForm): Admin -> Admin
  {
    (a: Admin) => if a.id == id then Edited(a, form) else a
  }

  /** `admins.map(...)` in `handleEditAdmin`. */
  function EditAdmins(admins: seq<Admin>, id: string, form: AdminForm): seq<Admin>
  {
    Map(admins, EditWhere(id, form))
  }

  /** An edit with a complete form changes the five editable fields of exactly the records with the
      selected id; ids, login times, avatars, the other records and the length are unchanged. */
  lemma EditChangesOnlySelected(admins: seq<Admin>, id: string, form: AdminForm, i: nat)
    requires form.name != "" && form.email != "" && form.department != ""
    requires i < |admins|
    ensures |EditAdmins(admins, id, form)| == |admins|
    ensures var b := EditAdmins(admins, id, form)[i];
      b.id == admins[i].id && b.lastLogin == admins[i].lastLogin && b.avatar == admins[i].avatar &&
      (admins[i].id == id ==> b.name == form.name && b.email == form.email && b.role == form.role &&
                              b.department == form.department && b.status == form.status) &&
      (admins[i].id != id ==> b == admins[i])
  {
  }

  function IdIsNot(id: string): Admin -> bool
  {
    (a: Admin) => a.id != id
  }

  /** `admins.filter((admin) => admin.id !== selectedAdmin.id)`. */
  function WithoutId(admins: seq<Admin>, id: string): seq<Admin>
  {
    Filter(admins, IdIsNot(id))
  }

  /** Deleting keeps exactly the records with another id, in their order. */
  lemma WithoutIdIff(admins: seq<Admin>, id: string, a: Admin)
    ensures a in WithoutId(admins, id) <==> a in admins && a.id != id
    ensures (forall k :: 0 <= k < |admins| ==> admins[k].id != id) ==> WithoutId(admins, id) == admins
  {
    FilterMembers(admins, IdIsNot(id), a);
    FilterAll(admins, IdIsNot(id));
  }

  /** Removing the one record with a given id leaves the others in order. */
  lemma WithoutUniqueId(admins: seq<Admin>, i: nat)
    requires i < |admins|
    requires forall j, k :: 0 <= j < k < |admins| ==> admins[j].id != admins[k].id
    ensures WithoutId(admins, admins[i].id) == admins[..i] + admins[i + 1..]
  {
    forall j | 0 <= j < |admins| && j != i ensures IdIsNot(admins[i].id)(admins[j]) {
      if j < i {
        assert admins[j].id != admins[i].id;
      } else {
        assert admins[i].id != admins[j].id;
      }
    }
    FilterDropsOne(admins, i, IdIsNot(admins[i].id));
  }

  /** The id of a new record depends only on the length of the list. When the ids were handed out
      in order, deleting any record but the last and then adding one produces a second copy of the
      last record's id. */
  lemma IdCollisionAfterDelete(admins: seq<Admin>, i: nat, form: AdminForm)
    requires i < |admins| - 1
    requires forall j, k :: 0 <= j < k < |admins| ==> admins[j].id != admins[k].id
    requires admins[|admins| - 1].id == AdminId(|admins|)
    ensures var after := WithoutId(admins, admins[i].id);
      |after| == |admins| - 1 && NewAdmin(form, |after|).id == after[|after| - 1].id
  {
    WithoutUniqueId(admins, i);
  }

  /** The sample ids are distinct and were handed out in order: deleting ADM002 and then adding an
      administrator produces a second ADM008. */
  lemma SampleIdsInOrder()
    ensures forall j, k :: 0 <= j < k < |InitialAdmins| ==> InitialAdmins[j].id != InitialAdmins[k].id
    ensures InitialAdmins[|InitialAdmins| - 1].id == AdminId(|InitialAdmins|) == "ADM008"
  {
    assert NatToString(8) == "8";
    assert PadStart("8", 3, '0') == "008";
  }

  // ---------------------------------------------------------------- summary cards

  predicate IsActive(a: Admin) { a.status == Active }
  predicate IsInactive(a: Admin) { a.status == Inactive }
  predicate IsSuperAdmin(a: Admin) { a.role == SuperAdmin }

  /** The active and inactive counts of the first card add up to the total. */
  lemma {:induction false} StatusCountsAddUp(admins: seq<Admin>)
    ensures Count(admins, IsActive) + Count(admins, IsInactive) == |admins|
  {
    if admins != [] {
      StatusCountsAddUp(admins[1..]);
    }
  }

  /** The comparator of the recent-login card, `new Date(b.lastLogin).getTime() -
      new Date(a.lastLogin).getTime()`. The parsing of the login text is given as `loginTime`;
      `None` stands for the invalid date (NaN) that a text such as "아직 로그인하지 않음" gives. A
      difference involving NaN is NaN, which `sort` reads as 0. */
  function NewestFirst(loginTime: string -> Option<int>): (Admin, Admin) -> int
  {
    (a: Admin, b: Admin) =>
      var ta, tb := loginTime(a.lastLogin), loginTime(b.lastLogin);
      if ta.Some? && tb.Some? then tb.value - ta.value else 0
  }

  /** Every login text of the list parses to a date. */
  ghost predicate AllParse(admins: seq<Admin>, loginTime: string -> Option<int>)
  {
    forall a :: a in admins ==> loginTime(a.lastLogin).Some?
  }

  /** Sorting on the negated login time puts the latest login first. */
  function LoginKey(loginTime: string -> Option<int>): Admin -> int
  {
    (a: Admin) => if loginTime(a.lastLogin).Some? then -loginTime(a.lastLogin).value else 0
  }

  /** One unparsable login next to two different parsable ones makes the comparator inconsistent:
      it ties with both, yet they are ordered. `sort` then has no well-defined result. */
  lemma UnparsedLoginInconsistent(loginTime: string -> Option<int>, early: Admin, never: Admin, late: Admin)
    requires loginTime(never.lastLogin).None?
    requires loginTime(early.lastLogin).Some? && loginTime(late.lastLogin).Some?
    requires loginTime(early.lastLogin).value < loginTime(late.lastLogin).value
    ensures !Consistent(NewestFirst(loginTime))
  {
    var cmp := NewestFirst(loginTime);
    assert cmp(early, never) <= 0 && cmp(never, late) <= 0 && cmp(early, late) > 0;
  }

  /** When every login parses, the card's comparator orders the list as the login-time key does. */
  lemma ParsedSortByKey(admins: seq<Admin>, loginTime: string -> Option<int>)
    requires AllParse(admins, loginTime)
    ensures StableSort(admins, NewestFirst(loginTime)) == StableSort(admins, ByKey(LoginKey(loginTime)))
  {
    SortAgrees(admins, NewestFirst(loginTime), ByKey(LoginKey(loginTime)));
  }

  /** When every login parses, the recent-login card's sort puts a record with the latest login
      first. */
  lemma NewestFirstOnTop(admins: seq<Admin>, loginTime: string -> Option<int>)
    requires |admins| > 0 && AllParse(admins, loginTime)
    ensures var sorted := StableSort(admins, NewestFirst(loginTime));
      sorted[0] in admins && loginTime(sorted[0].lastLogin).Some? &&
      forall k :: 0 <= k < |admins| ==> loginTime(admins[k].lastLogin).value <= loginTime(sorted[0].lastLogin).value
  {
    var key := LoginKey(loginTime);
    ParsedSortByKey(admins, loginTime);
    ByKeyConsistent(key);
    SortedHeadFirst(admins, ByKey(key));
    var top := StableSort(admins, ByKey(key))[0];
    forall k | 0 <= k < |admins|
      ensures loginTime(admins[k].lastLogin).value <= loginTime(top.lastLogin).value
    {
      assert ByKey(key)(top, admins[k]) <= 0;
    }
  }

  /** When every login parses, sorting a second time changes nothing. */
  lemma ParsedSortTwice(admins: seq<Admin>, loginTime: string -> Option<int>)
    requires AllParse(admins, loginTime)
    ensures var cmp := NewestFirst(loginTime);
      StableSort(StableSort(admins, cmp), cmp) == StableSort(admins, cmp)
  {
    var cmp := NewestFirst(loginTime);
    var key := LoginKey(loginTime);
    var sorted := StableSort(admins, cmp);
    ParsedSortByKey(admins, loginTime);
    forall a | a in sorted ensures loginTime(a.lastLogin).Some? {
      assert a in multiset(sorted);
      assert a in admins;
    }
    ParsedSortByKey(sorted, loginTime);
    ByKeyConsistent(key);
    SortIdempotent(admins, ByKey(key));
  }

  // ---------------------------------------------------------------- the component's state

  class AdminPage {
    var searchTerm: string
    var isAddDialogOpen: bool
    var isEditDialogOpen: bool
    var isDeleteDialogOpen: bool
    var selectedAdmin: Option<Admin>
    var currentPage: int
    var formData: AdminForm
    var admins: seq<Admin>

    constructor ()
      ensures searchTerm == "" && !isAddDialogOpen && !isEditDialogOpen && !isDeleteDialogOpen
      ensures selectedAdmin == None && currentPage == 1 && formData == EmptyForm
      ensures admins == InitialAdmins
    {
      searchTerm := "";
      isAddDialogOpen, isEditDialogOpen, isDeleteDialogOpen := false, false, false;
      selectedAdmin := None;
      currentPage := 1;
      formData := EmptyForm;
      admins := InitialAdmins;
    }

    /** The rows on screen. */
    function Rows(): seq<Admin>
      reads this
    {
      CurrentItems(admins, searchTerm, currentPage)
    }

    /** Typing in the search box; the page is not reset. */
    method SetSearchTerm(term: string)
      modifies this`searchTerm
      ensures searchTerm == term
    {
      searchTerm := term;
    }

    /** `handlePageChange`: the requested page is stored as it is, without clamping. */
    method HandlePageChange(page: int)
      modifies this`currentPage
      ensures currentPage == page
    {
      currentPage := page;
    }

    /** `resetForm()`. */
    method ResetForm()
      modifies this`formData
      ensures formData == EmptyForm
    {
      formData := EmptyForm;
    }

    /** `handleAddAdmin()`: with an empty name, e-mail or department nothing changes (an alert is
        shown); otherwise one record is appended, the dialog closes and the form is cleared. */
    method HandleAddAdmin() returns (added: bool)
      modifies this`admins, this`isAddDialogOpen, this`formData
      ensures added <==> old(formData).name != "" && old(formData).email != "" && old(formData).department != ""
      ensures !added ==> admins == old(admins) && formData == old(formData) && isAddDialogOpen == old(isAddDialogOpen)
      ensures added ==> admins == old(admins) + [NewAdmin(old(formData), |old(admins)|)]
      ensures added ==> !isAddDialogOpen && formData == EmptyForm
    {
      if formData.name == "" || formData.email == "" || formData.department == "" {
        added := false;
        return;
      }
      var newAdmin := NewAdmin(formData, |admins|);
      admins := admins + [newAdmin];
      isAddDialogOpen := false;
      ResetForm();
      added := true;
    }

    /** `openEditDialog(admin)`: selects the record and copies its fields into the form. */
    method OpenEditDialog(a: Admin)
      modifies this`selectedAdmin, this`formData, this`isEditDialogOpen
      ensures selectedAdmin == Some(a) && isEditDialogOpen
      ensures formData == AdminForm(a.name, a.email, a.role, a.department, a.status)
    {
      selectedAdmin := Some(a);
      formData := AdminForm(a.name, a.email, a.role, a.department, a.status);
      isEditDialogOpen := true;
    }

    /** `handleEditAdmin()`: with no selection or an incomplete form nothing changes; otherwise the
        selected id's records are rewritten, the dialog closes, the selection is cleared and the form
        is reset. */
    method HandleEditAdmin() returns (edited: bool)
      modifies this`admins, this`isEditDialogOpen, this`selectedAdmin, this`formData
      ensures edited <==> old(selectedAdmin).Some? && old(formData).name != "" && old(formData).email != "" &&
                          old(formData).department != ""
      ensures !edited ==> admins == old(admins) && selectedAdmin == old(selectedAdmin) && formData == old(formData)
      ensures !edited ==> isEditDialogOpen == old(isEditDialogOpen)
      ensures edited ==> admins == EditAdmins(old(admins), old(selectedAdmin).value.id, old(formData))
      ensures edited ==> !isEditDialogOpen && selectedAdmin == None && formData == EmptyForm
    {
      if selectedAdmin.None? || formData.name == "" || formData.email == "" || formData.department == "" {
        edited := false;
        return;
      }
      admins := EditAdmins(admins, selectedAdmin.value.id, formData);
      isEditDialogOpen := false;
      selectedAdmin := None;
      ResetForm();
      edited := true;
    }

    /** `openDeleteDialog(admin)`: only records the target and opens the confirmation. */
    method OpenDeleteDialog(a: Admin)
      modifies this`selectedAdmin, this`isDeleteDialogOpen
      ensures selectedAdmin == Some(a) && isDeleteDialogOpen
    {
      selectedAdmin := Some(a);
      isDeleteDialogOpen := true;
    }

    /** The confirmation's Cancel button only closes the dialog. */
    method CancelDelete()
      modifies this`isDeleteDialogOpen
      ensures !isDeleteDialogOpen
    {
      isDeleteDialogOpen := false;
    }

    /** `handleDeleteAdmin()`: with no target nothing happens; otherwise the records with the target's
        id are removed, the dialog closes and the selection is cleared. The page is not clamped. */
    method HandleDeleteAdmin()
      modifies this`admins, this`isDeleteDialogOpen, this`selectedAdmin
      ensures old(selectedAdmin).None? ==> admins == old(admins) && isDeleteDialogOpen == old(isDeleteDialogOpen)
      ensures old(selectedAdmin).Some? ==> admins == WithoutId(old(admins), old(selectedAdmin).value.id)
      ensures old(selectedAdmin).Some? ==> !isDeleteDialogOpen
      ensures selectedAdmin == None
    {
      if selectedAdmin.None? {
        return;
      }
      admins := WithoutId(admins, selectedAdmin.value.id);
      isDeleteDialogOpen := false;
      selectedAdmin := None;
    }

    /** Rendering the recent-login card: `admins.sort(...)` runs twice, in place; the name comes
        from the first sort's first record and the login from the second's ("없음" and "" for an
        empty list). Only when every login parses is the comparator consistent: then both sorts
        agree and the card shows the latest login. */
    method RecentLoginCard(loginTime: string -> Option<int>) returns (name: string, login: string)
      modifies this`admins
      ensures var cmp := NewestFirst(loginTime);
        admins == StableSort(StableSort(old(admins), cmp), cmp)
      ensures multiset(admins) == multiset(old(admins))
      ensures old(admins) == [] ==> name == "없음" && login == ""
      ensures old(admins) != [] ==>
        name == StableSort(old(admins), NewestFirst(loginTime))[0].name && login == admins[0].lastLogin
      ensures AllParse(old(admins), loginTime) ==> admins == StableSort(old(admins), NewestFirst(loginTime))
      ensures AllParse(old(admins), loginTime) && old(admins) != [] ==>
        name == admins[0].name && loginTime(login).Some? &&
        forall k :: 0 <= k < |old(admins)| ==> loginTime(old(admins)[k].lastLogin).value <= loginTime(login).value
    {
      var cmp := NewestFirst(loginTime);
      if |admins| == 0 {
        name, login := "없음", "";
        return;
      }
      admins := StableSort(admins, cmp);
      name := admins[0].name;
      admins := StableSort(admins, cmp);
      login := admins[0].lastLogin;
      if AllParse(old(admins), loginTime) {
        NewestFirstOnTop(old(admins), loginTime);
        ParsedSortTwice(old(admins), loginTime);
      }
    }
  }
}
