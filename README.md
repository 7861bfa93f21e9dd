# ERP dashboard core in Dafny

A model of the in-memory behaviour of a mock-data ERP dashboard, written as React components in
TypeScript. The dashboard keeps projects, administrators, 3D printers and their print jobs, products,
inventory and calendar events in component state. There is no server: every handler edits the
state of a component, and every table is derived from that state by filtering, sorting and slicing.

What is modelled, one Dafny module per source file:

- **Project lifecycle.** The four stages 설계 → 제작 → 최종 검토 → 완료. The progress bar's enabled
  buttons, percentage and highlighted steps. The detail page's stage change and its panel dispatch.
- **Pagination.** The page-number row with its ellipses, and the previous and next buttons.
- **List controllers.** Search, status and category filters. The sortable project table. Fixed-size
  pages. Add, edit and delete for administrators, devices, products, quality documents and
  attachments.
- **Dialog state machines.** Notification read flags. Upload slots with fresh ids. Parallel file and
  preview lists. The selected-file fallback of the print request. Calendar events.
- **Simulation ticks.** The print-job progress tick and the remaining-time text. The sliding
  10-sample metric windows and the system-status thresholds. The per-date device-usage totals and
  their chart scale.

How the source is represented:

- Each `useState` slot is a field of a class, and each handler is a method that modifies only the
  fields the handler sets. A setter called several times in one handler ends with the last value.
- Each derived value (`filter`, `slice`, `Math.ceil`, counts) is a function over sequences. Module
  `Util` holds the JavaScript array operations, including `slice` and `splice` with negative
  positions.
- Sorting is `Array.prototype.sort` with a comparator, modelled as a stable insertion sort
  (module `Sorting`).
- Case-insensitive search lowers ASCII letters only (module `Text`). `localeCompare` is a comparator
  parameter, required to be consistent.
- Dates are integers: millisecond timestamps, or `yyyymmdd` day keys where the source builds dates
  from year, month and day.
- `new Date()`, `Math.random()` and `URL.createObjectURL` are parameters of the methods that use them.

## Model

| member | source | states |
|---|---|---|
| ProgressBar.StageIndex | components/project-progress-bar.tsx:13-14 | the position of a stage is in 0..3 and is -1 without a stage |
| ProgressBar.Index | components/project-progress-bar.tsx:13 | the four stages sit at distinct positions 0..3 in the order 설계, 제작, 최종 검토, 완료 |
| ProgressBar.EnabledIffAdjacent | components/project-progress-bar.tsx:17-30 | a target is enabled from a stage exactly when their positions differ by one |
| ProgressBar.EnabledSymmetric | components/project-progress-bar.tsx:17-30 | enablement is symmetric, never includes the current stage, and is empty without a stage |
| ProgressBar.Progress | components/project-progress-bar.tsx:35 | the percentage is (index + 1) * 25, so 0 without a stage |
| ProgressBar.ProgressStrictlyIncreasing | components/project-progress-bar.tsx:35 | the stages show 25, 50, 75 and 100 percent, strictly increasing along the order |
| ProgressBar.HighlightedSteps | components/project-progress-bar.tsx:51-56 | step i is highlighted exactly when i is at most the current index |
| ProgressBar.HighlightCount | components/project-progress-bar.tsx:55-56 | exactly index + 1 steps are highlighted, and they are the first ones |
| ProgressBar.ClickableIffNear | components/project-progress-bar.tsx:74 | a button is clickable exactly when it is the current stage or one step from it |
| ProjectDetail.PanelsDistinct | components/project-detail.tsx:30-43 | each stage renders its own panel, distinct from the others, and no stage renders the fallback message |
| ProjectDetail.DetailPage.constructor | components/project-detail.tsx:16-17 | the page starts with the given project |
| ProjectDetail.DetailPage.HandleStageChange | components/project-detail.tsx:26-28 | the stage becomes the new stage, with no adjacency check, and every other field of the project is kept |
| ProjectDetail.DetailPage.ClickStageButton | components/project-detail.tsx:47 | the click takes effect exactly when the button is not disabled; then only the stage changes, to the target, and otherwise nothing changes |
| ProjectDetail.DetailPage.Shown | components/project-detail.tsx:30-43 | the fallback message is on screen exactly when the project has no stage |
| ProjectDetail.ClickMovesAtMostOneStep | components/project-detail.tsx:26-47 | through the buttons a stage moves at most one position in the order |
| ProjectDetail.WalkForward | components/project-detail.tsx:26-47 | walking forward one click at a time shows 25, 50, 75 and 100 percent and ends on 완료 |
| Pagination.Buttons | components/ui/pagination.tsx:111-121 | the buttons for pages lo..hi, in order, highlighting only the current page |
| Pagination.PushButtons | components/ui/pagination.tsx:149-159 | the push loop appends exactly the buttons lo..hi to the row |
| Pagination.PageRow | components/ui/pagination.tsx:105-183 | the row renderPageNumbers builds, as one expression: every page up to five pages, else page 1, the optional leading ellipsis, startPage..endPage, the optional trailing ellipsis and the last page (stated by SmallRowIsEveryPage, LargeRowEnds, EllipsesIff, RowShort, RowAscending, CurrentPageShown) |
| Pagination.RenderPageNumbers | components/ui/pagination.tsx:105-183 | the loop-built row equals the windowed row: every page up to five pages, else 1, optional ellipsis, the middle run, optional ellipsis, the last page |
| Pagination.SmallRowIsEveryPage | components/ui/pagination.tsx:109-121 | with at most five pages the row is exactly the buttons 1..totalPages, with no ellipsis |
| Pagination.LargeRowEnds | components/ui/pagination.tsx:125-179 | with more than five pages the row starts with page 1 and ends with the last page, and the middle run lies strictly between them |
| Pagination.EllipsesIff | components/ui/pagination.tsx:140-169 | the leading ellipsis appears exactly when startPage > 2, the trailing one exactly when endPage < totalPages - 1 |
| Pagination.RowShort | components/ui/pagination.tsx:107-179 | a row holds at most five page numbers and at most two ellipses |
| Pagination.EndsCount | components/ui/pagination.tsx:125-179 | the lead and the trail each hold one page number and at most one ellipsis |
| Pagination.RowAscending | components/ui/pagination.tsx:105-183 | the page numbers of every row are strictly increasing, so none repeats |
| Pagination.CurrentPageShown | components/ui/pagination.tsx:115-174 | when 1 <= current <= totalPages the current page's button is in the row, highlighted |
| Pagination.StepsStayInRange | components/ui/pagination.tsx:189-199 | on a valid page, an enabled previous or next button requests the neighbouring page, which is again valid |
| Pagination.EmptyListNext | components/ui/pagination.tsx:198-199 | with totalPages = 0 on page 1 the next button is enabled and requests page 0 |
| Util.PageRowsWindow | components/admin-management.tsx:143-145 | page p shows the rows from (p - 1) * size up to p * size, cut at the end of the list, never more than size rows |
| Util.TotalPages | components/admin-management.tsx:148 | Math.ceil(n / size): the fewest pages of size rows that hold n rows |
| Util.RowOnItsPage | components/admin-management.tsx:143-148 | every row appears on exactly one page between 1 and the page count, at the expected position |
| Util.PastLastPageEmpty | components/admin-management.tsx:151-153 | a page past the last one shows no rows; the handlers never clamp the page |
| Util.RangeLabelMatchesRows | components/admin-management.tsx:392-393 | on an existing page the "first-last of n" label counts exactly the rows shown |
| Util.MaxWith | components/material-detail-dialog.tsx:143 | Math.max(...values, floor) is at least floor and every value, and is floor or one of the values |
| Util.FindFirst | components/device-usage-graph.tsx:79 | find gives nothing exactly when no element passes the test, and otherwise a listed element that passes it |
| Util.FindFirstIsFirst | components/device-usage-graph.tsx:79 | find returns the first element that passes the test |
| Util.JsRemoveAt | components/design-stage-content.tsx:44-45 | splice(i, 1) on a copy removes the element at i read as JavaScript reads it, and nothing when i is out of range |
| Text.IncludesIff | components/admin-management.tsx:137-139 | includes holds exactly when the needle occurs at some position of the text |
| Text.NatToStringRoundTrip | components/admin-management.tsx:162 | String(n) is the decimal notation of n: reading its digits back gives n |
| Text.PadStart | components/admin-management.tsx:162 | padStart(width, fill) puts the fill in front up to the width and keeps the string at its end |
| AdminManagement.FilteredAdmins | components/admin-management.tsx:135-140 | the search filter over name, e-mail and department (stated by FilteredAdminsIff) |
| AdminManagement.FilteredAdminsIff | components/admin-management.tsx:135-140 | an administrator is listed exactly when the lowered term occurs in the lowered name, e-mail or department; the empty term keeps everyone, in order |
| AdminManagement.AdminId | components/admin-management.tsx:162 | "ADM" followed by the number padded to three digits with zeros (stated by SampleIdsInOrder and IdCollisionAfterDelete) |
| AdminManagement.NewAdmin | components/admin-management.tsx:161-170 | the new record has id "ADM" + the count + 1 padded to three digits, the form's fields, and "아직 로그인하지 않음" as last login |
| AdminManagement.EditChangesOnlySelected | components/admin-management.tsx:183-195 | an edit changes the five editable fields of exactly the records with the selected id; ids, last logins, other records and the length stay |
| AdminManagement.WithoutIdIff | components/admin-management.tsx:206 | deleting keeps exactly the records with another id, in their order |
| AdminManagement.WithoutUniqueId | components/admin-management.tsx:206 | removing the one record with an id leaves the list without just that record |
| AdminManagement.IdCollisionAfterDelete | components/admin-management.tsx:162-206 | when ids are distinct and the last one is the id of its position, deleting any other record and then adding gives the new record the id of the last remaining record |
| AdminManagement.SampleIdsInOrder | components/admin-management.tsx:52-133 | the eight sample ids are distinct and the last is ADM008, the id of position 8, so the collision above happens on the sample list (delete ADM002, add: a second ADM008) (see also lines 162) |
| AdminManagement.StatusCountsAddUp | components/admin-management.tsx:274-277 | the active and inactive counts of the first card add up to the number of administrators |
| AdminManagement.NewestFirst | components/admin-management.tsx:299 | the card's comparator: the difference of the two parsed login times, or 0 (NaN) when either login text does not parse |
| AdminManagement.UnparsedLoginInconsistent | components/admin-management.tsx:299 | one login that does not parse, beside two parsable logins at different times, makes the comparator inconsistent: it ties with both, yet they are ordered |
| AdminManagement.ParsedSortByKey | components/admin-management.tsx:299 | when every login parses, the card's sort gives the order of the newest-first key |
| AdminManagement.NewestFirstOnTop | components/admin-management.tsx:299-304 | when every login parses, the card's sort puts a record with the latest login first, and that record is one of the list's |
| AdminManagement.ParsedSortTwice | components/admin-management.tsx:299-304 | when every login parses, the second in-place sort leaves the first sort's order |
| AdminManagement.AdminPage.constructor | components/admin-management.tsx:35-50 | the page starts with the eight samples, an empty search, page 1, closed dialogs and the empty form |
| AdminManagement.AdminPage.SetSearchTerm | components/admin-management.tsx:320 | typing sets the term and changes no other field, so the page stays as it was |
| AdminManagement.AdminPage.HandlePageChange | components/admin-management.tsx:151-153 | the requested page is stored without clamping |
| AdminManagement.AdminPage.ResetForm | components/admin-management.tsx:229-237 | the form returns to the empty form |
| AdminManagement.AdminPage.HandleAddAdmin | components/admin-management.tsx:155-175 | an empty name, e-mail or department changes nothing; otherwise exactly the new record is appended, the dialog closes and the form is reset; the selection, the page, the search and the other dialogs are not touched |
| AdminManagement.AdminPage.OpenEditDialog | components/admin-management.tsx:212-222 | the record is selected, its fields are copied into the form and the edit dialog opens; nothing else changes |
| AdminManagement.AdminPage.HandleEditAdmin | components/admin-management.tsx:177-201 | with no selection or an incomplete form nothing changes; otherwise the list is the edited list, the edit dialog closes, the selection is cleared and the form is reset; the other dialogs, the page and the search are not touched |
| AdminManagement.AdminPage.OpenDeleteDialog | components/admin-management.tsx:224-227 | only the target is recorded and the confirmation opens; no other field changes |
| AdminManagement.AdminPage.CancelDelete | components/admin-management.tsx:588 | Cancel only closes the confirmation; the list and the recorded target are not touched |
| AdminManagement.AdminPage.HandleDeleteAdmin | components/admin-management.tsx:203-210 | with no target nothing happens; otherwise the records with the target's id go, the others keep their order, the confirmation closes and the selection is cleared; the form, the page, the search and the other dialogs are not touched |
| AdminManagement.AdminPage.RecentLoginCard | components/admin-management.tsx:298-305 | the list is sorted twice in place and stays a permutation of the old list; the name comes from the first sort and the login from the second, or 없음 for an empty list; when every login parses both sorts agree, the list is newest first and the login shown is the latest |
| Sorting.StableSort | components/projects-table.tsx:169 | the sorted list has the input's length and is a permutation of it |
| Sorting.SortSorted | components/projects-table.tsx:169-188 | with a consistent comparator the result is ordered by it |
| Sorting.SortStable | components/projects-table.tsx:169-188 | the elements tied with any element keep their original relative order |
| Sorting.SortAgrees | components/admin-management.tsx:299-304 | the sorted order depends only on how the comparator compares the list's own elements |
| Sorting.SortIdempotent | components/admin-management.tsx:299-304 | sorting a sorted list changes nothing, so the card's second sort leaves the first sort's order |
| Sorting.ReversedConsistent | components/projects-table.tsx:170 | multiplying a consistent comparator by -1 keeps it consistent and swaps every comparison |
| ProjectsTable.StatusRankOrder | components/projects-table.tsx:160-166 | the status ranks are 1..5, in the order 대기 < 진행중 - 설계 < 진행중 - 제작 < 진행중 - 최종 검토 < 완료 |
| ProjectsTable.ProjectCompareConsistent | components/projects-table.tsx:169-188 | with a consistent localeCompare the table's comparator is consistent in both directions |
| ProjectsTable.SortedProjects | components/projects-table.tsx:168-189 | the sorted copy of the projects under the chosen column and direction (stated by SortedProjectsOrdered and SortedProjectsStable) |
| ProjectsTable.SortedProjectsOrdered | components/projects-table.tsx:168-189 | the sorted copy is a permutation of the list; under asc the chosen column never decreases and under desc it never increases |
| ProjectsTable.SortedProjectsStable | components/projects-table.tsx:168-189 | rows that tie on the chosen column keep their original order in both directions |
| ProjectsTable.TiesIgnoreDirection | components/projects-table.tsx:170-187 | two rows tie under the comparator exactly when the column compares them as equal, in either direction |
| ProjectsTable.NextSort | components/projects-table.tsx:150-157 | the column and direction after a header click (stated by SortTwice) |
| ProjectsTable.SortTwice | components/projects-table.tsx:150-157 | clicking the current column flips its direction and a new column starts ascending; two clicks on one column restore its direction |
| ProjectsTable.DeleteProjectIff | components/projects-table.tsx:146-148 | deleting removes exactly the projects with that id and keeps the others in order |
| ProjectsTable.ProjectsPage.constructor | components/projects-table.tsx:140-143 | the table starts with the sample projects, sorted by id ascending, on page 1 |
| ProjectsTable.ProjectsPage.HandleSort | components/projects-table.tsx:150-157 | the header click gives the next field and direction of the sort rule |
| ProjectsTable.ProjectsPage.Delete | components/projects-table.tsx:146-148 | the list becomes the list without that id; the page is not clamped |
| ProjectsTable.ProjectsPage.HandlePageChange | components/projects-table.tsx:200-202 | the requested page is stored as it is |
| DeviceStatusTable.FilteredDevicesIff | components/device-status-table.tsx:45-49 | a device is listed exactly when the lowered term occurs in its lowered name or id; the empty term lists every device, in order |
| DeviceStatusTable.PageHoldsThree | components/device-status-table.tsx:43-57 | a page shows at most three rows, and the i-th listed device is row i mod 3 of page i / 3 + 1, which is within the page count |
| DeviceStatusTable.StalePageEmpty | components/device-status-table.tsx:42-57 | the search does not reset the page, so a page past the new page count shows no rows |
| DeviceStatusTable.WithoutIdIff | components/device-status-table.tsx:71 | deleting keeps exactly the devices with another id, in their order |
| DeviceStatusTable.AppendedDuplicateDeletedTogether | components/device-status-table.tsx:71 | deleting by id also removes a device appended later with the same id |
| DeviceStatusTable.StatusTable.constructor | components/device-status-table.tsx:36-43 | the table starts on the shared list with an empty search, page 1 and no delete target |
| DeviceStatusTable.StatusTable.SetSearchTerm | components/device-status-table.tsx:37-42 | typing sets the term and keeps the page |
| DeviceStatusTable.StatusTable.HandlePageChange | components/device-status-table.tsx:60-62 | the requested page is stored as it is |
| DeviceStatusTable.StatusTable.HandleDelete | components/device-status-table.tsx:64-67 | only the target is recorded and the confirmation opens; the devices are unchanged |
| DeviceStatusTable.StatusTable.ConfirmDelete | components/device-status-table.tsx:69-75 | with no target nothing changes; with one, every device with its id goes, the others keep their order, the dialog closes and the target is cleared |
| DeviceStatusTable.StatusTable.CancelDelete | components/device-status-table.tsx:261 | Cancel only closes the dialog; the devices and the recorded target stay |
| DeviceStatusTable.DeleteThenCancelOrConfirm | components/device-status-table.tsx:64-75 | asking to delete and cancelling leaves the devices and keeps the target; confirming removes exactly that id and clears the target (see also lines 261) |
| DeviceAddForm.DeviceImage | components/device-add-form.tsx:57 | the image is the preview URL when there is a non-empty one, else the placeholder |
| DeviceAddForm.NewDeviceFields | components/device-add-form.tsx:54-62 | the new device has the entered id and name, status 대기, usage 0, no waiting jobs and 1000 of material, with no check of the id against other devices |
| DeviceAddForm.AddForm.constructor | components/device-add-form.tsx:17-21 | the form starts empty, without an image or preview, not submitting |
| DeviceAddForm.AddForm.SetFields | components/device-add-form.tsx:17-18 | typing sets the name and the id |
| DeviceAddForm.AddForm.HandleImageChange | components/device-add-form.tsx:23-35 | the first chosen file becomes the image; an empty choice changes nothing |
| DeviceAddForm.AddForm.PreviewLoaded | components/device-add-form.tsx:30-32 | the file reader's result becomes the preview |
| DeviceAddForm.AddForm.ClearImage | components/device-add-form.tsx:37-40 | the image and the preview are cleared; the text fields are kept |
| DeviceAddForm.AddForm.Reset | components/device-add-form.tsx:161-166 | the reset button clears the name, the id, the image and the preview, and submits nothing |
| DeviceAddForm.AddForm.HandleSubmit | components/device-add-form.tsx:42-80 | without a name or an id nothing is passed on and every field stays; otherwise exactly the new device is passed on, the fields are cleared and submitting ends false |
| DeviceManagement.InitialDevicesDistinct | components/device-management.tsx:13-50 | the sample fleet has four devices with the distinct ids DEV001..DEV004 |
| DeviceManagement.ManagementPage.constructor | components/device-management.tsx:12-50 | the page starts with the four samples in the shared list the status table uses, and a fresh, empty add form (see also lines 76) |
| DeviceManagement.ManagementPage.HandleAddDevice | components/device-management.tsx:52-55 | exactly one device is appended after the others and the add dialog closes |
| DeviceManagement.ManagementPage.SubmitAddForm | components/device-management.tsx:52-84 | a device is added exactly when the form has a name and an id; then the list grows by the form's new device and the dialog closes, otherwise the list and the dialog stay |
| DeviceManagement.DuplicateIdAccepted | components/device-management.tsx:52-76 | a device with an id already listed is accepted, and a later delete by that id removes both |
| ProductsTable.DeleteProductIff | components/products-table.tsx:120-122 | deleting keeps exactly the products with another id |
| ProductsTable.DeleteUniqueProduct | components/products-table.tsx:120-122 | deleting the one product with an id removes just it, keeping the others in order |
| ProductsTable.LabelCountsRows | components/products-table.tsx:125-130 | on an existing page the label starts at first + 1, totals the list, and counts exactly the rows shown (see also lines 220-222) |
| ProductsTable.DeleteLastRowLeavesStalePage | components/products-table.tsx:120-135 | deleting the only row of the last page drops the page count by one and leaves the current page empty |
| ProductsTable.ProductsPage.constructor | components/products-table.tsx:116-117 | the table starts with the catalogue on page 1 |
| ProductsTable.ProductsPage.Delete | components/products-table.tsx:120-122 | the list becomes the list without that id; the page is kept |
| ProductsTable.ProductsPage.HandlePageChange | components/products-table.tsx:133-135 | the requested page is stored as it is |
| DashboardOverview.StatusFilterIff | components/dashboard-overview.tsx:191-200 | "전체" keeps every row in order; any other value keeps exactly the rows with that status |
| DashboardOverview.PaginatedWindow | components/dashboard-overview.tsx:188-211 | each table cuts the same window as the other tables: at most three rows, and page 1 of a non-empty list shows its first three rows |
| DashboardOverview.SummaryCounts | components/dashboard-overview.tsx:214-216 | the summary cards count the unfiltered data: four projects in progress, three printers in progress, three waiting |
| DashboardOverview.FinishedProjects | components/dashboard-overview.tsx:191-194 | the 완료 filter lists the two finished sample projects |
| DashboardOverview.Overview.constructor | components/dashboard-overview.tsx:184-187 | both filters start at "전체" and both tables on page 1 |
| DashboardOverview.Overview.SetProjectFilter | components/dashboard-overview.tsx:278 | the project select sets its filter, keeps its page and leaves the printer rows as they were |
| DashboardOverview.Overview.SetPrinterFilter | components/dashboard-overview.tsx:359 | the printer select sets its filter, keeps its page and leaves the project rows as they were |
| DashboardOverview.Overview.SetProjectPage | components/dashboard-overview.tsx:348 | the project pager sets its page and leaves the printer rows as they were |
| DashboardOverview.Overview.SetPrinterPage | components/dashboard-overview.tsx:418 | the printer pager sets its page and leaves the project rows as they were |
| DashboardOverview.FilterKeepsStalePage | components/dashboard-overview.tsx:184-194 | choosing 완료 while on page 2 keeps page 2, which then shows no rows (see also lines 203-205, 278) |
| DashboardOverview.FinishedSecondPageEmpty | components/dashboard-overview.tsx:188-194 | page 2 of the 완료 list is empty |
| InventoryControls.CheckboxChange | components/inventory/general-inventory.tsx:36-52 | the list the handler's setter calls leave, the last call winning: "all" resets, no other category ticked before the click resets, a ticked category is removed, an unticked one is appended (stated by ClickAllResets and ClickToggles) |
| InventoryControls.ClickAllResets | components/inventory/general-inventory.tsx:37-38 | clicking "all" always selects just "all" |
| InventoryControls.ClickToggles | components/inventory/general-inventory.tsx:40-45 | when some category other than "all" was selected, a click toggles that value within the list with "all" removed and keeps every other value |
| InventoryControls.StuckAtAll | components/inventory/general-inventory.tsx:36-52 | from ["all"] every click leaves ["all"]: the reset tests the list before the toggle and is the last assignment |
| InventoryControls.NeverLeavesAll | components/inventory/general-inventory.tsx:26-52 | the checkboxes start at ["all"] and no series of clicks changes that |
| InventoryControls.IntendedLeavesAll | components/inventory/general-inventory.tsx:36-52 | with the reset testing the list after the toggle, a click on a category leaves ["all"] for just that category, and unclicking it returns to ["all"] |
| InventoryControls.IntendedToggles | components/inventory/general-inventory.tsx:36-52 | the intended handler either returns to ["all"] or toggles the clicked value, keeps every other value and drops "all" |
| InventoryControls.CategoryBox.constructor | components/inventory/general-inventory.tsx:26 | the categories start as ["all"] |
| InventoryControls.CategoryBox.HandleCheckboxChange | components/inventory/general-inventory.tsx:36-52 | the setter calls run in order and the last one wins, giving the as-written category list |
| InventoryControls.NameSearchIff | components/inventory/general-inventory.tsx:55-60 | a row is dropped exactly when the term is non-empty, the search type is "name" and the lowered name lacks the lowered term; otherwise the list is kept whole, in order |
| GeneralInventory.InventoryData | components/inventory/general-inventory.tsx:17-21 | thirty items with ids INV-1000.. and names "일반 재고 품목 1".., in order |
| GeneralInventory.UnfilteredPages | components/inventory/general-inventory.tsx:29-66 | without a name search the thirty items fill exactly three pages of ten, and page 1 shows the first ten |
| GeneralInventory.InventoryPage.constructor | components/inventory/general-inventory.tsx:24-28 | the screen starts with an empty search of type "all", page 1 and ["all"] |
| GeneralInventory.InventoryPage.ClickCategory | components/inventory/general-inventory.tsx:36-60 | a checkbox click changes only the categories, and the rows stay the same since the table does not read them |
| GeneralInventory.InventoryPage.SetSearch | components/inventory/general-inventory.tsx:24-25 | the search sets the term and the type and keeps the page |
| GeneralInventory.InventoryPage.SetCurrentPage | components/inventory/general-inventory.tsx:28 | the requested page is stored as it is |
| PrintMaterials.PrintMaterialsData | components/inventory/print-materials.tsx:18-26 | thirty materials with ids MAT-1000.. and names "3D 프린트 소재 1".., in order |
| PrintMaterials.GenerateChartData | components/inventory/print-materials.tsx:29-43 | the chart bars: every material with "all", otherwise the materials whose name includes the filter (stated by ChartAll and the lemmas after it) |
| PrintMaterials.ChartAll | components/inventory/print-materials.tsx:30-34 | with "all" the chart has one bar per material, in order, with its name and stock in cc |
| PrintMaterials.ChartFiltered | components/inventory/print-materials.tsx:35-42 | otherwise the chart has a bar exactly for the materials whose name contains the value, case-sensitively, one bar for each |
| PrintMaterials.TenPerPage | components/inventory/print-materials.tsx:52-89 | a page holds at most ten rows, and the i-th listed material is row i mod 10 of page i / 10 + 1 |
| PrintMaterials.MaterialsPage.constructor | components/inventory/print-materials.tsx:46-51 | the screen starts with an empty search of type "all", page 1, chart filter "all" and ["all"] |
| PrintMaterials.MaterialsPage.SetSearch | components/inventory/print-materials.tsx:78-92 | the table search keeps the page and leaves the chart unchanged, since the chart reads the whole list |
| PrintMaterials.MaterialsPage.SetChartFilter | components/inventory/print-materials.tsx:51-92 | the chart select leaves the table rows unchanged |
| PrintMaterials.MaterialsPage.ClickCategory | components/inventory/print-materials.tsx:59-75 | a checkbox click changes only the categories, with the same stuck-at-["all"] rule; rows and chart stay |
| PrintMaterials.MaterialsPage.SetCurrentPage | components/inventory/print-materials.tsx:50 | the requested page is stored as it is |
| InventoryModal.PickerProjects | components/inventory/inventory-modal.tsx:17-20 | the picker holds 120 projects with ids PRJ-1000.. and names "프로젝트 1".., in order |
| InventoryModal.FilteredProjectsIff | components/inventory/inventory-modal.tsx:42-46 | a project is offered exactly when the lowered term occurs in its lowered name or id; the empty term offers all 120, in order |
| InventoryModal.Find | components/inventory/inventory-modal.tsx:93 | find gives nothing exactly when no project has the id, and otherwise a listed project with that id |
| InventoryModal.LabelNamesChosen | components/inventory/inventory-modal.tsx:93 | with distinct ids the button shows the name of the project with the chosen id |
| InventoryModal.Modal.constructor | components/inventory/inventory-modal.tsx:34-39 | the fields come from initialData, and are "", "incoming", "", "" without it; the popover is closed |
| InventoryModal.Modal.Select | components/inventory/inventory-modal.tsx:107-110 | choosing the chosen project again clears the choice, any other sets it; the popover closes either way |
| InventoryModal.SelectTwice | components/inventory/inventory-modal.tsx:107-110 | selecting the same project twice from no choice ends with no choice and a closed popover |
| Notifications.MarkAsRead | components/notifications.tsx:55-57 | the list with read set on the entries of that id (stated by MarkAsReadOnlyThatId, MarkAsReadIdempotent, MarkAsReadCount) |
| Notifications.MarkAsReadOnlyThatId | components/notifications.tsx:55-57 | marking an id sets read on exactly the entries with that id; other entries, the length and the order stay |
| Notifications.MarkAsReadIdempotent | components/notifications.tsx:55-57 | marking the same id twice is marking it once |
| Notifications.MarkAsReadCount | components/notifications.tsx:53-57 | marking an id lowers the unread count by exactly the number of unread entries with that id, so it never rises |
| Notifications.MarkAllClears | components/notifications.tsx:53-61 | after "mark all" every entry is read and the unread count is 0 |
| Notifications.BadgeIffUnread | components/notifications.tsx:11-47 | the badge and the "모두 읽음 표시" button are shown exactly when some entry is unread; the samples have two unread (see also lines 68, 78) |
| Notifications.Bell.constructor | components/notifications.tsx:50-51 | the bell starts closed with the five sample notifications |
| Notifications.Bell.HandleMarkAsRead | components/notifications.tsx:55-57 | the list becomes the list with that id marked read |
| Notifications.Bell.HandleMarkAllAsRead | components/notifications.tsx:59-61 | the list becomes the list with every entry read |
| PrintStatusMonitor.Advance | components/print-status-monitor.tsx:73-100 | one job after one tick (stated by AdvanceProgress) |
| PrintStatusMonitor.AdvanceProgress | components/print-status-monitor.tsx:73-101 | a 인쇄중 job gains one percent capped at 100 and any other job is unchanged; progress never decreases or passes 100; the job becomes 완료 exactly when it reaches 100; id, item and printer are kept |
| PrintStatusMonitor.TickActive | components/print-status-monitor.tsx:71-103 | the active list after one tick: every job advanced, the finished ones dropped (stated by TickActiveNotDone) |
| PrintStatusMonitor.TickActiveNotDone | components/print-status-monitor.tsx:71-103 | after a tick no active job is 완료, and the active jobs are exactly the advanced jobs that are not 완료 |
| PrintStatusMonitor.FinishingJobMoves | components/print-status-monitor.tsx:86-103 | a job reaching 100 leaves the active list and is prepended to the completed list with progress 100 and status 완료; the last such job heads the list |
| PrintStatusMonitor.FinishedInCompleted | components/print-status-monitor.tsx:93 | the completed list after the tick holds the finished record of every job that reached 100 |
| PrintStatusMonitor.CompletedGrowth | components/print-status-monitor.tsx:93 | the completed list grows by exactly the number of jobs that reach 100 |
| PrintStatusMonitor.ActiveSize | components/print-status-monitor.tsx:103 | the active list after the tick has as many jobs as stay short of 완료 |
| PrintStatusMonitor.CountSplitsFinishing | components/print-status-monitor.tsx:86-103 | when no job was 완료, every job either stays active or finishes, never both |
| PrintStatusMonitor.TickPreservesJobs | components/print-status-monitor.tsx:93-103 | when no active job was already 완료, a tick keeps the number of active plus completed jobs |
| PrintStatusMonitor.JobLogLines | components/print-status-monitor.tsx:78-90 | one job puts a progress line on top exactly when the new progress is a new multiple of ten, and the completion line above it exactly when it reaches 100; older lines stay below |
| PrintStatusMonitor.NinetyNineWritesBoth | components/print-status-monitor.tsx:78-90 | a job at 99 writes both the 100% line and the completion line |
| PrintStatusMonitor.TickStep | components/print-status-monitor.tsx:71-102 | processing one more job extends the mapped list by its advanced form, puts its log lines on top and prepends its finished record when it finishes |
| PrintStatusMonitor.Monitor.constructor | components/print-status-monitor.tsx:24-56 | the monitor starts with the given jobs and log lines and empty notes |
| PrintStatusMonitor.Monitor.SetNotes | components/print-status-monitor.tsx:56 | the notes change and nothing else |
| PrintStatusMonitor.Monitor.MapJob | components/print-status-monitor.tsx:73-101 | the map callback returns the advanced job, writes its log lines on top and prepends its finished record when it reaches 100 |
| PrintStatusMonitor.Monitor.Tick | components/print-status-monitor.tsx:69-105 | one interval callback leaves the active jobs advanced and filtered, the completed list with every finishing job prepended in processing order, and the log with each job's lines on top |
| PrintStatusMonitor.RemainingTime | components/print-status-monitor.tsx:125-135 | what getRemainingTime shows: done, almost done, or whole hours and minutes left (stated by RemainingTimeParts) |
| PrintStatusMonitor.RemainingText | components/print-status-monitor.tsx:126-137 | the text of each case, the hours left out when zero (stated by RemainingTimeParts, RemainingTextShort, RemainingTextLong) |
| PrintStatusMonitor.RemainingTimeParts | components/print-status-monitor.tsx:125-138 | a 완료 job reads "완료됨"; otherwise "곧 완료" exactly when the end time has passed; else the hours and minutes split the whole minutes left, with minutes below 60 and no hour part at zero hours |
| PrintStatusMonitor.RemainingTextShort | components/print-status-monitor.tsx:133-137 | 45 minutes left read "45분 남음" |
| PrintStatusMonitor.RemainingTextLong | components/print-status-monitor.tsx:133-137 | 90 minutes left read "1시간 30분 남음" |
| MonitoringDashboard.DrawInRange | components/monitoring-dashboard.tsx:13 | Math.floor(Math.random() * span) + base lies in base..base + span - 1 |
| MonitoringDashboard.GenerateData | components/monitoring-dashboard.tsx:12-14 | generateRandomData gives length values, each drawn from min..max |
| MonitoringDashboard.SlideShifts | components/monitoring-dashboard.tsx:29-44 | sliding keeps the length, drops the oldest sample and puts the new one last |
| MonitoringDashboard.SlideKeepsRange | components/monitoring-dashboard.tsx:27-45 | a sample inside a range slides into a series that stays inside it |
| MonitoringDashboard.SystemStatus | components/monitoring-dashboard.tsx:73-82 | the status badge from the current CPU and memory (stated by SystemStatusThresholds) |
| MonitoringDashboard.SystemStatusThresholds | components/monitoring-dashboard.tsx:74-82 | Critical exactly above 80% CPU or 85% memory; Warning exactly when not Critical and above 60% CPU or 70% memory; Healthy otherwise |
| MonitoringDashboard.SystemStatusMonotone | components/monitoring-dashboard.tsx:74-82 | raising either value never makes the status milder |
| MonitoringDashboard.CaptionThresholds | components/monitoring-dashboard.tsx:126-199 | each card caption switches to its warning text exactly above 70%, 75%, 80% and 50% |
| MonitoringDashboard.TickSamplesHealthy | components/monitoring-dashboard.tsx:28-82 | whatever the draws, the values a tick appends are Healthy and give the normal captions |
| MonitoringDashboard.RefreshCanBeCritical | components/monitoring-dashboard.tsx:58-75 | a refresh can produce 90% CPU as the current value, which is Critical |
| MonitoringDashboard.Dashboard.constructor | components/monitoring-dashboard.tsx:17-22 | four generated series of ten samples in their ranges, the time given, not refreshing |
| MonitoringDashboard.Dashboard.Tick | components/monitoring-dashboard.tsx:25-48 | each series slides by its new sample and stays ten samples in range, the time is updated, and the status on the new current values is Healthy |
| MonitoringDashboard.Dashboard.StartRefresh | components/monitoring-dashboard.tsx:54 | the refresh button is disabled until the data arrive |
| MonitoringDashboard.Dashboard.FinishRefresh | components/monitoring-dashboard.tsx:57-64 | four freshly generated series of ten in their ranges, the new time, and refreshing ends |
| DeviceUsageGraph.WeekDates | components/device-usage-graph.tsx:40-42 | the seven days ending today, oldest first |
| DeviceUsageGraph.GenerateUsageData | components/device-usage-graph.tsx:37-66 | one record per device in order, with its id and name, the week's dates and each day's usage drawn for its status |
| DeviceUsageGraph.TotalDailyUsage | components/device-usage-graph.tsx:82-95 | the "all" series (stated by TotalDailyUsageEntries and TotalsMatchCards) |
| DeviceUsageGraph.TotalDailyUsageEntries | components/device-usage-graph.tsx:82-95 | no devices give no totals; otherwise one total per date of the first device, in order, each the sum over all devices on that date |
| DeviceUsageGraph.FindDevice | components/device-usage-graph.tsx:79 | find gives nothing exactly when no device has the id, and otherwise a listed device with that id |
| DeviceUsageGraph.FirstFound | components/device-usage-graph.tsx:79 | find returns the first device with the id |
| DeviceUsageGraph.MaxUsage | components/device-usage-graph.tsx:100-104 | the scale of the chart as written (stated by MaxUsageBounds and MaxUsageCoversSelected) |
| DeviceUsageGraph.MaxUsageBounds | components/device-usage-graph.tsx:100-104 | the scale is at least 100; with "all" chosen it is exactly 100 unless a device has the id "all" |
| DeviceUsageGraph.MaxUsageCoversSelected | components/device-usage-graph.tsx:100-104 | with a device chosen the scale is at least each of its usages |
| DeviceUsageGraph.AllChartOverflows | components/device-usage-graph.tsx:100-134 | as written, two running devices at 150 on one day give an "all" bar of 300 against a scale of 100 |
| DeviceUsageGraph.IntendedScaleCoversShown | components/device-usage-graph.tsx:100-134 | with the scale taken from the bars the chart draws, no bar is taller than the chart and the scale is at least 100 |
| DeviceUsageGraph.SumOnOwnDates | components/device-usage-graph.tsx:89-90 | summing a series over its own distinct dates gives its card total (see also lines 162) |
| DeviceUsageGraph.SwapSums | components/device-usage-graph.tsx:87-94 | summing the totals over the dates equals summing each device over the dates |
| DeviceUsageGraph.TotalsMatchCards | components/device-usage-graph.tsx:82-95 | when every device reports the same distinct dates, the "all" series sums to the sum of the card totals (see also lines 162) |
| DeviceUsageGraph.GeneratedTotalsMatchCards | components/device-usage-graph.tsx:37-69 | the generated data meet that condition, so the totals always match the cards (see also lines 82-95, 162) |
| DeviceUsageGraph.UsageGraph.constructor | components/device-usage-graph.tsx:31-76 | the usage data are generated for the devices and the first device is selected when there is one |
| DeviceUsageGraph.UsageGraph.SelectInitial | components/device-usage-graph.tsx:72-76 | with devices and no selection the first device is chosen; a selection is never overwritten |
| DeviceUsageGraph.UsageGraph.Select | components/device-usage-graph.tsx:113 | the select sets the chosen id |
| DeviceUsageGraph.UsageGraph.Scale | components/device-usage-graph.tsx:100-104 | the component's chart height as written: never below 100, and exactly 100 with "all" chosen unless a device has the id "all", whatever the totals drawn against it |
| PrintRequestDialog.EligiblePrinters | components/print-request-dialog.tsx:59-64 | without "ignore inventory" only printers 1 and 3 (대기중) can be ticked; with it all four (see also lines 375) |
| PrintRequestDialog.FindFile | components/print-request-dialog.tsx:92 | find(file.id === id) gives a listed file with that id, and nothing exactly when no file has it |
| PrintRequestDialog.DeletedPreview | components/print-request-dialog.tsx:92-95 | the URL deleteFile revokes: the preview of the first file with the id, when it has one |
| PrintRequestDialog.Previews | components/print-request-dialog.tsx:131-136 | the URLs resetForm revokes: the previews of the listed files in list order, at most one per file |
| PrintRequestDialog.PreviewsIff | components/print-request-dialog.tsx:131-136 | a URL is revoked by the reset exactly when a listed file has it as its preview |
| PrintRequestDialog.SelectionAfterDelete | components/print-request-dialog.tsx:98-101 | the selection after a delete: kept when it has another id, otherwise the first other file when more than one file was listed, else none (stated by DeleteFileSelection) |
| PrintRequestDialog.FirstOtherIsFirstKept | components/print-request-dialog.tsx:97-101 | find(file.id !== id) gives the first file the filter keeps, or nothing when it keeps none |
| PrintRequestDialog.DeleteFileSelection | components/print-request-dialog.tsx:91-103 | deleting keeps exactly the files with another id; a deleted selection falls back to the first kept file, or none; any other selection stays |
| PrintRequestDialog.RequestDialog.constructor | components/print-request-dialog.tsx:47-55 | the nine fields start at their initial values and nothing has been revoked |
| PrintRequestDialog.RequestDialog.HandleFileChange | components/print-request-dialog.tsx:66-89 | new files are appended; the first new file is selected only when none was; an empty choice changes nothing; the selection stays listed |
| PrintRequestDialog.RequestDialog.DeleteFile | components/print-request-dialog.tsx:91-103 | the deleted file's preview, if any, is revoked; the files lose that id and the selection follows the fallback rule, staying listed |
| PrintRequestDialog.RequestDialog.SelectFile | components/print-request-dialog.tsx:105-107 | a listed file becomes the selection |
| PrintRequestDialog.RequestDialog.TickPrinter | components/print-request-dialog.tsx:373-375 | an enabled box selects its printer; a click never deselects |
| PrintRequestDialog.RequestDialog.SetIgnoreInventory | components/print-request-dialog.tsx:55 | the check box sets the flag and leaves the chosen printer |
| PrintRequestDialog.RequestDialog.ResetForm | components/print-request-dialog.tsx:128-144 | every listed preview is revoked in list order, the nine fields return to their initial values and the dialog stays as it was |
| PrintRequestDialog.RequestDialog.HandleSubmit | components/print-request-dialog.tsx:109-126 | reachable only with a name, a date, a file and a printer; the previews are revoked, the form is reset and the dialog closes (see also lines 408) |
| PrintRequestDialog.RequestDialog.HandleCancel | components/print-request-dialog.tsx:146-149 | the previews are revoked, the form is reset and the dialog closes |
| PrintRequestDialog.BusyPrinterStaysSelected | components/print-request-dialog.tsx:373-408 | a busy printer ticked while the stock check was ignored stays chosen after the check is switched back, and the request can still be submitted |
| UploadSlots.AddFilesOnlyThatSlot | components/material-detail-dialog.tsx:99-108 | only the slot with the id gains the files, at its end; ids, order and other slots stay |
| UploadSlots.NextSlotIdFresh | components/material-detail-dialog.tsx:111 | max + 1 is positive and larger than every id in use, so it is fresh |
| UploadSlots.RemoveFileOnlyThatFile | components/material-detail-dialog.tsx:121-132 | only the indexed file of the matching slot goes; every other slot is unchanged |
| UploadSlots.FilterDistinctDropsAtMostOne | components/material-detail-dialog.tsx:115-119 | with distinct ids, removing by id drops at most one slot and keeps the ids distinct |
| UploadSlots.SlotOpsKeepValid | components/material-detail-dialog.tsx:99-132 | every slot operation keeps the list non-empty with distinct ids, starting from the single slot 1 (see also lines 54, 175) |
| UploadSlots.Uploads.constructor | components/production-stage-content.tsx:76 | the slots start as the single empty slot 1 |
| UploadSlots.Uploads.HandleFileChange | components/production-stage-content.tsx:105-114 | the slots become the slots with the files added, and stay valid |
| UploadSlots.Uploads.AddFileUpload | components/production-stage-content.tsx:116-119 | one empty slot with the fresh id is appended, and the slots stay valid |
| UploadSlots.Uploads.RemoveFileUpload | components/production-stage-content.tsx:121-125 | the slot goes only when another remains, and the slots stay valid |
| UploadSlots.Uploads.RemoveFile | components/production-stage-content.tsx:127-138 | the indexed file of the matching slot goes, and the slots stay valid |
| UploadSlots.Uploads.Reset | components/material-detail-dialog.tsx:175 | the slots return to the single empty slot 1 |
| MaterialDetailDialog.NewAttachmentFields | components/material-detail-dialog.tsx:148-158 | the new entry's id is positive and above every id, so fresh; a link is named "공급업체 사이트" and keeps the URL, other types are named "새 {type} {id}" without a URL |
| MaterialDetailDialog.DeletesIff | components/material-detail-dialog.tsx:134-140 | each delete removes exactly the entries with that id |
| MaterialDetailDialog.MaxInspectionId | components/material-detail-dialog.tsx:168 | the largest inspection id, at least 0 and every id |
| MaterialDetailDialog.NewInspections | components/material-detail-dialog.tsx:166-172 | one record per staged file, in order, with id max + 1 + its random fraction, the file's name and the time |
| MaterialDetailDialog.NewInspectionsFresh | components/material-detail-dialog.tsx:168 | with random fractions in [0, 1) every new id is above every id already listed |
| MaterialDetailDialog.MaterialDialog.constructor | components/material-detail-dialog.tsx:48-56 | the dialog starts with no dates, no notes, no files, type 견적서, no URL, and the single empty slot 1 |
| MaterialDetailDialog.MaterialDialog.LoadMaterial | components/material-detail-dialog.tsx:59-97 | arrival expected 7 and estimated 10 days after registration; completion date and one report only for 입고 완료; the remarks as notes; the two sample attachments |
| MaterialDetailDialog.MaterialDialog.SetAttachmentType | components/material-detail-dialog.tsx:55 | the type select sets the type |
| MaterialDetailDialog.MaterialDialog.SetAttachmentUrl | components/material-detail-dialog.tsx:56 | the URL field sets the URL |
| MaterialDetailDialog.MaterialDialog.AddAttachment | components/material-detail-dialog.tsx:142-162 | a link without a URL changes nothing; otherwise exactly the new entry is appended and the URL is cleared |
| MaterialDetailDialog.MaterialDialog.DeleteAttachedFile | components/material-detail-dialog.tsx:134-136 | the attachments lose exactly that id |
| MaterialDetailDialog.MaterialDialog.DeleteInspectionFile | components/material-detail-dialog.tsx:138-140 | the inspection records lose exactly that id |
| MaterialDetailDialog.MaterialDialog.UploadInspectionFiles | components/material-detail-dialog.tsx:164-176 | one record per staged file is appended, in slot order, and the slots return to the single empty slot 1 |
| MaterialDetailDialog.MaterialDialog.HandleSave | components/material-detail-dialog.tsx:178-190 | saving closes the dialog |
| ProductionStageContent.AddDocAppends | components/production-stage-content.tsx:82-99 | an add without a category or a name changes nothing; otherwise one document is appended with id length + 1, the form's values and status 진행중 |
| ProductionStageContent.DeleteDocIff | components/production-stage-content.tsx:101-103 | deleting removes exactly the documents with that id and never grows the list |
| ProductionStageContent.AddAfterDeleteReusesId | components/production-stage-content.tsx:22-41 | deleting document 1 of the samples and adding one gives two documents with id 2 (see also lines 86, 102) |
| ProductionStageContent.StatusBadgeMapping | components/production-stage-content.tsx:140-152 | 진행중 and 입고 완료 are green, 대기 yellow, 완료 plain, anything else outlined; every document and material status gets a filled badge |
| ProductionStageContent.ProductionStage.constructor | components/production-stage-content.tsx:22-80 | the panel starts with the two sample documents, the three sample materials, empty inputs, no selection and the single empty slot 1 |
| ProductionStageContent.ProductionStage.SetForm | components/production-stage-content.tsx:73-75 | the three inputs take the typed values |
| ProductionStageContent.ProductionStage.HandleFileUpload | components/production-stage-content.tsx:82-99 | with a category and a name the document is appended and the inputs are cleared; otherwise nothing changes |
| ProductionStageContent.ProductionStage.DeleteDocument | components/production-stage-content.tsx:101-103 | the documents lose exactly that id |
| ProductionStageContent.ProductionStage.HandleMaterialClick | components/production-stage-content.tsx:165-168 | the material is remembered and its dialog opens |
| DesignStageContent.ReplaceGroupOnlyThatGroup | components/design-stage-content.tsx:31-37 | only the group at the index changes, to exactly the chosen files; the number of groups stays |
| DesignStageContent.OfferedRemovalKeepsAGroup | components/design-stage-content.tsx:43-47 | a removal offered by the button (more than one group) drops exactly that group, shifts the later ones down and leaves at least one (see also lines 123) |
| DesignStageContent.UnguardedRemovalEmpties | components/design-stage-content.tsx:43-47 | the handler itself has no guard: on the single group it leaves none |
| DesignStageContent.DesignStage.constructor | components/design-stage-content.tsx:14-17 | no files, one empty meeting group, no notes |
| DesignStageContent.DesignStage.HandleDesignFileChange | components/design-stage-content.tsx:19-23 | a non-empty choice replaces the design files; an empty one is ignored |
| DesignStageContent.DesignStage.HandlePrintFileChange | components/design-stage-content.tsx:25-29 | a non-empty choice replaces the print files; an empty one is ignored |
| DesignStageContent.DesignStage.HandleMeetingFileChange | components/design-stage-content.tsx:31-37 | the group at the index is replaced by a non-empty choice |
| DesignStageContent.DesignStage.AddMeetingFileGroup | components/design-stage-content.tsx:39-41 | exactly one empty group is appended |
| DesignStageContent.DesignStage.RemoveMeetingFileGroup | components/design-stage-content.tsx:43-47 | the group at the index, read as splice reads it, is removed |
| DesignStageContent.DesignStage.SetSpecialNotes | components/design-stage-content.tsx:17 | the notes take the typed text |
| ProductForm.Form.constructor | components/product-form.tsx:15-16 | no files and no previews |
| ProductForm.Form.HandleFileChange | components/product-form.tsx:18-27 | the new files are appended, with one preview URL each at the same positions; the lists stay parallel |
| ProductForm.Form.RemoveFile | components/product-form.tsx:29-41 | the preview at the index is revoked when there is one, and both lists lose the entry at the index; the lists stay parallel |
| ProductForm.RemoveKeepsPairs | components/product-form.tsx:36-37 | after a removal each remaining file sits next to its own preview |
| ProductForm.AddThenRemoveLast | components/product-form.tsx:18-41 | adding a file then removing it restores both lists |
| Calendar.SelectedDateEventsIff | components/calendar.tsx:91 | without a date the list is empty; with one it holds exactly the events on that calendar day, in order |
| Calendar.HasEventsIffListed | components/calendar.tsx:91-96 | a day is marked exactly when its list is not empty |
| Calendar.EventsSummary | components/calendar.tsx:212-214 | the sentence under the day's title (stated by EventsSummaryNamesCount and EventsSummaryInjective) |
| Calendar.EventsSummaryNamesCount | components/calendar.tsx:212-214 | no events read "No events scheduled for this day."; otherwise the sentence opens with the count's digits, which read back as the count, and the noun is plural exactly when the count is not one |
| Calendar.EventsSummaryInjective | components/calendar.tsx:212-214 | different counts give different sentences |
| Calendar.EventsSummarySamples | components/calendar.tsx:212-214 | one event reads "1 event scheduled.", two read "2 events scheduled." |
| Calendar.EventCalendar.constructor | components/calendar.tsx:59-67 | today selected, the given events, the dialog closed and an empty draft for today |
| Calendar.EventCalendar.SetDraft | components/calendar.tsx:62 | the dialog's fields set the draft |
| Calendar.EventCalendar.SetDate | components/calendar.tsx:59 | the calendar sets the selected date |
| Text.IsWhiteSpace | components/calendar.tsx:70 | the characters trim() removes: the white space and line terminators of ECMAScript, including every Unicode space separator |
| Text.IsBlank | components/calendar.tsx:70 | trim() === "": every character is one trim() removes |
| Calendar.EventCalendar.HandleAddEvent | components/calendar.tsx:69-88 | a blank title changes nothing; otherwise one event with the fresh id and the draft's fields is appended, the draft is emptied and the dialog closes |
| Calendar.AddedEventListedOnItsDay | components/calendar.tsx:69-96 | an added event shows up last in the list of its own day, and that day is marked |

Where the repository's design notes and the code differ, the model follows the code: the tables never clamp
the current page after a delete or a search, so a stale page shows no rows; the page count is
`Math.ceil(n / size)`, which is 0 for an empty list; the detail page's stage change accepts any stage
(only the progress bar's disabled buttons keep a click to one step); new document and administrator
ids come from the list length, so an id can be reused after a delete; descending sorts negate the
comparator of a stable sort rather than reversing the ascending order.

The two faulty handlers listed under "## Findings" are modelled as written in the component classes
(`InventoryControls.CategoryBox.HandleCheckboxChange`, `DeviceUsageGraph.UsageGraph.Scale`); the
corrected definitions sit beside them with the intended property proved.

## Left out

- Rendering: JSX, styling, icons, dialogs opening as overlays and the toast and alert messages are not modelled; the state a handler leaves is.
- Timers: `setInterval` and `setTimeout` are not modelled; one interval callback is the method `Tick`, one finished refresh is `FinishRefresh`.
- Randomness: `Math.random()` is a parameter (the metric draws, the usage draws, the calendar and inspection ids), so any value the source could draw is covered.
- Clocks: `new Date()`, `toLocaleTimeString()` and `toISOString()` are parameters of the methods that read them; date arithmetic is on integers (milliseconds, or `yyyymmdd` keys).
- Time zones and date parsing: a calendar day is the millisecond timestamp divided by one day, i.e. in UTC, where `toDateString()` uses the local zone.
- Locale: `toLowerCase()` lowers ASCII letters only and `localeCompare` is a comparator parameter required to be consistent; Unicode case mapping and collation are not modelled.
- Floating point: chart bar heights, percentages of bars and product prices are integers (prices in cents); the inspection ids are `real`, which matches JavaScript numbers for the values used.
- `URL.createObjectURL` is a parameter; the URLs handed to `URL.revokeObjectURL` are recorded in a `revoked` list by the product form and by the print request dialog (its delete and reset handlers); what the browser does with a revoked URL is not modelled.
- `console.log` in the save and submit handlers is not modelled.
- Third-party widgets (FullCalendar, recharts, the command-menu value normalisation) are not modelled; only the state the components hand them is.
- Sample data that is pure content (the product catalogue, the projects table, the print jobs and logs, the calendar's initial events) is a constructor parameter rather than written out.
- PrintStatusMonitor.Monitor.Tick: React may call an updater function twice in development mode, which would repeat the log and completed-job writes made inside it; the model runs each updater once.
- DeviceUsageGraph: the per-device card bars scale by `Math.max` of the device's own usages without a floor; that ratio is not modelled.
- AdminManagement.NewestFirstOnTop: promises the latest login on top only when every login text parses to a date. A login that does not parse, such as "아직 로그인하지 않음" on every administrator added through the dialog, makes the comparator return NaN, which `sort` reads as 0; the comparator is then inconsistent (UnparsedLoginInconsistent) and the order `sort` produces is implementation-defined.
- AdminManagement.AdminPage.RecentLoginCard: for the same reason, newest first and the two sorts agreeing are promised only when every login parses; otherwise the model sorts with its insertion sort, which is one of the orders an engine may produce, and promises only the permutation.
- Text.Lower: its contract states only that the length is kept (LowerIdempotent adds that lowering twice changes nothing), not the per-character mapping, which is its body.
- InventoryControls.IntendedToggles: states the toggle as a disjunction (either the reset to "all" or an exact toggle) rather than saying when each side holds; IntendedLeavesAll pins the two edge cases.
- Other components of the repository (the forms and pages outside the listed files, the sidebar, the theme and the `ui` primitives other than pagination) are not part of this model.

## Findings

| source | as written | input that shows it | evidently intended | confidence | as-written member | corrected member |
|---|---|---|---|---|---|---|
| components/inventory/general-inventory.tsx:36-52 | the reset to `["all"]` tests the list before the toggle, which is empty whenever only "all" is ticked | starting from `["all"]`, click "cat1": the list stays `["all"]`, and no series of clicks ever leaves it (same code in print-materials.tsx:59-75) | reset to `["all"]` only when the list after the toggle is empty | high, not executed | InventoryControls.NeverLeavesAll | InventoryControls.IntendedLeavesAll |
| components/device-usage-graph.tsx:100-104 | with "all" selected the scale looks up a device whose id is "all", finds none and falls back to 100, while the chart draws the totals over all devices | two 가동중 devices each using 150 on the same day: the "all" bar is 300 against a scale of 100 | scale by the bars the chart draws, with the floor of 100 | high, not executed | DeviceUsageGraph.AllChartOverflows | DeviceUsageGraph.IntendedScaleCoversShown |
