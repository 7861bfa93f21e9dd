/** The device status table (`components/device-status-table.tsx`): a search over name and id, three
    rows per page, and a delete that first asks for confirmation. The device list itself belongs to
    the device management page and is handed in; the table writes it back through `setDevices`. */
module DeviceStatusTable {
  import opened Util
  import opened Text

  /** `status`: 대기 | 진행중 | 종료. */
  datatype DeviceStatus = Idle | Running | Finished

  datatype Device = Device(
    id: string,
    name: string,
    image: string,
    status: DeviceStatus,
    usage: int,
    waitingJobs: int,
    remainingMaterial: int)

  /** `itemsPerPage`. */
  const ItemsPerPage: nat := 3

  /** The search box matches the name or the id, ignoring case. */
  predicate DeviceMatches(d: Device, term: string)
  {
    Matches(d.name, term) || Matches(d.id, term)
  }

  function MatchesTerm(term: string): Device -> bool
  {
    (d: Device) => DeviceMatches(d, term)
  }

  /** `filteredDevices`. */
  function FilteredDevices(devices: seq<Device>, term: string): seq<Device>
  {
    Filter(devices, MatchesTerm(term))
  }

  /** A device is listed exactly when the term occurs in its name or id; the empty term lists every
      device in order. */
  lemma FilteredDevicesIff(devices: seq<Device>, term: string, d: Device)
    ensures d in FilteredDevices(devices, term) <==> d in devices && DeviceMatches(d, term)
    ensures FilteredDevices(devices, "") == devices
  {
    FilterMembers(devices, MatchesTerm(term), d);
    forall i | 0 <= i < |devices| ensures MatchesTerm("")(devices[i]) {
      EmptyTermMatches(devices[i].name);
    }
    FilterAll(devices, MatchesTerm(""));
  }

  /** `currentItems`. */
  function CurrentItems(devices: seq<Device>, term: string, page: int): seq<Device>
  {
    PageRows(FilteredDevices(devices, term), page, ItemsPerPage)
  }

  /** `totalPages`. */
  function DevicePages(devices: seq<Device>, term: string): nat
  {
    TotalPages(|FilteredDevices(devices, term)|, ItemsPerPage)
  }

  /** A page shows at most three rows, and each listed device is on exactly the page its position
      gives. */
  lemma PageHoldsThree(devices: seq<Device>, term: string, page: int, i: nat)
    requires page >= 1
    ensures |CurrentItems(devices, term, page)| <= ItemsPerPage
    ensures i < |FilteredDevices(devices, term)| ==>
      1 <= i / ItemsPerPage + 1 <= DevicePages(devices, term) &&
      CurrentItems(devices, term, i / ItemsPerPage + 1)[i % ItemsPerPage] == FilteredDevices(devices, term)[i]
  {
    var f := FilteredDevices(devices, term);
    PageRowsWindow(f, page, ItemsPerPage);
    if i < |f| {
      var p := RowOnItsPage(f, ItemsPerPage, i);
    }
  }

  /** The search box does not reset the page: a page past the new page count shows no rows. */
  lemma StalePageEmpty(devices: seq<Device>, term: string, page: int)
    requires page > DevicePages(devices, term)
    ensures CurrentItems(devices, term, page) == []
  {
    PastLastPageEmpty(FilteredDevices(devices, term), page, ItemsPerPage);
  }

  function IdIsNot(id: string): Device -> bool
  {
    (d: Device) => d.id != id
  }

  /** `devices.filter((d) => d.id !== deviceToDelete.id)`. */
  function WithoutId(devices: seq<Device>, id: string): seq<Device>
  {
    Filter(devices, IdIsNot(id))
  }

  /** Deleting keeps exactly the devices with another id, in their order. */
  lemma WithoutIdIff(devices: seq<Device>, id: string, d: Device)
    ensures d in WithoutId(devices, id) <==> d in devices && d.id != id
    ensures (forall k :: 0 <= k < |devices| ==> devices[k].id != id) ==> WithoutId(devices, id) == devices
  {
    FilterMembers(devices, IdIsNot(id), d);
    FilterAll(devices, IdIsNot(id));
  }

  /** Deleting by id removes every device with that id, so a device appended with an id already in
      the list disappears together with the earlier one. */
  lemma AppendedDuplicateDeletedTogether(devices: seq<Device>, d: Device)
    ensures WithoutId(devices + [d], d.id) == WithoutId(devices, d.id)
  {
    FilterConcat(devices, [d], IdIsNot(d.id));
    FilterSingleton(d, IdIsNot(d.id));
  }

  class StatusTable {
    /** The shared device list (the `devices` prop, written through `setDevices`). */
    var devices: seq<Device>
    var searchTerm: string
    var isDeleteDialogOpen: bool
    var deviceToDelete: Option<Device>
    var currentPage: int

    constructor (shared: seq<Device>)
      ensures devices == shared && searchTerm == "" && !isDeleteDialogOpen && deviceToDelete == None
      ensures currentPage == 1
    {
      devices := shared;
      searchTerm := "";
      isDeleteDialogOpen := false;
      deviceToDelete := None;
      currentPage := 1;
    }

    /** The rows on screen. */
    function Rows(): seq<Device>
      reads this
    {
      CurrentItems(devices, searchTerm, currentPage)
    }

    /** Typing in the search box; the page is kept. */
    method SetSearchTerm(term: string)
      modifies this`searchTerm
      ensures searchTerm == term
    {
      searchTerm := term;
    }

    /** `handlePageChange`. */
    method HandlePageChange(page: int)
      modifies this`currentPage
      ensures currentPage == page
    {
      currentPage := page;
    }

    /** `handleDelete(device)`: records the target and opens the confirmation; nothing is deleted. */
    method HandleDelete(d: Device)
      modifies this`deviceToDelete, this`isDeleteDialogOpen
      ensures deviceToDelete == Some(d) && isDeleteDialogOpen
    {
      deviceToDelete := Some(d);
      isDeleteDialogOpen := true;
    }

    /** `confirmDelete()`: with a target, every device with its id is removed, the dialog closes and
        the target is cleared; with none nothing happens. */
    method ConfirmDelete()
      modifies this`devices, this`deviceToDelete, this`isDeleteDialogOpen
      ensures old(deviceToDelete).None? ==>
        devices == old(devices) && deviceToDelete == None && isDeleteDialogOpen == old(isDeleteDialogOpen)
      ensures old(deviceToDelete).Some? ==>
        devices == WithoutId(old(devices), old(deviceToDelete).value.id) && deviceToDelete == None &&
        !isDeleteDialogOpen
    {
      if deviceToDelete.Some? {
        devices := WithoutId(devices, deviceToDelete.value.id);
        isDeleteDialogOpen := false;
        deviceToDelete := None;
      }
    }

    /** The Cancel button only closes the dialog; the target stays recorded. */
    method CancelDelete()
      modifies this`isDeleteDialogOpen
      ensures !isDeleteDialogOpen
    {
      isDeleteDialogOpen := false;
    }
  }

  /** Asking to delete and then cancelling leaves the list as it was, and confirming removes exactly
      the devices with the chosen id. */
  method DeleteThenCancelOrConfirm(table: StatusTable, d: Device, confirm: bool)
    modifies table
    ensures table.devices == if confirm then WithoutId(old(table.devices), d.id) else old(table.devices)
    ensures !table.isDeleteDialogOpen
    ensures table.deviceToDelete == if confirm then None else Some(d)
  {
    table.HandleDelete(d);
    if confirm {
      table.ConfirmDelete();
    } else {
      table.CancelDelete();
    }
  }
}
