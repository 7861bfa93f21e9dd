/** The device management page (`components/device-management.tsx`): it owns the device list that the
    status table shows and deletes from, and appends what the add form submits. */
module DeviceManagement {
  import opened Util
  import opened DeviceStatusTable
  import opened DeviceAddForm

  /** The four sample printers. */
  const InitialDevices: seq<Device> := [
    Device("DEV001", "Markforged X7", Placeholder, Running, 1250, 3, 450),
    Device("DEV002", "Ultimaker S5", Placeholder, Idle, 890, 0, 600),
    Device("DEV003", "Formlabs Form 3", Placeholder, Finished, 2100, 0, 120),
    Device("DEV004", "Prusa i3 MK3S+", Placeholder, Idle, 450, 1, 800)
  ]

  /** The sample fleet has four devices with the distinct ids DEV001..DEV004. */
  lemma InitialDevicesDistinct()
    ensures |InitialDevices| == 4
    ensures forall j, k :: 0 <= j < k < |InitialDevices| ==> InitialDevices[j].id != InitialDevices[k].id
    ensures Map(InitialDevices, (d: Device) => d.id) == ["DEV001", "DEV002", "DEV003", "DEV004"]
  {
  }

  class ManagementPage {
    var isAddDeviceOpen: bool
    /** The status table, which holds the shared `devices` state. */
    const table: StatusTable
    const form: AddForm

    constructor ()
      ensures !isAddDeviceOpen && table.devices == InitialDevices
      ensures fresh(table) && fresh(form) && table.currentPage == 1 && table.deviceToDelete == None
      ensures form.deviceName == "" && form.deviceId == "" && !form.isSubmitting
    {
      isAddDeviceOpen := false;
      table := new StatusTable(InitialDevices);
      form := new AddForm();
    }

    /** `handleAddDevice(newDevice)`: appends the device at the end and closes the dialog. */
    method HandleAddDevice(d: Device)
      modifies this`isAddDeviceOpen, table`devices
      ensures table.devices == old(table.devices) + [d]
      ensures !isAddDeviceOpen
    {
      table.devices := table.devices + [d];
      isAddDeviceOpen := false;
    }

    /** The add dialog's submit: the form validates and, on success, the device is appended. */
    method SubmitAddForm() returns (added: bool)
      modifies this`isAddDeviceOpen, table`devices, form
      ensures added <==> old(form.deviceName) != "" && old(form.deviceId) != ""
      ensures added ==> table.devices == old(table.devices) + [NewDevice(old(form.deviceId), old(form.deviceName), old(form.previewUrl))]
      ensures added ==> !isAddDeviceOpen
      ensures !added ==> table.devices == old(table.devices) && isAddDeviceOpen == old(isAddDeviceOpen)
    {
      var submitted := form.HandleSubmit();
      added := submitted.Some?;
      if added {
        HandleAddDevice(submitted.value);
      }
    }
  }

  /** Adding a device with the id of one already listed is accepted, leaving two devices with that
      id; a later delete through the status table removes both. */
  lemma DuplicateIdAccepted(devices: seq<Device>, i: nat, name: string, previewUrl: Option<string>)
    requires i < |devices| && name != ""
    ensures var d := NewDevice(devices[i].id, name, previewUrl);
      var after := devices + [d];
      after[i].id == after[|devices|].id && i != |devices| &&
      WithoutId(after, d.id) == WithoutId(devices, d.id)
  {
    var d := NewDevice(devices[i].id, name, previewUrl);
    AppendedDuplicateDeletedTogether(devices, d);
  }
}
