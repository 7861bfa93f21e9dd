/** The form that adds a device (`components/device-add-form.tsx`): it checks that a name and an id
    were entered, builds the new device record and clears itself. */
module DeviceAddForm {
  import opened Util
  import opened DeviceStatusTable

  /** The image shown for a device without a chosen picture. */
  const Placeholder: string := "/placeholder.svg?height=50&width=50"

  /** `previewUrl || placeholder`: an absent or empty preview falls back to the placeholder. */
  function DeviceImage(previewUrl: Option<string>): (image: string)
    ensures previewUrl.Some? && previewUrl.value != "" ==> image == previewUrl.value
    ensures previewUrl.None? || previewUrl.value == "" ==> image == Placeholder
  {
    if previewUrl.Some? && previewUrl.value != "" then previewUrl.value else Placeholder
  }

  /** `newDevice`: a waiting device with no usage, no queued job and 1000 of material. */
  function NewDevice(id: string, name: string, previewUrl: Option<string>): Device
  {
    Device(id, name, DeviceImage(previewUrl), Idle, 0, 0, 1000)
  }

  /** The record carries exactly the entered id and name, whatever ids other devices already have. */
  lemma NewDeviceFields(id: string, name: string, previewUrl: Option<string>)
    ensures var d := NewDevice(id, name, previewUrl);
      d.id == id && d.name == name && d.status == Idle && d.usage == 0 && d.waitingJobs == 0 &&
      d.remainingMaterial == 1000 && (previewUrl.Some? && previewUrl.value != "" ==> d.image == previewUrl.value)
  {
  }

  class AddForm {
    var deviceName: string
    var deviceId: string
    /** The chosen image file, by its name. */
    var deviceImage: Option<string>
    var previewUrl: Option<string>
    var isSubmitting: bool

    constructor ()
      ensures deviceName == "" && deviceId == "" && deviceImage == None && previewUrl == None && !isSubmitting
    {
      deviceName, deviceId := "", "";
      deviceImage, previewUrl := None, None;
      isSubmitting := false;
    }

    /** Typing into the two text fields. */
    method SetFields(name: string, id: string)
      modifies this`deviceName, this`deviceId
      ensures deviceName == name && deviceId == id
    {
      deviceName, deviceId := name, id;
    }

    /** `handleImageChange`: the first chosen file becomes the image; an empty choice changes
        nothing. The preview arrives later, see `PreviewLoaded`. */
    method HandleImageChange(files: seq<string>)
      modifies this`deviceImage
      ensures deviceImage == if files == [] then old(deviceImage) else Some(files[0])
    {
      if |files| > 0 {
        deviceImage := Some(files[0]);
      }
    }

    /** The file reader's `onload`: the data URL becomes the preview. */
    method PreviewLoaded(url: string)
      modifies this`previewUrl
      ensures previewUrl == Some(url)
    {
      previewUrl := Some(url);
    }

    /** `clearImage()`: clears the image and its preview, keeps the text fields. */
    method ClearImage()
      modifies this`deviceImage, this`previewUrl
      ensures deviceImage == None && previewUrl == None
    {
      deviceImage := None;
      previewUrl := None;
    }

    /** The 초기화 button: clears the text fields and the image. */
    method Reset()
      modifies this`deviceName, this`deviceId, this`deviceImage, this`previewUrl
      ensures deviceName == "" && deviceId == "" && deviceImage == None && previewUrl == None
    {
      deviceName := "";
      deviceId := "";
      ClearImage();
    }

    /** `handleSubmit`: without a name or an id nothing is passed on and the form keeps its fields;
        otherwise the new device is passed to `onSuccess` (the result here), the form is cleared and
        `isSubmitting` ends false. No check is made that the id is new. */
    method HandleSubmit() returns (submitted: Option<Device>)
      modifies this
      ensures old(deviceName) == "" || old(deviceId) == "" ==>
        submitted == None && deviceName == old(deviceName) && deviceId == old(deviceId) &&
        deviceImage == old(deviceImage) && previewUrl == old(previewUrl) && isSubmitting == old(isSubmitting)
      ensures old(deviceName) != "" && old(deviceId) != "" ==>
        submitted == Some(NewDevice(old(deviceId), old(deviceName), old(previewUrl))) &&
        deviceName == "" && deviceId == "" && deviceImage == None && previewUrl == None && !isSubmitting
    {
      if deviceName == "" || deviceId == "" {
        submitted := None;
        return;
      }
      isSubmitting := true;
      submitted := Some(NewDevice(deviceId, deviceName, previewUrl));
      deviceName := "";
      deviceId := "";
      deviceImage := None;
      previewUrl := None;
      isSubmitting := false;
    }
  }
}
