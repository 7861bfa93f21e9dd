/** The print request dialog (`components/print-request-dialog.tsx`): the list of design files with
    one selected, the printer table whose check boxes depend on the printer's state, the submit rule
    and the reset of the form. File ids and previews come from the browser and are given as inputs. */
module PrintRequestDialog {
  import opened Util

  /** A design file; `date` is a timestamp and `previewUrl` is present for images. */
  datatype DesignFile = DesignFile(id: int, name: string, date: int, previewUrl: Option<string>)

  /** `status`: 대기중 | 작업중 | 점검중. */
  datatype PrinterStatus = Waiting | Working | Maintenance

  datatype Printer = Printer(id: int, name: string, status: PrinterStatus, remainingMaterial: string)

  /** `materialType`: 카본 | 플라스틱 | 오닉스. */
  datatype MaterialType = Carbon | Plastic | Onyx

  /** The four sample printers. */
  const Printers: seq<Printer> := [
    Printer(1, "Markforged X7", Waiting, "카본 500cc"),
    Printer(2, "Ultimaker S5", Working, "플라스틱 300cc"),
    Printer(3, "Formlabs Form 3", Waiting, "오닉스 200cc"),
    Printer(4, "Prusa i3 MK3S+", Maintenance, "플라스틱 150cc")
  ]

  const DefaultTime: string := "1시간 30분"
  const DefaultMaterial: string := "카본 100 cc"

  /** A printer's check box is enabled when the printer is waiting or the stock check is ignored. */
  predicate CanTick(p: Printer, ignoreInventory: bool)
  {
    p.status == Waiting || ignoreInventory
  }

  /** Without "ignore inventory" only printers 1 and 3 can be ticked; with it, all four. */
  lemma EligiblePrinters(k: nat)
    requires k < |Printers|
    ensures CanTick(Printers[k], false) <==> Printers[k].id == 1 || Printers[k].id == 3
    ensures CanTick(Printers[k], true)
  {
  }

  function IdIsNot(id: int): DesignFile -> bool
  {
    (f: DesignFile) => f.id != id
  }

  /** `designFiles.filter((file) => file.id !== id)`. */
  function WithoutFile(files: seq<DesignFile>, id: int): seq<DesignFile>
  {
    Filter(files, IdIsNot(id))
  }

  /** `designFiles.find((file) => file.id === id)`: the first file with that id. */
  function FindFile(files: seq<DesignFile>, id: int): (r: Option<DesignFile>)
    ensures r.Some? ==> r.value in files && r.value.id == id
    ensures r.None? <==> forall k :: 0 <= k < |files| ==> files[k].id != id
  {
    FindFirst(files, (f: DesignFile) => f.id == id)
  }

  /** The URL `deleteFile(id)` revokes: the preview of the first file with that id, if it has one. */
  function DeletedPreview(files: seq<DesignFile>, id: int): seq<string>
  {
    var found := FindFile(files, id);
    if found.Some? then PreviewOf(found.value) else []
  }

  /** The URL a file's preview occupies, if it has one. */
  function PreviewOf(f: DesignFile): seq<string>
  {
    if f.previewUrl.Some? then [f.previewUrl.value] else []
  }

  /** The URLs `resetForm()` revokes: the previews of the listed files, in list order. */
  function Previews(files: seq<DesignFile>): (r: seq<string>)
    ensures |r| <= |files|
  {
    if files == [] then [] else Previews(files[..|files| - 1]) + PreviewOf(files[|files| - 1])
  }

  /** A URL is revoked by the reset exactly when some listed file has it as its preview. */
  lemma {:induction false} PreviewsIff(files: seq<DesignFile>, url: string)
    ensures url in Previews(files) <==> exists f :: f in files && f.previewUrl == Some(url)
  {
    if files != [] {
      var init, last := files[..|files| - 1], files[|files| - 1];
      PreviewsIff(init, url);
      assert files == init + [last];
      assert forall f :: f in files <==> f in init || f == last;
    }
  }

  /** `designFiles.find((file) => file.id !== id) || null`. */
  function FirstOther(files: seq<DesignFile>, id: int): Option<DesignFile>
  {
    if files == [] then None
    else if files[0].id != id then Some(files[0])
    else FirstOther(files[1..], id)
  }

  /** The selection after deleting the file with id `id`: a selected file with another id stays;
      otherwise the first other file of the list, but only when the list held more than one file. */
  function SelectionAfterDelete(files: seq<DesignFile>, selected: Option<DesignFile>, id: int): Option<DesignFile>
  {
    if selected.Some? && selected.value.id == id then
      (if |files| > 1 then FirstOther(files, id) else None)
    else selected
  }

  lemma {:induction false} FirstOtherIsFirstKept(files: seq<DesignFile>, id: int)
    ensures FirstOther(files, id) == if WithoutFile(files, id) == [] then None else Some(WithoutFile(files, id)[0])
  {
    if files != [] {
      FirstOtherIsFirstKept(files[1..], id);
      assert files == [files[0]] + files[1..];
      FilterConcat([files[0]], files[1..], IdIsNot(id));
      FilterSingleton(files[0], IdIsNot(id));
    }
  }

  /** Deleting removes exactly the files with that id and keeps the rest in order. When the selected
      file (one of the listed files) is deleted, the first remaining file becomes selected, or nothing
      when none remains; deleting another file keeps the selection. */
  lemma DeleteFileSelection(files: seq<DesignFile>, selected: Option<DesignFile>, id: int)
    requires selected.Some? ==> selected.value in files
    ensures forall f :: f in WithoutFile(files, id) <==> f in files && f.id != id
    ensures var kept := WithoutFile(files, id);
      SelectionAfterDelete(files, selected, id) ==
        if selected.Some? && selected.value.id == id then (if kept == [] then None else Some(kept[0]))
        else selected
  {
    forall f ensures f in WithoutFile(files, id) <==> f in files && f.id != id {
      FilterMembers(files, IdIsNot(id), f);
    }
    var kept := WithoutFile(files, id);
    FirstOtherIsFirstKept(files, id);
    if selected.Some? && selected.value.id == id && |files| <= 1 {
      assert files == [selected.value];
      FilterSingleton(selected.value, IdIsNot(id));
    }
  }

  class RequestDialog {
    var open: bool
    var itemName: string
    var startDate: Option<int>
    var designFiles: seq<DesignFile>
    var selectedFile: Option<DesignFile>
    var estimatedTime: string
    var estimatedMaterial: string
    var materialType: MaterialType
    var selectedPrinter: Option<int>
    var ignoreInventory: bool
    /** The preview URLs handed to `URL.revokeObjectURL`, in order. */
    var revoked: seq<string>

    /** The nine fields hold their initial values. */
    predicate IsReset()
      reads this
    {
      itemName == "" && startDate.None? && designFiles == [] && selectedFile.None? &&
      estimatedTime == DefaultTime && estimatedMaterial == DefaultMaterial && materialType == Carbon &&
      selectedPrinter.None? && !ignoreInventory
    }

    /** The selected file is always one of the listed files. */
    predicate Valid()
      reads this
    {
      selectedFile.Some? ==> selectedFile.value in designFiles
    }

    /** The submit button is enabled with a name, a start date, at least one file and a printer. */
    predicate CanSubmit()
      reads this
    {
      itemName != "" && startDate.Some? && |designFiles| > 0 && selectedPrinter.Some?
    }

    constructor (isOpen: bool)
      ensures IsReset() && Valid() && open == isOpen && revoked == []
    {
      revoked := [];
      open := isOpen;
      itemName, startDate, designFiles, selectedFile := "", None, [], None;
      estimatedTime, estimatedMaterial, materialType := DefaultTime, DefaultMaterial, Carbon;
      selectedPrinter, ignoreInventory := None, false;
    }

    /** `handleFileChange`: the new files are appended after the existing ones; the first new file
        becomes selected when nothing was; an empty selection changes nothing. */
    method HandleFileChange(newFiles: seq<DesignFile>)
      requires Valid()
      modifies this`designFiles, this`selectedFile
      ensures Valid()
      ensures newFiles == [] ==> designFiles == old(designFiles) && selectedFile == old(selectedFile)
      ensures newFiles != [] ==> designFiles == old(designFiles) + newFiles
      ensures newFiles != [] && old(selectedFile).None? ==> selectedFile == Some(newFiles[0])
      ensures old(selectedFile).Some? ==> selectedFile == old(selectedFile)
    {
      if |newFiles| > 0 {
        designFiles := designFiles + newFiles;
        if selectedFile.None? {
          selectedFile := Some(newFiles[0]);
        }
      }
    }

    /** `deleteFile(id)`: the preview of the deleted file, if any, is revoked first. */
    method DeleteFile(id: int)
      requires Valid()
      modifies this`designFiles, this`selectedFile, this`revoked
      ensures Valid()
      ensures revoked == old(revoked) + DeletedPreview(old(designFiles), id)
      ensures designFiles == WithoutFile(old(designFiles), id)
      ensures selectedFile == SelectionAfterDelete(old(designFiles), old(selectedFile), id)
    {
      var files := designFiles;
      var fileToDelete := FindFile(files, id);
      if fileToDelete.Some? && fileToDelete.value.previewUrl.Some? {
        revoked := revoked + [fileToDelete.value.previewUrl.value];
      }
      designFiles := WithoutFile(files, id);
      if selectedFile.Some? && selectedFile.value.id == id {
        selectedFile := if |files| > 1 then FirstOther(files, id) else None;
      }
      DeleteFileSelection(files, old(selectedFile), id);
    }

    /** `selectFile(file)`: a click on one of the listed rows. */
    method SelectFile(file: DesignFile)
      requires file in designFiles
      modifies this`selectedFile
      ensures selectedFile == Some(file) && Valid()
    {
      selectedFile := Some(file);
    }

    /** The printer check box: only an enabled box can be clicked, and a click always selects, never
        clears. */
    method TickPrinter(p: Printer)
      requires CanTick(p, ignoreInventory)
      modifies this`selectedPrinter
      ensures selectedPrinter == Some(p.id)
    {
      selectedPrinter := Some(p.id);
    }

    method SetIgnoreInventory(checked: bool)
      modifies this`ignoreInventory
      ensures ignoreInventory == checked
    {
      ignoreInventory := checked;
    }

    method SetItemName(name: string)
      modifies this`itemName
      ensures itemName == name
    {
      itemName := name;
    }

    method SetStartDate(date: Option<int>)
      modifies this`startDate
      ensures startDate == date
    {
      startDate := date;
    }

    /** The `designFiles.forEach` of `resetForm()`: each listed preview is revoked, in list order. */
    method RevokePreviews()
      modifies this`revoked
      ensures revoked == old(revoked) + Previews(designFiles)
    {
      var i := 0;
      while i < |designFiles|
        invariant 0 <= i <= |designFiles|
        invariant revoked == old(revoked) + Previews(designFiles[..i])
      {
        if designFiles[i].previewUrl.Some? {
          revoked := revoked + [designFiles[i].previewUrl.value];
        }
        assert designFiles[..i + 1][..i] == designFiles[..i];
        i := i + 1;
      }
      assert designFiles[..i] == designFiles;
    }

    /** `resetForm()`: the previews of the listed files are revoked, and the nine fields return to
        their initial values. */
    method ResetForm()
      modifies this`itemName, this`startDate, this`designFiles, this`selectedFile, this`estimatedTime
      modifies this`estimatedMaterial, this`materialType, this`selectedPrinter, this`ignoreInventory, this`revoked
      ensures IsReset() && Valid() && open == old(open)
      ensures revoked == old(revoked) + Previews(old(designFiles))
    {
      RevokePreviews();
      itemName, startDate, designFiles, selectedFile := "", None, [], None;
      estimatedTime, estimatedMaterial, materialType := DefaultTime, DefaultMaterial, Carbon;
      selectedPrinter, ignoreInventory := None, false;
    }

    /** `handleSubmit()`, reachable only through the enabled button: the form is reset and the dialog
        closes. */
    method HandleSubmit()
      requires CanSubmit()
      modifies this
      ensures IsReset() && Valid() && !open && !CanSubmit()
      ensures revoked == old(revoked) + Previews(old(designFiles))
    {
      ResetForm();
      open := false;
    }

    /** `handleCancel()`. */
    method HandleCancel()
      modifies this
      ensures IsReset() && Valid() && !open
      ensures revoked == old(revoked) + Previews(old(designFiles))
    {
      ResetForm();
      open := false;
    }
  }

  /** A busy printer ticked while the stock check was ignored stays selected after the check is
      switched back on, and the request can still be submitted. */
  method BusyPrinterStaysSelected(d: RequestDialog)
    requires d.itemName != "" && d.startDate.Some? && |d.designFiles| > 0
    modifies d
    ensures d.selectedPrinter == Some(2) && !d.ignoreInventory && d.CanSubmit()
  {
    d.SetIgnoreInventory(true);
    d.TickPrinter(Printers[1]);
    d.SetIgnoreInventory(false);
  }
}
