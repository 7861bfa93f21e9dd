/** The material detail dialog (`components/material-detail-dialog.tsx`): the dates and sample files
    loaded from the production material, the attachment list with its add and delete, the inspection
    upload slots and the upload that turns the staged files into inspection records. Dates are
    timestamps in milliseconds; `now` stands for `new Date()`. */
module MaterialDetailDialog {
  import opened Util
  import opened Text
  import opened ProjectTypes
  import opened UploadSlots

  /** `type`: 견적서 | 사이트 링크 | 기타. */
  datatype AttachmentType = Quote | SiteLink | OtherAttachment

  datatype AttachedFile = AttachedFile(id: int, name: string, date: int, kind: AttachmentType, url: Option<string>)

  /** Inspection ids are JavaScript numbers with a random fraction, hence `real`. */
  datatype InspectionFile = InspectionFile(id: real, name: string, date: int)

  const DayMs: int := 24 * 60 * 60 * 1000

  function AttachmentLabel(t: AttachmentType): string
  {
    match t
    case Quote => "견적서"
    case SiteLink => "사이트 링크"
    case OtherAttachment => "기타"
  }

  function AttachmentId(f: AttachedFile): int { f.id }

  /** `Math.max(...attachedFiles.map((file) => file.id), 0) + 1`. */
  function NextAttachmentId(files: seq<AttachedFile>): int
  {
    MaxWith(Map(files, AttachmentId), 0) + 1
  }

  /** The entry `addAttachment` appends: the next id, "공급업체 사이트" for a link and "새 {type} {id}"
      otherwise, and a URL only for a link. */
  function NewAttachment(files: seq<AttachedFile>, kind: AttachmentType, url: string, now: int): AttachedFile
  {
    var newId := NextAttachmentId(files);
    AttachedFile(
      newId,
      if kind == SiteLink then "공급업체 사이트" else "새 " + AttachmentLabel(kind) + " " + IntToString(newId),
      now,
      kind,
      if kind == SiteLink then Some(url) else None)
  }

  /** A link without a URL is refused. */
  predicate RefusesAttachment(kind: AttachmentType, url: string)
  {
    kind == SiteLink && url == ""
  }

  /** The new entry's id is positive and larger than every id in the list, so it is fresh; its name,
      type and URL follow the chosen type. */
  lemma NewAttachmentFields(files: seq<AttachedFile>, kind: AttachmentType, url: string, now: int)
    ensures var f := NewAttachment(files, kind, url, now);
      f.id >= 1 && (forall i :: 0 <= i < |files| ==> files[i].id < f.id) &&
      f.kind == kind && f.date == now &&
      (kind == SiteLink ==> f.name == "공급업체 사이트" && f.url == Some(url)) &&
      (kind != SiteLink ==> f.name == "새 " + AttachmentLabel(kind) + " " + NatToString(f.id) && f.url.None?)
  {
    var ids := Map(files, AttachmentId);
    forall i | 0 <= i < |files| ensures files[i].id < NextAttachmentId(files) {
      assert ids[i] == files[i].id;
    }
  }

  function AttachmentIdIsNot(id: int): AttachedFile -> bool
  {
    (f: AttachedFile) => f.id != id
  }

  function InspectionIdIsNot(id: real): InspectionFile -> bool
  {
    (f: InspectionFile) => f.id != id
  }

  /** `deleteAttachedFile(id)` and `deleteInspectionFile(id)`. */
  function DeleteAttachment(files: seq<AttachedFile>, id: int): seq<AttachedFile>
  {
    Filter(files, AttachmentIdIsNot(id))
  }

  function DeleteInspection(files: seq<InspectionFile>, id: real): seq<InspectionFile>
  {
    Filter(files, InspectionIdIsNot(id))
  }

  /** Each delete removes exactly the entries with that id. */
  lemma DeletesIff(attached: seq<AttachedFile>, inspected: seq<InspectionFile>, a: AttachedFile, f: InspectionFile, id: int, rid: real)
    ensures a in DeleteAttachment(attached, id) <==> a in attached && a.id != id
    ensures f in DeleteInspection(inspected, rid) <==> f in inspected && f.id != rid
  {
    FilterMembers(attached, AttachmentIdIsNot(id), a);
    FilterMembers(inspected, InspectionIdIsNot(rid), f);
  }

  /** `Math.max(...inspectionFiles.map((f) => f.id), 0)`. */
  function MaxInspectionId(files: seq<InspectionFile>): (m: real)
    ensures m >= 0.0
    ensures forall i :: 0 <= i < |files| ==> files[i].id <= m
  {
    if files == [] then 0.0
    else
      var rest := MaxInspectionId(files[1..]);
      if files[0].id > rest then files[0].id else rest
  }

  /** The records `uploadInspectionFiles` adds: one per staged file, in order, with id
      max + 1 + a random fraction given by `rand`. */
  function NewInspections(files: seq<InspectionFile>, staged: seq<string>, rand: nat -> real, now: int): (r: seq<InspectionFile>)
    ensures |r| == |staged|
    ensures forall k :: 0 <= k < |staged| ==>
      r[k] == InspectionFile(MaxInspectionId(files) + 1.0 + rand(k), staged[k], now)
  {
    seq(|staged|, k requires 0 <= k < |staged| => InspectionFile(MaxInspectionId(files) + 1.0 + rand(k), staged[k], now))
  }

  /** With random fractions in [0, 1), every new id is above every id already listed. */
  lemma NewInspectionsFresh(files: seq<InspectionFile>, staged: seq<string>, rand: nat -> real, now: int, k: nat, i: nat)
    requires forall j: nat :: 0.0 <= rand(j) < 1.0
    requires k < |staged| && i < |files|
    ensures files[i].id < NewInspections(files, staged, rand, now)[k].id
  {
    assert 0.0 <= rand(k);
  }

  /** The two sample attachments the dialog shows for a material. */
  function SampleAttachments(m: ProductionMaterial): seq<AttachedFile>
  {
    [AttachedFile(1, "견적서_001.pdf", m.registrationDate - 2 * DayMs, Quote, None),
     AttachedFile(2, "공급업체 사이트", m.registrationDate - DayMs, SiteLink, Some("https://example.com/supplier"))]
  }

  class MaterialDialog {
    var open: bool
    var expectedArrivalDate: Option<int>
    var estimatedArrivalDate: Option<int>
    var completionDate: Option<int>
    var specialNotes: string
    var attachedFiles: seq<AttachedFile>
    var inspectionFiles: seq<InspectionFile>
    var attachmentType: AttachmentType
    var attachmentUrl: string
    const uploads: Uploads

    constructor (isOpen: bool)
      ensures open == isOpen && expectedArrivalDate.None? && estimatedArrivalDate.None? && completionDate.None?
      ensures specialNotes == "" && attachedFiles == [] && inspectionFiles == []
      ensures attachmentType == Quote && attachmentUrl == ""
      ensures fresh(uploads) && uploads.slots == InitialSlots
    {
      open := isOpen;
      expectedArrivalDate, estimatedArrivalDate, completionDate := None, None, None;
      specialNotes := "";
      attachedFiles, inspectionFiles := [], [];
      attachmentType, attachmentUrl := Quote, "";
      uploads := new Uploads();
    }

    /** The effect that runs when a material is given: arrival expected 7 days and estimated 10 days
        after registration, the completion date and one inspection report only once the material is
        received, the remarks as notes, and the two sample attachments. */
    method LoadMaterial(m: ProductionMaterial)
      modifies this`expectedArrivalDate, this`estimatedArrivalDate, this`completionDate
      modifies this`specialNotes, this`attachedFiles, this`inspectionFiles
      ensures expectedArrivalDate == Some(m.registrationDate + 7 * DayMs)
      ensures estimatedArrivalDate == Some(m.registrationDate + 10 * DayMs)
      ensures completionDate == if m.status == Received then Some(m.endDate) else None
      ensures specialNotes == m.remarks && attachedFiles == SampleAttachments(m)
      ensures inspectionFiles == if m.status == Received then [InspectionFile(1.0, "검수보고서_001.pdf", m.endDate)] else []
    {
      expectedArrivalDate := Some(m.registrationDate + 7 * DayMs);
      estimatedArrivalDate := Some(m.registrationDate + 10 * DayMs);
      completionDate := if m.status == Received then Some(m.endDate) else None;
      specialNotes := if m.remarks != "" then m.remarks else "";
      attachedFiles := SampleAttachments(m);
      if m.status == Received {
        inspectionFiles := [InspectionFile(1.0, "검수보고서_001.pdf", m.endDate)];
      } else {
        inspectionFiles := [];
      }
    }

    method SetAttachmentType(t: AttachmentType)
      modifies this`attachmentType
      ensures attachmentType == t
    {
      attachmentType := t;
    }

    method SetAttachmentUrl(url: string)
      modifies this`attachmentUrl
      ensures attachmentUrl == url
    {
      attachmentUrl := url;
    }

    /** `addAttachment()`: a link without a URL changes nothing (the alert is not modelled); otherwise
        one entry is appended and the URL field is cleared. */
    method AddAttachment(now: int)
      modifies this`attachedFiles, this`attachmentUrl
      ensures RefusesAttachment(attachmentType, old(attachmentUrl)) ==>
        attachedFiles == old(attachedFiles) && attachmentUrl == old(attachmentUrl)
      ensures !RefusesAttachment(attachmentType, old(attachmentUrl)) ==>
        attachedFiles == old(attachedFiles) + [NewAttachment(old(attachedFiles), attachmentType, old(attachmentUrl), now)] &&
        attachmentUrl == ""
    {
      if attachmentType == SiteLink && attachmentUrl == "" {
        return;
      }
      var newId := MaxWith(Map(attachedFiles, AttachmentId), 0) + 1;
      var name := if attachmentType == SiteLink then "공급업체 사이트" else "새 " + AttachmentLabel(attachmentType) + " " + IntToString(newId);
      var newFile := AttachedFile(newId, name, now, attachmentType, None);
      if attachmentType == SiteLink {
        newFile := newFile.(url := Some(attachmentUrl));
      }
      assert newFile == NewAttachment(attachedFiles, attachmentType, attachmentUrl, now);
      attachedFiles := attachedFiles + [newFile];
      attachmentUrl := "";
    }

    method DeleteAttachedFile(id: int)
      modifies this`attachedFiles
      ensures attachedFiles == DeleteAttachment(old(attachedFiles), id)
    {
      attachedFiles := Filter(attachedFiles, AttachmentIdIsNot(id));
    }

    method DeleteInspectionFile(id: real)
      modifies this`inspectionFiles
      ensures inspectionFiles == DeleteInspection(old(inspectionFiles), id)
    {
      inspectionFiles := Filter(inspectionFiles, InspectionIdIsNot(id));
    }

    /** `uploadInspectionFiles()`: one record per staged file is appended and the slots return to the
        single empty slot 1. */
    method UploadInspectionFiles(rand: nat -> real, now: int)
      modifies this`inspectionFiles, uploads
      ensures inspectionFiles == old(inspectionFiles) + NewInspections(old(inspectionFiles), Staged(old(uploads.slots)), rand, now)
      ensures uploads.slots == InitialSlots
    {
      var newFiles := NewInspections(inspectionFiles, Staged(uploads.slots), rand, now);
      inspectionFiles := inspectionFiles + newFiles;
      uploads.Reset();
    }

    /** `handleSave()`: only closes the dialog (the values are logged, which is not modelled). */
    method HandleSave()
      modifies this`open
      ensures !open
    {
      open := false;
    }
  }
}
