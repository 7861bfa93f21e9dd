/** The file upload slots that the material detail dialog (`components/material-detail-dialog.tsx`)
    and the production stage (`components/production-stage-content.tsx`) each keep with the same
    handlers: a list of `{ id, files }` slots, starting as the single empty slot 1. A file is
    represented by its name. */
module UploadSlots {
  import opened Util

  datatype Slot = Slot(id: int, files: seq<string>)

  function SlotId(s: Slot): int { s.id }

  /** The initial list, and the list after the inspection files are uploaded: `[{ id: 1, files: [] }]`. */
  const InitialSlots: seq<Slot> := [Slot(1, [])]

  predicate DistinctIds(slots: seq<Slot>)
  {
    forall i, j :: 0 <= i < j < |slots| ==> slots[i].id != slots[j].id
  }

  function AppendTo(uploadId: int, newFiles: seq<string>): Slot -> Slot
  {
    (s: Slot) => if s.id == uploadId then s.(files := s.files + newFiles) else s
  }

  /** `handleFileChange(e, uploadId)`: the chosen files are appended to the slot with that id; an empty
      choice changes nothing. */
  function AddFiles(slots: seq<Slot>, uploadId: int, newFiles: seq<string>): seq<Slot>
  {
    if newFiles == [] then slots else Map(slots, AppendTo(uploadId, newFiles))
  }

  /** Only the matching slot gains the files, at its end; every other slot, the ids and the order are
      unchanged. */
  lemma AddFilesOnlyThatSlot(slots: seq<Slot>, uploadId: int, newFiles: seq<string>, i: nat)
    requires i < |slots|
    ensures |AddFiles(slots, uploadId, newFiles)| == |slots|
    ensures var r := AddFiles(slots, uploadId, newFiles)[i];
      r.id == slots[i].id &&
      r.files == if slots[i].id == uploadId then slots[i].files + newFiles else slots[i].files
  {
  }

  /** `Math.max(...fileUploads.map((upload) => upload.id), 0) + 1`. */
  function NextSlotId(slots: seq<Slot>): int
  {
    MaxWith(Map(slots, SlotId), 0) + 1
  }

  /** The new id is positive and larger than every id in use, so it is fresh. */
  lemma NextSlotIdFresh(slots: seq<Slot>)
    ensures NextSlotId(slots) >= 1
    ensures forall i :: 0 <= i < |slots| ==> slots[i].id < NextSlotId(slots)
  {
    var ids := Map(slots, SlotId);
    forall i | 0 <= i < |slots| ensures slots[i].id < NextSlotId(slots) {
      assert ids[i] == slots[i].id;
    }
  }

  /** `addFileUpload()`. */
  function AddSlot(slots: seq<Slot>): seq<Slot>
  {
    slots + [Slot(NextSlotId(slots), [])]
  }

  function IdIsNot(id: int): Slot -> bool
  {
    (s: Slot) => s.id != id
  }

  /** `removeFileUpload(id)`: only acts while there is more than one slot. */
  function RemoveSlot(slots: seq<Slot>, id: int): seq<Slot>
  {
    if |slots| > 1 then Filter(slots, IdIsNot(id)) else slots
  }

  /** `removeFile(uploadId, fileIndex)`: the copy-then-`splice` in the matching slot. */
  function SpliceIn(uploadId: int, fileIndex: int): Slot -> Slot
  {
    (s: Slot) => if s.id == uploadId then s.(files := JsRemoveAt(s.files, fileIndex)) else s
  }

  function WithoutFileAt(slots: seq<Slot>, uploadId: int, fileIndex: int): seq<Slot>
  {
    Map(slots, SpliceIn(uploadId, fileIndex))
  }

  /** Only the indexed file of the matching slot goes; every other slot is unchanged. */
  lemma RemoveFileOnlyThatFile(slots: seq<Slot>, uploadId: int, fileIndex: int, i: nat)
    requires i < |slots|
    ensures |WithoutFileAt(slots, uploadId, fileIndex)| == |slots|
    ensures var r := WithoutFileAt(slots, uploadId, fileIndex)[i];
      r.id == slots[i].id &&
      (slots[i].id != uploadId ==> r == slots[i]) &&
      (slots[i].id == uploadId && 0 <= fileIndex < |slots[i].files| ==>
        r.files == slots[i].files[..fileIndex] + slots[i].files[fileIndex + 1..])
  {
  }

  /** The slots the dialog keeps: never empty, and no two with the same id. */
  predicate ValidSlots(slots: seq<Slot>)
  {
    slots != [] && DistinctIds(slots)
  }

  /** Taking one slot out of a list with distinct ids leaves the ids distinct. */
  lemma RemoveKeepsDistinct(slots: seq<Slot>, m: nat)
    requires DistinctIds(slots) && m < |slots|
    ensures DistinctIds(slots[..m] + slots[m + 1..])
  {
    var r := slots[..m] + slots[m + 1..];
    forall i, j | 0 <= i < j < |r| ensures r[i].id != r[j].id {
      var i' := if i < m then i else i + 1;
      var j' := if j < m then j else j + 1;
      assert r[i] == slots[i'] && r[j] == slots[j'];
    }
  }

  /** With distinct ids, removing by id drops at most one slot and keeps the ids distinct. */
  lemma FilterDistinctDropsAtMostOne(slots: seq<Slot>, id: int)
    requires DistinctIds(slots)
    ensures |Filter(slots, IdIsNot(id))| >= |slots| - 1
    ensures DistinctIds(Filter(slots, IdIsNot(id)))
  {
    if m :| 0 <= m < |slots| && slots[m].id == id {
      forall j | 0 <= j < |slots| && j != m ensures IdIsNot(id)(slots[j]) {
        if j < m {
          assert slots[j].id != slots[m].id;
        } else {
          assert slots[m].id != slots[j].id;
        }
      }
      FilterDropsOne(slots, m, IdIsNot(id));
      RemoveKeepsDistinct(slots, m);
    } else {
      FilterKeepsAll(slots, IdIsNot(id));
    }
  }

  /** Adding files keeps every slot's id in place. */
  lemma AddFilesKeepsValid(slots: seq<Slot>, uploadId: int, newFiles: seq<string>)
    requires ValidSlots(slots)
    ensures ValidSlots(AddFiles(slots, uploadId, newFiles))
  {
    var r := AddFiles(slots, uploadId, newFiles);
    forall i | 0 <= i < |slots| ensures r[i].id == slots[i].id {
      AddFilesOnlyThatSlot(slots, uploadId, newFiles, i);
    }
  }

  /** A new slot takes a fresh id. */
  lemma AddSlotKeepsValid(slots: seq<Slot>)
    requires ValidSlots(slots)
    ensures ValidSlots(AddSlot(slots))
  {
    NextSlotIdFresh(slots);
    var r := AddSlot(slots);
    forall i, j | 0 <= i < j < |r| ensures r[i].id != r[j].id {
      if j == |slots| {
        assert r[i] == slots[i];
      } else {
        assert r[i] == slots[i] && r[j] == slots[j];
      }
    }
  }

  /** A slot is removed only while another remains, and at most one goes. */
  lemma RemoveSlotKeepsValid(slots: seq<Slot>, id: int)
    requires ValidSlots(slots)
    ensures ValidSlots(RemoveSlot(slots, id))
  {
    if |slots| > 1 {
      FilterDistinctDropsAtMostOne(slots, id);
    }
  }

  /** Removing a file keeps every slot's id in place. */
  lemma RemoveFileKeepsValid(slots: seq<Slot>, uploadId: int, fileIndex: int)
    requires ValidSlots(slots)
    ensures ValidSlots(WithoutFileAt(slots, uploadId, fileIndex))
  {
    var r := WithoutFileAt(slots, uploadId, fileIndex);
    forall i | 0 <= i < |slots| ensures r[i].id == slots[i].id {
      RemoveFileOnlyThatFile(slots, uploadId, fileIndex, i);
    }
  }

  /** Every slot operation keeps the slot list non-empty with distinct ids: adding uses a fresh id,
      removing a slot acts only when another remains and removes at most one, file changes keep the
      ids. */
  lemma SlotOpsKeepValid(slots: seq<Slot>, uploadId: int, newFiles: seq<string>, fileIndex: int)
    requires ValidSlots(slots)
    ensures ValidSlots(AddFiles(slots, uploadId, newFiles))
    ensures ValidSlots(AddSlot(slots))
    ensures ValidSlots(RemoveSlot(slots, uploadId))
    ensures ValidSlots(WithoutFileAt(slots, uploadId, fileIndex))
    ensures ValidSlots(InitialSlots)
  {
    AddFilesKeepsValid(slots, uploadId, newFiles);
    AddSlotKeepsValid(slots);
    RemoveSlotKeepsValid(slots, uploadId);
    RemoveFileKeepsValid(slots, uploadId, fileIndex);
  }

  /** The staged files in slot order: `fileUploads.flatMap((upload) => upload.files)`. */
  function Staged(slots: seq<Slot>): seq<string>
  {
    if slots == [] then [] else slots[0].files + Staged(slots[1..])
  }

  class Uploads {
    var slots: seq<Slot>

    constructor ()
      ensures slots == InitialSlots && ValidSlots(slots)
    {
      slots := InitialSlots;
    }

    method HandleFileChange(uploadId: int, newFiles: seq<string>)
      requires ValidSlots(slots)
      modifies this
      ensures slots == AddFiles(old(slots), uploadId, newFiles) && ValidSlots(slots)
    {
      SlotOpsKeepValid(slots, uploadId, newFiles, 0);
      if |newFiles| > 0 {
        slots := Map(slots, AppendTo(uploadId, newFiles));
      }
    }

    method AddFileUpload()
      requires ValidSlots(slots)
      modifies this
      ensures slots == AddSlot(old(slots)) && ValidSlots(slots)
    {
      SlotOpsKeepValid(slots, 0, [], 0);
      var newId := MaxWith(Map(slots, SlotId), 0) + 1;
      slots := slots + [Slot(newId, [])];
    }

    method RemoveFileUpload(id: int)
      requires ValidSlots(slots)
      modifies this
      ensures slots == RemoveSlot(old(slots), id) && ValidSlots(slots)
    {
      SlotOpsKeepValid(slots, id, [], 0);
      if |slots| > 1 {
        slots := Filter(slots, IdIsNot(id));
      }
    }

    method RemoveFile(uploadId: int, fileIndex: int)
      requires ValidSlots(slots)
      modifies this
      ensures slots == WithoutFileAt(old(slots), uploadId, fileIndex) && ValidSlots(slots)
    {
      SlotOpsKeepValid(slots, uploadId, [], fileIndex);
      slots := Map(slots, SpliceIn(uploadId, fileIndex));
    }

    /** `setFileUploads([{ id: 1, files: [] }])`. */
    method Reset()
      modifies this
      ensures slots == InitialSlots && ValidSlots(slots)
    {
      slots := InitialSlots;
    }
  }
}
