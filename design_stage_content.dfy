/** The design stage panel (`components/design-stage-content.tsx`): the design and print file lists,
    which a new choice replaces, and the groups of meeting-minute files. A file is represented by its
    name. */
module DesignStageContent {
  import opened Util

  /** `newFiles[index] = Array.from(e.target.files)` on a copy of the groups, for a non-empty choice. */
  function ReplaceGroup(groups: seq<seq<string>>, index: nat, files: seq<string>): seq<seq<string>>
    requires index < |groups|
  {
    if files == [] then groups else groups[index := files]
  }

  /** Only the group at `index` changes, to exactly the chosen files; the number of groups stays. */
  lemma ReplaceGroupOnlyThatGroup(groups: seq<seq<string>>, index: nat, files: seq<string>, i: nat)
    requires index < |groups| && i < |groups|
    ensures |ReplaceGroup(groups, index, files)| == |groups|
    ensures ReplaceGroup(groups, index, files)[i] == if i == index && files != [] then files else groups[i]
  {
  }

  /** The remove button is offered only when there is more than one group; a removal offered that way
      drops exactly the group at the index, moving the later groups down by one, and leaves at least
      one group. */
  lemma OfferedRemovalKeepsAGroup(groups: seq<seq<string>>, index: nat, i: nat)
    requires |groups| > 1 && index < |groups|
    ensures var r := JsRemoveAt(groups, index);
      |r| == |groups| - 1 && |r| >= 1 &&
      (i < index ==> r[i] == groups[i]) &&
      (index <= i < |r| ==> r[i] == groups[i + 1])
  {
  }

  /** The function itself has no guard: called on the single group it leaves none. */
  lemma UnguardedRemovalEmpties()
    ensures JsRemoveAt<seq<string>>([[]], 0) == []
  {
  }

  class DesignStage {
    var designFiles: seq<string>
    var printFiles: seq<string>
    var meetingFiles: seq<seq<string>>
    var specialNotes: string

    /** One empty meeting group and no files. */
    constructor ()
      ensures designFiles == [] && printFiles == [] && meetingFiles == [[]] && specialNotes == ""
    {
      designFiles, printFiles := [], [];
      meetingFiles := [[]];
      specialNotes := "";
    }

    /** `handleDesignFileChange`: a non-empty choice replaces the list, an empty one is ignored. */
    method HandleDesignFileChange(files: seq<string>)
      modifies this`designFiles
      ensures designFiles == if files == [] then old(designFiles) else files
    {
      if |files| > 0 {
        designFiles := files;
      }
    }

    /** `handlePrintFileChange`, the same for the print files. */
    method HandlePrintFileChange(files: seq<string>)
      modifies this`printFiles
      ensures printFiles == if files == [] then old(printFiles) else files
    {
      if |files| > 0 {
        printFiles := files;
      }
    }

    /** `handleMeetingFileChange(e, index)`, called from the group at `index`. */
    method HandleMeetingFileChange(files: seq<string>, index: nat)
      requires index < |meetingFiles|
      modifies this`meetingFiles
      ensures meetingFiles == ReplaceGroup(old(meetingFiles), index, files)
    {
      if |files| > 0 {
        var newFiles := meetingFiles;
        newFiles := newFiles[index := files];
        meetingFiles := newFiles;
      }
    }

    /** `addMeetingFileGroup()`: exactly one empty group is appended. */
    method AddMeetingFileGroup()
      modifies this`meetingFiles
      ensures meetingFiles == old(meetingFiles) + [[]]
    {
      meetingFiles := meetingFiles + [[]];
    }

    /** `removeMeetingFileGroup(index)`: the copy-then-`splice`, without a guard. */
    method RemoveMeetingFileGroup(index: int)
      modifies this`meetingFiles
      ensures meetingFiles == JsRemoveAt(old(meetingFiles), index)
    {
      var newFiles := meetingFiles;
      newFiles := JsRemoveAt(newFiles, index);
      meetingFiles := newFiles;
    }

    method SetSpecialNotes(text: string)
      modifies this`specialNotes
      ensures specialNotes == text
    {
      specialNotes := text;
    }
  }
}
