/** The product form's image list (`components/product-form.tsx`): the chosen files and their preview
    URLs are kept in two parallel lists. A file is represented by its name; `createObjectUrl` stands
    for `URL.createObjectURL`, and the URLs handed to `URL.revokeObjectURL` are recorded in `revoked`. */
module ProductForm {
  import opened Util

  class Form {
    var files: seq<string>
    var preview: seq<string>
    var revoked: seq<string>

    /** Each file has exactly one preview, at the same position. */
    predicate Parallel()
      reads this
    {
      |files| == |preview|
    }

    constructor ()
      ensures files == [] && preview == [] && revoked == [] && Parallel()
    {
      files, preview, revoked := [], [], [];
    }

    /** `handleFileChange`: the new files are appended to `files` and one preview per new file to
        `preview`; an empty choice changes nothing. */
    method HandleFileChange(newFiles: seq<string>, createObjectUrl: string -> string)
      requires Parallel()
      modifies this`files, this`preview
      ensures Parallel()
      ensures files == old(files) + newFiles
      ensures preview == old(preview) + Map(newFiles, createObjectUrl)
    {
      if |newFiles| > 0 {
        files := files + newFiles;
        var newPreviews := Map(newFiles, createObjectUrl);
        preview := preview + newPreviews;
      }
    }

    /** `removeFile(index)`: the preview at the index is revoked, and both lists lose the entry at the
        index (as `splice(index, 1)` reads it), the rest keeping their order. */
    method RemoveFile(index: int)
      requires Parallel()
      modifies this`files, this`preview, this`revoked
      ensures Parallel()
      ensures files == JsRemoveAt(old(files), index) && preview == JsRemoveAt(old(preview), index)
      ensures revoked == old(revoked) + (if 0 <= index < |old(preview)| then [old(preview)[index]] else [])
    {
      var newFiles := files;
      var newPreviews := preview;
      if 0 <= index < |newPreviews| {
        revoked := revoked + [newPreviews[index]];
      }
      newFiles := JsRemoveAt(newFiles, index);
      newPreviews := JsRemoveAt(newPreviews, index);
      files := newFiles;
      preview := newPreviews;
    }
  }

  /** Removing a listed entry keeps each remaining file next to its own preview: position `i` after
      the removal holds the file and preview that were at `i` (before the index) or `i + 1` (after). */
  lemma RemoveKeepsPairs(files: seq<string>, preview: seq<string>, index: nat, i: nat)
    requires |files| == |preview| && index < |files|
    requires i < |files| - 1
    ensures var j := if i < index then i else i + 1;
      JsRemoveAt(files, index)[i] == files[j] && JsRemoveAt(preview, index)[i] == preview[j]
  {
  }

  /** Adding then removing the added file restores both lists, whatever was there before. */
  lemma AddThenRemoveLast(files: seq<string>, preview: seq<string>, f: string, url: string)
    requires |files| == |preview|
    ensures JsRemoveAt(files + [f], |files|) == files && JsRemoveAt(preview + [url], |preview|) == preview
  {
  }
}
