/**
 * The theme-file editor (src/components/wordpress/github/ThemeFilesSection.tsx): a list of
 * files owned by the parent component, a selected index, and a path input for a new file.
 *
 * The file records are objects shared with the parent: an edit copies the array but writes
 * the selected record in place, so the parent's own record changes too. The parent's state is
 * a `ThemeFileList` object and `onFileChange` is a call on it.
 */
module ThemeFilesSection {
  /** One theme file; a record the parent and the section share. */
  class ThemeFile {
    var path: string
    var content: string

    constructor(path: string, content: string)
      ensures this.path == path && this.content == content
    {
      this.path := path;
      this.content := content;
    }
  }

  /** The parent's file list, replaced through `onFileChange`. */
  class ThemeFileList {
    var files: seq<ThemeFile>

    constructor(files: seq<ThemeFile>)
      ensures this.files == files
    {
      this.files := files;
    }

    method OnFileChange(updated: seq<ThemeFile>)
      modifies this
      ensures files == updated
    {
      files := updated;
    }
  }

  /** `newFileContent || " "`: the content a new file gets. */
  function NewFileContent(newFileContent: string): (r: string)
    ensures r != ""
    ensures newFileContent != "" ==> r == newFileContent
    ensures newFileContent == "" ==> r == " "
  {
    if newFileContent != "" then newFileContent else " "
  }

  /** The header above the editor: the selected file's path, or "Filinnhold" when none or empty. */
  function DisplayedPath(files: seq<ThemeFile>, selected: int): string
    reads files
  {
    if 0 <= selected < |files| && files[selected].path != "" then files[selected].path else "Filinnhold"
  }

  /** The editor's text: the selected file's content, or "" when there is no such file. */
  function DisplayedContent(files: seq<ThemeFile>, selected: int): string
    reads files
  {
    if 0 <= selected < |files| then files[selected].content else ""
  }

  class Section {
    var selectedFile: int
    var newFilePath: string
    var newFileContent: string

    constructor()
      ensures selectedFile == 0 && newFilePath == "" && newFileContent == ""
    {
      selectedFile := 0;
      newFilePath := "";
      newFileContent := "";
    }

    /** A click on the file at `index` selects it. */
    method SelectFile(index: nat)
      modifies this
      ensures selectedFile == index
      ensures newFilePath == old(newFilePath) && newFileContent == old(newFileContent)
    {
      selectedFile := index;
    }

    method OnPathInput(text: string)
      modifies this
      ensures newFilePath == text
      ensures selectedFile == old(selectedFile) && newFileContent == old(newFileContent)
    {
      newFilePath := text;
    }

    /**
     * `handleAddFile`: with an empty path nothing happens. Otherwise the parent receives its
     * files followed by one new record, both inputs are cleared, and the selection stays.
     * No input of the section edits `newFileContent`: it starts as "" and is only ever reset to
     * "", so from the initial state every added file gets the content " ".
     */
    method HandleAddFile(parent: ThemeFileList)
      modifies this, parent
      ensures selectedFile == old(selectedFile)
      ensures old(newFilePath) == "" ==>
        parent.files == old(parent.files) && newFilePath == "" && newFileContent == old(newFileContent)
      ensures old(newFilePath) != "" ==>
        && |parent.files| == |old(parent.files)| + 1
        && parent.files[..|old(parent.files)|] == old(parent.files)
        && fresh(parent.files[|old(parent.files)|])
        && parent.files[|old(parent.files)|].path == old(newFilePath)
        && parent.files[|old(parent.files)|].content == NewFileContent(old(newFileContent))
        && newFilePath == "" && newFileContent == ""
      ensures old(newFileContent) == "" ==> newFileContent == ""
      ensures old(newFilePath) != "" && old(newFileContent) == "" ==>
        parent.files[|old(parent.files)|].content == " "
    {
      if newFilePath != "" {
        var file := new ThemeFile(newFilePath, NewFileContent(newFileContent));
        var updated := parent.files + [file];
        assert updated[..|parent.files|] == parent.files;
        parent.OnFileChange(updated);
        newFilePath := "";
        newFileContent := "";
      }
    }

    /**
     * `handleUpdateFileContent`: the selected record's content is overwritten in place and the
     * parent receives a list of the same records. Every path stays, and a record other than the
     * selected one keeps its content. A selection past the end makes the write throw: `thrown`
     * is then true, nothing changes, and the editor shows its fallback header and no text.
     */
    method HandleUpdateFileContent(parent: ThemeFileList, content: string) returns (thrown: bool)
      modifies parent, parent.files
      ensures thrown <==> !(0 <= selectedFile < |old(parent.files)|)
      ensures parent.files == old(parent.files)
      ensures forall i :: 0 <= i < |parent.files| ==> parent.files[i].path == old(parent.files[i].path)
      ensures !thrown ==> parent.files[selectedFile].content == content
      ensures !thrown ==> DisplayedContent(parent.files, selectedFile) == content
      ensures thrown ==>
        DisplayedPath(parent.files, selectedFile) == "Filinnhold" && DisplayedContent(parent.files, selectedFile) == ""
      ensures forall i :: 0 <= i < |parent.files| && (thrown || parent.files[i] != parent.files[selectedFile]) ==>
        parent.files[i].content == old(parent.files[i].content)
    {
      if !(0 <= selectedFile < |parent.files|) {
        return true;
      }
      var updated := parent.files;
      updated[selectedFile].content := content;
      parent.OnFileChange(updated);
      thrown := false;
    }
  }
}
