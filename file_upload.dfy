/**
 * The upload widget: a small state machine over the selection fields. A source is chosen by
 * dropping or picking a ZIP file, by typing a local path, or by typing a GitHub URL, and each
 * choice is announced through the component's outputs, which are returned here as a list.
 */
module FileUpload {
  import opened Wrappers
  import opened Text

  /** A browser `File`; only its name matters to the widget. */
  datatype FileRef = FileRef(name: string)

  datatype SourceKind = Zip | Folder | GitHub

  /** `UploadSource`; an absent optional field is `None`. */
  datatype UploadSource = UploadSource(
    kind: SourceKind, file: Option<FileRef>, folderPath: Option<string>, githubUrl: Option<string>, branch: Option<string>)

  /** What leaves the component: a `fileSelected` or `sourceSelected` event, or the alert box. */
  datatype Emission = FileSelected(file: FileRef) | SourceSelected(source: UploadSource) | Alert(message: string)

  /** All the fields of the component, read at once. */
  datatype State = State(
    isDragging: bool, selectedFile: Option<FileRef>, isLoading: bool, selectedFiles: seq<FileRef>, fileCount: int,
    folderPath: string, localSourceSelected: bool, isZipFile: bool, selectedSourceName: string,
    githubUrl: string, githubBranch: string, githubSelected: bool)

  /** The fields' initial values, which `clearSelection` also restores (except the drag flag). */
  function InitialState(): State
  {
    State(false, None, false, [], 0, "", false, false, "", "", "", false)
  }

  /** The source a dropped or picked ZIP file announces. */
  function ZipFileSource(file: FileRef): (s: UploadSource)
    ensures s.kind == Zip && s.file == Some(file)
    ensures s.folderPath.None? && s.githubUrl.None? && s.branch.None?
  {
    UploadSource(Zip, Some(file), None, None, None)
  }

  /** The source a typed local path announces: a ZIP path when it ends in ".zip" in any case, else a folder. */
  function LocalSource(folderPath: string): (s: UploadSource)
    ensures s.kind == Zip <==> EndsWith(Lower(JsTrim(folderPath)), ".zip")
    ensures s.kind != GitHub
    ensures s.folderPath == Some(JsTrim(folderPath))
    ensures s.file.None? && s.githubUrl.None? && s.branch.None?
  {
    var path := JsTrim(folderPath);
    UploadSource(if EndsWith(Lower(path), ".zip") then Zip else Folder, None, Some(path), None, None)
  }

  /** The source a typed GitHub URL announces; a blank branch is left out. */
  function GitHubSource(githubUrl: string, githubBranch: string): (s: UploadSource)
    ensures s.kind == GitHub && s.githubUrl == Some(JsTrim(githubUrl))
    ensures s.branch.None? <==> JsTrim(githubBranch) == ""
    ensures s.branch.Some? ==> s.branch.value == JsTrim(githubBranch)
    ensures s.file.None? && s.folderPath.None?
  {
    var branch := JsTrim(githubBranch);
    UploadSource(GitHub, None, None, Some(JsTrim(githubUrl)), if branch == "" then None else Some(branch))
  }

  /** A path's case does not change whether it is taken as a ZIP file. */
  lemma LocalSourceIgnoresCase(a: string, b: string)
    requires Lower(JsTrim(a)) == Lower(JsTrim(b))
    ensures LocalSource(a).kind == LocalSource(b).kind
  {
  }

  /** The trimmed path is what is announced, so surrounding blanks make no difference. */
  lemma LocalSourceTrims(folderPath: string)
    ensures LocalSource(JsTrim(folderPath)) == LocalSource(folderPath)
  {
    TrimIdempotent(folderPath, JsSpace);
  }

  class Uploader {
    var isDragging: bool
    var selectedFile: Option<FileRef>
    var isLoading: bool
    var selectedFiles: seq<FileRef>
    var fileCount: int
    var folderPath: string
    var localSourceSelected: bool
    var isZipFile: bool
    var selectedSourceName: string
    var githubUrl: string
    var githubBranch: string
    var githubSelected: bool

    function Snapshot(): State
      reads this
    {
      State(isDragging, selectedFile, isLoading, selectedFiles, fileCount, folderPath, localSourceSelected,
        isZipFile, selectedSourceName, githubUrl, githubBranch, githubSelected)
    }

    /**
     * The widget never has a GitHub and a local source selected together, and a selected file is
     * always a local ZIP source.
     */
    predicate Valid()
      reads this
    {
      !(githubSelected && localSourceSelected)
      && (selectedFile.Some? ==> localSourceSelected && isZipFile)
    }

    constructor ()
      ensures Snapshot() == InitialState()
      ensures Valid()
    {
      isDragging, selectedFile, isLoading, selectedFiles, fileCount := false, None, false, [], 0;
      folderPath, localSourceSelected, isZipFile, selectedSourceName := "", false, false, "";
      githubUrl, githubBranch, githubSelected := "", "", false;
    }

    /** The two-way bindings of the three text inputs. */
    method SetFolderPath(text: string)
      requires Valid()
      modifies this
      ensures Snapshot() == old(Snapshot()).(folderPath := text)
      ensures Valid()
    {
      folderPath := text;
    }

    method SetGithubUrl(text: string)
      requires Valid()
      modifies this
      ensures Snapshot() == old(Snapshot()).(githubUrl := text)
      ensures Valid()
    {
      githubUrl := text;
    }

    method SetGithubBranch(text: string)
      requires Valid()
      modifies this
      ensures Snapshot() == old(Snapshot()).(githubBranch := text)
      ensures Valid()
    {
      githubBranch := text;
    }

    /** `onDragOver` / `onDragLeave`: only the highlight changes. */
    method DragOver()
      requires Valid()
      modifies this
      ensures Snapshot() == old(Snapshot()).(isDragging := true)
      ensures Valid()
    {
      isDragging := true;
    }

    method DragLeave()
      requires Valid()
      modifies this
      ensures Snapshot() == old(Snapshot()).(isDragging := false)
      ensures Valid()
    {
      isDragging := false;
    }

    /**
     * `handleFile`: a name ending in ".zip" (case-sensitive) becomes the selected local ZIP
     * source, clearing the GitHub choice and the typed path; any other file only raises the alert.
     */
    method HandleFile(file: FileRef) returns (out: seq<Emission>)
      requires Valid()
      modifies this
      ensures EndsWith(file.name, ".zip") ==>
        Snapshot() == old(Snapshot()).(selectedFile := Some(file), localSourceSelected := true, isZipFile := true,
          selectedSourceName := file.name, githubSelected := false, folderPath := "")
        && out == [FileSelected(file), SourceSelected(ZipFileSource(file))]
      ensures !EndsWith(file.name, ".zip") ==>
        Snapshot() == old(Snapshot()) && out == [Alert("Please select a ZIP file")]
      ensures Valid()
    {
      if EndsWith(file.name, ".zip") {
        selectedFile := Some(file);
        localSourceSelected := true;
        isZipFile := true;
        selectedSourceName := file.name;
        githubSelected := false;
        folderPath := "";
        out := [FileSelected(file), SourceSelected(ZipFileSource(file))];
      } else {
        out := [Alert("Please select a ZIP file")];
      }
    }

    /** `onDrop`: the highlight goes off and the first dropped file, if any, is handled. */
    method Drop(files: seq<FileRef>) returns (out: seq<Emission>)
      requires Valid()
      modifies this
      ensures files == [] ==> Snapshot() == old(Snapshot()).(isDragging := false) && out == []
      ensures files != [] && EndsWith(files[0].name, ".zip") ==>
        Snapshot() == old(Snapshot()).(isDragging := false, selectedFile := Some(files[0]), localSourceSelected := true,
          isZipFile := true, selectedSourceName := files[0].name, githubSelected := false, folderPath := "")
        && out == [FileSelected(files[0]), SourceSelected(ZipFileSource(files[0]))]
      ensures files != [] && !EndsWith(files[0].name, ".zip") ==>
        Snapshot() == old(Snapshot()).(isDragging := false) && out == [Alert("Please select a ZIP file")]
      ensures Valid()
    {
      isDragging := false;
      out := [];
      if files != [] {
        out := HandleFile(files[0]);
      }
    }

    /**
     * `onFileSelected`: with a picked file the spinner starts; the file is handled when the
     * timer fires (`FilePickTimerElapsed`).
     */
    method PickFiles(files: seq<FileRef>) returns (pending: Option<FileRef>)
      requires Valid()
      modifies this
      ensures files == [] ==> Snapshot() == old(Snapshot()) && pending.None?
      ensures files != [] ==> Snapshot() == old(Snapshot()).(isLoading := true) && pending == Some(files[0])
      ensures Valid()
    {
      pending := None;
      if files != [] {
        isLoading := true;
        pending := Some(files[0]);
      }
    }

    method FilePickTimerElapsed(file: FileRef) returns (out: seq<Emission>)
      requires Valid()
      modifies this
      ensures EndsWith(file.name, ".zip") ==>
        Snapshot() == old(Snapshot()).(isLoading := false, selectedFile := Some(file), localSourceSelected := true,
          isZipFile := true, selectedSourceName := file.name, githubSelected := false, folderPath := "")
        && out == [FileSelected(file), SourceSelected(ZipFileSource(file))]
      ensures !EndsWith(file.name, ".zip") ==>
        Snapshot() == old(Snapshot()).(isLoading := false) && out == [Alert("Please select a ZIP file")]
      ensures Valid()
    {
      out := HandleFile(file);
      isLoading := false;
    }

    /**
     * `selectLocalSource`: a non-blank typed path becomes the selected local source (a ZIP path or
     * a folder), clearing the GitHub choice and any picked file; a blank path changes nothing.
     */
    method SelectLocalSource() returns (out: seq<Emission>)
      requires Valid()
      modifies this
      ensures old(JsTrim(folderPath)) == "" ==> Snapshot() == old(Snapshot()) && out == []
      ensures old(JsTrim(folderPath)) != "" ==>
        var source := LocalSource(old(folderPath));
        Snapshot() == old(Snapshot()).(localSourceSelected := true, isZipFile := source.kind == Zip,
          selectedSourceName := source.folderPath.value, githubSelected := false, selectedFile := None)
        && out == [SourceSelected(source)]
      ensures Valid()
    {
      out := [];
      var path := JsTrim(folderPath);
      if path != "" {
        out := ChooseLocalSource(LocalSource(folderPath));
      }
    }

    /** The body of `selectLocalSource` once the path is known to be non-blank. */
    method ChooseLocalSource(source: UploadSource) returns (out: seq<Emission>)
      requires Valid() && source.folderPath.Some?
      modifies this
      ensures Snapshot() == old(Snapshot()).(localSourceSelected := true, isZipFile := source.kind == Zip,
        selectedSourceName := source.folderPath.value, githubSelected := false, selectedFile := None)
      ensures out == [SourceSelected(source)]
      ensures Valid()
    {
      localSourceSelected := true;
      isZipFile := source.kind == Zip;
      selectedSourceName := source.folderPath.value;
      githubSelected := false;
      selectedFile := None;
      out := [SourceSelected(source)];
    }

    /**
     * `selectGitHub`: a non-blank URL becomes the selected source, clearing the local choice, the
     * picked file and the typed path; a blank URL changes nothing.
     */
    method SelectGitHub() returns (out: seq<Emission>)
      requires Valid()
      modifies this
      ensures old(JsTrim(githubUrl)) == "" ==> Snapshot() == old(Snapshot()) && out == []
      ensures old(JsTrim(githubUrl)) != "" ==>
        Snapshot() == old(Snapshot()).(githubSelected := true, localSourceSelected := false, selectedFile := None, folderPath := "")
        && out == [SourceSelected(GitHubSource(old(githubUrl), old(githubBranch)))]
      ensures Valid()
    {
      out := [];
      var url := JsTrim(githubUrl);
      if url != "" {
        out := ChooseGitHubSource(GitHubSource(githubUrl, githubBranch));
      }
    }

    /** The body of `selectGitHub` once the URL is known to be non-blank. */
    method ChooseGitHubSource(source: UploadSource) returns (out: seq<Emission>)
      requires Valid()
      modifies this
      ensures Snapshot() == old(Snapshot()).(githubSelected := true, localSourceSelected := false, selectedFile := None, folderPath := "")
      ensures out == [SourceSelected(source)]
      ensures Valid()
    {
      out := [SourceSelected(source)];
      githubSelected := true;
      localSourceSelected := false;
      selectedFile := None;
      folderPath := "";
    }

    /** `clearSelection`: every selection field back to its initial value; only the drag highlight stays. */
    method ClearSelection()
      modifies this
      ensures Snapshot() == InitialState().(isDragging := old(isDragging))
      ensures Valid()
    {
      selectedFile := None;
      selectedFiles := [];
      fileCount := 0;
      folderPath := "";
      githubUrl := "";
      githubBranch := "";
      localSourceSelected := false;
      githubSelected := false;
      isZipFile := false;
      selectedSourceName := "";
      isLoading := false;
    }
  }
}
