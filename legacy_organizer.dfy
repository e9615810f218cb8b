/** The older organizer of resources/src/tracktidy/core/organizer.py: it lists the top level of
    a directory, groups the audio files by extension, creates a `<ext>_files` folder per group
    and moves each file into its folder, skipping a file whose name is already taken there.

    The directory listing, the entries that are directories, the paths that exist and the
    files `shutil.move` cannot move (with the exception text) are parameters. */
module LegacyOrganizer {
  import opened Wrappers
  import opened Text
  import opened Paths
  import opened Grouping
  import Organizer

  const AUDIO_EXTENSIONS: seq<string> := ["mp3", "flac", "wav", "m4a", "ogg", "aac", "wma", "aiff", "alac"]

  /** `get_file_extension`: the extension without its dot, lower-cased, `""` when there is none. */
  function GetFileExtension(filePath: string): (ext: string)
    ensures SplitExt(filePath).1 == [] ==> ext == ""
    ensures SplitExt(filePath).1 != [] ==> "." + ext == Lower(SplitExt(filePath).1)
  {
    var e := SplitExt(filePath).1;
    if e != [] then Lower(e[1..]) else ""
  }

  /** The older organizer names formats as the newer one does. */
  lemma GetFileExtensionIsFormatName(filePath: string)
    ensures GetFileExtension(filePath) == Organizer.FormatName(filePath)
  {
    Organizer.FormatNameOfExtension(filePath);
  }

  // ---------------------------------------------------------------------------------------
  // scan_directory

  /** The entries `scan_directory` keeps: files, not directories, with an extension, which
      must be an audio one when `audioOnly`. */
  predicate Kept(itemPath: string, directories: set<string>, audioOnly: bool) {
    && itemPath !in directories
    && (audioOnly ==> GetFileExtension(itemPath) in AUDIO_EXTENSIONS)
    && GetFileExtension(itemPath) != ""
  }

  /** The kept paths of a listing, in listing order. */
  function KeptPaths(directory: string, listing: seq<string>, directories: set<string>, audioOnly: bool): seq<string>
    decreases |listing|
  {
    if listing == [] then []
    else
      var itemPath := Join(directory, listing[|listing| - 1]);
      KeptPaths(directory, listing[..|listing| - 1], directories, audioOnly)
        + (if Kept(itemPath, directories, audioOnly) then [itemPath] else [])
  }

  lemma {:induction false} KeptPathsMembers(directory: string, listing: seq<string>, directories: set<string>,
                                            audioOnly: bool, p: string)
    ensures p in KeptPaths(directory, listing, directories, audioOnly) <==>
            p in Organizer.PathsIn(directory, listing) && Kept(p, directories, audioOnly)
    decreases |listing|
  {
    if listing != [] {
      KeptPathsMembers(directory, listing[..|listing| - 1], directories, audioOnly, p);
    }
  }

  const DIRECTORY_NOT_FOUND := "Directory not found: "

  /** `scan_directory(directory, audio_only)`, which raises `ValueError` for a missing directory. */
  function Scan(directory: string, isDirectory: bool, listing: seq<string>, directories: set<string>, audioOnly: bool): Result<Groups> {
    if !isDirectory then Failure(DIRECTORY_NOT_FOUND + directory)
    else Success(Grouped(KeptPaths(directory, listing, directories, audioOnly), GetFileExtension))
  }

  /** A listed path is in the group of its extension exactly when it is kept, in listing order
      within the group; no group is keyed by `""`, and with `audioOnly` every key is an audio
      extension. */
  lemma ScanGroups(directory: string, listing: seq<string>, directories: set<string>, audioOnly: bool, ext: string, p: string)
    ensures var g := Grouped(KeptPaths(directory, listing, directories, audioOnly), GetFileExtension);
            && (ext in g.members ==> ext != "" && (audioOnly ==> ext in AUDIO_EXTENSIONS))
            && (ext in g.members ==> g.members[ext] == Having(KeptPaths(directory, listing, directories, audioOnly), GetFileExtension, ext))
            && (p in Having(KeptPaths(directory, listing, directories, audioOnly), GetFileExtension, ext) <==>
                p in Organizer.PathsIn(directory, listing) && Kept(p, directories, audioOnly) && GetFileExtension(p) == ext)
  {
    var kept := KeptPaths(directory, listing, directories, audioOnly);
    GroupedAt(kept, GetFileExtension, ext);
    HavingMembers(kept, GetFileExtension, ext, p);
    KeptPathsMembers(directory, listing, directories, audioOnly, p);
    if ext in Grouped(kept, GetFileExtension).members {
      var q := Having(kept, GetFileExtension, ext)[0];
      HavingMembers(kept, GetFileExtension, ext, q);
      KeptPathsMembers(directory, listing, directories, audioOnly, q);
    }
  }

  /** The listing extended by one entry extends the kept paths by that entry when it is kept. */
  lemma KeptPathsStep(directory: string, listing: seq<string>, directories: set<string>, audioOnly: bool, i: nat)
    requires i < |listing|
    ensures var itemPath := Join(directory, listing[i]);
            KeptPaths(directory, listing[..i + 1], directories, audioOnly) ==
            KeptPaths(directory, listing[..i], directories, audioOnly) + (if Kept(itemPath, directories, audioOnly) then [itemPath] else [])
  {
    assert listing[..i + 1][..i] == listing[..i];
  }

  /** `scan_directory` */
  method ScanDirectory(directory: string, isDirectory: bool, listing: seq<string>, directories: set<string>, audioOnly: bool)
    returns (r: Result<Groups>)
    ensures r == Scan(directory, isDirectory, listing, directories, audioOnly)
  {
    if !isDirectory {
      return Failure(DIRECTORY_NOT_FOUND + directory);
    }
    var filesByExtension := Empty;
    var i := 0;
    while i < |listing|
      invariant 0 <= i <= |listing|
      invariant filesByExtension == Grouped(KeptPaths(directory, listing[..i], directories, audioOnly), GetFileExtension)
    {
      ghost var before := KeptPaths(directory, listing[..i], directories, audioOnly);
      var itemPath := Join(directory, listing[i]);
      KeptPathsStep(directory, listing, directories, audioOnly, i);
      ghost var after := KeptPaths(directory, listing[..i + 1], directories, audioOnly);
      i := i + 1;
      if itemPath in directories {
        assert after == before;
        continue;
      }
      var ext := GetFileExtension(itemPath);
      if audioOnly && ext !in AUDIO_EXTENSIONS {
        assert after == before;
        continue;
      }
      if ext != "" {
        filesByExtension := AddPath(filesByExtension, ext, itemPath);
        GroupedAppend(before, itemPath, GetFileExtension);
        assert after == before + [itemPath];
      } else {
        assert after == before;
      }
    }
    assert listing[..i] == listing;
    return Success(filesByExtension);
  }

  // ---------------------------------------------------------------------------------------
  // create_format_directories

  /** The folder of each extension: `<ext>_files` under `directory`. */
  function FormatDirectories(directory: string, extensions: set<string>): (dirs: map<string, string>)
    ensures forall ext :: ext in dirs <==> ext in extensions
  {
    map ext | ext in extensions :: Organizer.FolderPath(directory, ext)
  }

  /** `create_format_directories`, over the extensions in whatever order the set yields them. */
  method CreateFormatDirectories(directory: string, extensions: set<string>) returns (extensionDirs: map<string, string>)
    ensures extensionDirs == FormatDirectories(directory, extensions)
  {
    extensionDirs := map[];
    var rest := extensions;
    while rest != {}
      invariant rest <= extensions
      invariant extensionDirs == FormatDirectories(directory, extensions - rest)
      decreases |rest|
    {
      var ext :| ext in rest;
      var dirName := ext + "_files";
      extensionDirs := extensionDirs[ext := Join(directory, dirName)];
      rest := rest - {ext};
    }
    assert extensions - rest == extensions;
  }

  // ---------------------------------------------------------------------------------------
  // organize_files_by_format: the extension filter

  /** `[ext for ext in [e.lower() for e in requested] if ext in AUDIO_EXTENSIONS]` */
  function Wanted(requested: seq<string>): (wanted: seq<string>)
    ensures forall w :: w in wanted ==> w in AUDIO_EXTENSIONS
    decreases |requested|
  {
    if requested == [] then []
    else
      var ext := Lower(requested[|requested| - 1]);
      Wanted(requested[..|requested| - 1]) + (if ext in AUDIO_EXTENSIONS then [ext] else [])
  }

  /** An extension is wanted exactly when it is an audio one and some request lower-cases to it. */
  lemma {:induction false} WantedMembers(requested: seq<string>, w: string)
    ensures w in Wanted(requested) <==> w in AUDIO_EXTENSIONS && exists i :: 0 <= i < |requested| && Lower(requested[i]) == w
    decreases |requested|
  {
    if requested != [] {
      var init := requested[..|requested| - 1];
      WantedMembers(init, w);
      if exists i :: 0 <= i < |init| && Lower(init[i]) == w {
        var i :| 0 <= i < |init| && Lower(init[i]) == w;
        assert requested[i] == init[i];
      }
      if exists i :: 0 <= i < |requested| && Lower(requested[i]) == w {
        var i :| 0 <= i < |requested| && Lower(requested[i]) == w;
        if i < |init| {
          assert init[i] == requested[i];
        }
      }
    }
  }

  /** The dict of the groups of `order` whose lower-cased extension is wanted, in order. */
  function Filtered(order: seq<string>, members: map<string, seq<string>>, wanted: seq<string>): (r: Groups)
    requires forall k :: k in order ==> k in members
    ensures forall k :: k in r.members <==> k in order && Lower(k) in wanted
    ensures forall k :: k in r.members ==> r.members[k] == members[k]
    ensures forall k :: k in r.order ==> k in r.members
    ensures forall k :: k in r.members ==> k in r.order
    ensures Distinct(order) ==> Distinct(r.order)
    decreases |order|
  {
    if order == [] then Empty
    else
      var init := order[..|order| - 1];
      var ext := order[|order| - 1];
      var r := Filtered(init, members, wanted);
      assert Distinct(order) ==> Distinct(init) && ext !in init;
      if Lower(ext) in wanted then Groups(r.order + [ext], r.members[ext := members[ext]]) else r
  }

  lemma FilteredValid(g: Groups, wanted: seq<string>)
    requires Valid(g)
    ensures Valid(Filtered(g.order, g.members, wanted))
  {
  }

  /** The loop of `organize_files_by_format` that builds `filtered_extensions`. */
  method FilterExtensions(filesByExtension: Groups, wanted: seq<string>) returns (filtered: Groups)
    requires Valid(filesByExtension)
    ensures filtered == Filtered(filesByExtension.order, filesByExtension.members, wanted)
  {
    filtered := Empty;
    var order := filesByExtension.order;
    var i := 0;
    while i < |order|
      invariant 0 <= i <= |order|
      invariant filtered == Filtered(order[..i], filesByExtension.members, wanted)
    {
      var ext := order[i];
      assert order[..i + 1][..i] == order[..i];
      if Lower(ext) in wanted {
        filtered := Groups(filtered.order + [ext], filtered.members[ext := filesByExtension.members[ext]]);
      }
      i := i + 1;
    }
    assert order[..i] == order;
  }

  // ---------------------------------------------------------------------------------------
  // organize_files_by_format: the move loop

  function SkippedMessage(fileName: string, targetDir: string): string {
    "Skipped " + fileName + ": File already exists in " + targetDir
  }

  function FailedMessage(fileName: string, e: string): string {
    "Failed to move " + fileName + ": " + e
  }

  /** One file moved to `targetDir` under its own name: skipped with a message when that name is
      taken, reported when `shutil.move` raises, moved otherwise. */
  function MoveOne(s: Organizer.MoveState, targetDir: string, filePath: string, moveError: map<string, string>): Organizer.MoveState {
    var fileName := Basename(filePath);
    var targetPath := Join(targetDir, fileName);
    if targetPath in s.existing then s.(errors := s.errors + [SkippedMessage(fileName, targetDir)])
    else if filePath in moveError then s.(errors := s.errors + [FailedMessage(fileName, moveError[filePath])])
    else Organizer.MoveState(s.moved + 1, s.errors, s.existing - {filePath} + {targetPath})
  }

  /** A file is moved only to a free target, and then the target exists and the file no longer
      does. */
  lemma MoveOneNeverOverwrites(s: Organizer.MoveState, targetDir: string, filePath: string, moveError: map<string, string>)
    ensures var r := MoveOne(s, targetDir, filePath, moveError);
            var targetPath := Join(targetDir, Basename(filePath));
            && (r.moved == s.moved + 1 <==> targetPath !in s.existing && filePath !in moveError)
            && (r.moved == s.moved + 1 ==> r.existing == s.existing - {filePath} + {targetPath})
            && (r.moved == s.moved ==> r.existing == s.existing && |r.errors| == |s.errors| + 1)
  {
  }

  function MoveAll(s: Organizer.MoveState, targetDir: string, files: seq<string>, moveError: map<string, string>): Organizer.MoveState
    decreases |files|
  {
    if files == [] then s
    else MoveOne(MoveAll(s, targetDir, files[..|files| - 1], moveError), targetDir, files[|files| - 1], moveError)
  }

  function MoveGroups(s: Organizer.MoveState, order: seq<string>, members: map<string, seq<string>>,
                      dirs: map<string, string>, moveError: map<string, string>): Organizer.MoveState
    requires forall k :: k in order ==> k in members && k in dirs
    decreases |order|
  {
    if order == [] then s
    else
      var ext := order[|order| - 1];
      MoveAll(MoveGroups(s, order[..|order| - 1], members, dirs, moveError), dirs[ext], members[ext], moveError)
  }

  lemma {:induction false} MoveAllCount(s: Organizer.MoveState, targetDir: string, files: seq<string>, moveError: map<string, string>)
    ensures var r := MoveAll(s, targetDir, files, moveError);
            r.moved + |r.errors| == s.moved + |s.errors| + |files|
    decreases |files|
  {
    if files != [] {
      MoveAllCount(s, targetDir, files[..|files| - 1], moveError);
    }
  }

  /** Every file of every group is either moved or reported, once. */
  lemma {:induction false} MoveGroupsCount(s: Organizer.MoveState, order: seq<string>, members: map<string, seq<string>>,
                                           dirs: map<string, string>, moveError: map<string, string>)
    requires forall k :: k in order ==> k in members && k in dirs
    ensures var r := MoveGroups(s, order, members, dirs, moveError);
            r.moved + |r.errors| == s.moved + |s.errors| + Sum(order, members)
    decreases |order|
  {
    if order != [] {
      var ext := order[|order| - 1];
      MoveGroupsCount(s, order[..|order| - 1], members, dirs, moveError);
      MoveAllCount(MoveGroups(s, order[..|order| - 1], members, dirs, moveError), dirs[ext], members[ext], moveError);
    }
  }

  /** The inner loop over the files of one extension. */
  method MoveGroup(s: Organizer.MoveState, targetDir: string, files: seq<string>, moveError: map<string, string>)
    returns (r: Organizer.MoveState)
    ensures r == MoveAll(s, targetDir, files, moveError)
  {
    var filesMoved, errors, existing := s.moved, s.errors, s.existing;
    var j := 0;
    while j < |files|
      invariant 0 <= j <= |files|
      invariant Organizer.MoveState(filesMoved, errors, existing) == MoveAll(s, targetDir, files[..j], moveError)
    {
      assert files[..j + 1][..j] == files[..j];
      var filePath := files[j];
      j := j + 1;
      var fileName := Basename(filePath);
      var targetPath := Join(targetDir, fileName);
      if targetPath in existing {
        errors := errors + [SkippedMessage(fileName, targetDir)];
        continue;
      }
      if filePath in moveError {
        errors := errors + [FailedMessage(fileName, moveError[filePath])];
      } else {
        existing := existing - {filePath} + {targetPath};
        filesMoved := filesMoved + 1;
      }
    }
    assert files[..j] == files;
    r := Organizer.MoveState(filesMoved, errors, existing);
  }

  // ---------------------------------------------------------------------------------------
  // organize_files_by_format

  /** The result triple `(files_moved, formats organized, errors)`, and the paths that exist
      afterwards. */
  datatype Outcome = Outcome(filesMoved: nat, formats: nat, errors: seq<string>, existing: set<string>)

  const NOTHING_FOUND := "No audio files found to organize"

  /** The groups that are organized: all audio groups, or, when a non-empty list of extensions
      is requested, those of the requested audio extensions. */
  function Selected(g: Groups, requested: seq<string>): (r: Groups)
    requires Valid(g)
    ensures Valid(r)
  {
    FilteredValid(g, Wanted(requested));
    if requested == [] then g else Filtered(g.order, g.members, Wanted(requested))
  }

  /** `organize_files_by_format(directory, extensions_to_organize)`, where `None` and the empty
      list both ask for every format. */
  function Organized(directory: string, isDirectory: bool, listing: seq<string>, directories: set<string>,
                     requested: seq<string>, moveError: map<string, string>, existing: set<string>): Outcome {
    match Scan(directory, isDirectory, listing, directories, true)
    case Failure(e) => Outcome(0, 0, [e], existing)
    case Success(filesByExtension) =>
      var selected := Selected(filesByExtension, requested);
      if selected.order == [] then Outcome(0, 0, [NOTHING_FOUND], existing)
      else
        var dirs := FormatDirectories(directory, set k | k in selected.members);
        var r := MoveGroups(Organizer.MoveState(0, [], existing), selected.order, selected.members, dirs, moveError);
        Outcome(r.moved, |selected.order|, r.errors, r.existing)
  }

  /** When there is something to organize, `files_moved + len(errors)` is the number of files in
      the organized groups and the second component is the number of those groups; otherwise
      nothing moves and there is one message. */
  lemma OrganizedCount(directory: string, isDirectory: bool, listing: seq<string>, directories: set<string>,
                       requested: seq<string>, moveError: map<string, string>, existing: set<string>)
    ensures var o := Organized(directory, isDirectory, listing, directories, requested, moveError, existing);
            match Scan(directory, isDirectory, listing, directories, true)
            case Failure(e) => o == Outcome(0, 0, [DIRECTORY_NOT_FOUND + directory], existing)
            case Success(filesByExtension) =>
              var selected := Selected(filesByExtension, requested);
              && (selected.order == [] ==> o == Outcome(0, 0, [NOTHING_FOUND], existing))
              && (selected.order != [] ==> o.formats == |selected.order| && o.filesMoved + |o.errors| == TotalSize(selected))
  {
    match Scan(directory, isDirectory, listing, directories, true)
    case Failure(e) =>
    case Success(filesByExtension) =>
      var selected := Selected(filesByExtension, requested);
      if selected.order != [] {
        var dirs := FormatDirectories(directory, set k | k in selected.members);
        MoveGroupsCount(Organizer.MoveState(0, [], existing), selected.order, selected.members, dirs, moveError);
      }
  }

  /** With a non-empty request, an extension is organized exactly when files of it were found
      and it is an audio extension some request lower-cases to. */
  lemma SelectedExtensions(g: Groups, requested: seq<string>, ext: string)
    requires Valid(g)
    requires requested != []
    requires forall k :: k in g.members ==> Lower(k) == k
    ensures ext in Selected(g, requested).members <==>
            ext in g.members && ext in AUDIO_EXTENSIONS && exists i :: 0 <= i < |requested| && Lower(requested[i]) == ext
  {
    WantedMembers(requested, ext);
  }

  /** `organize_files_by_format`; the paths that exist afterwards are returned as well. */
  method OrganizeFilesByFormat(directory: string, isDirectory: bool, listing: seq<string>, directories: set<string>,
                               requested: seq<string>, moveError: map<string, string>, existing: set<string>)
    returns (filesMoved: nat, formats: nat, errors: seq<string>, existingAfter: set<string>)
    ensures Outcome(filesMoved, formats, errors, existingAfter) ==
            Organized(directory, isDirectory, listing, directories, requested, moveError, existing)
  {
    var scanned := ScanDirectory(directory, isDirectory, listing, directories, true);
    if scanned.Failure? {
      return 0, 0, [scanned.error], existing;
    }
    var filesByExtension := scanned.value;
    if requested != [] {
      var wanted := Wanted(requested);
      filesByExtension := FilterExtensions(filesByExtension, wanted);
    }
    if filesByExtension.order == [] {
      return 0, 0, [NOTHING_FOUND], existing;
    }
    var extensionDirs := CreateFormatDirectories(directory, set k | k in filesByExtension.members);
    var state := MoveFiles(filesByExtension, extensionDirs, moveError, existing);
    filesMoved, formats, errors, existingAfter := state.moved, |filesByExtension.order|, state.errors, state.existing;
  }

  /** The outer loop of the moves, over the groups in dict order. */
  method MoveFiles(filesByExtension: Groups, extensionDirs: map<string, string>, moveError: map<string, string>,
                   existing: set<string>) returns (state: Organizer.MoveState)
    requires forall k :: k in filesByExtension.order ==> k in filesByExtension.members && k in extensionDirs
    ensures state == MoveGroups(Organizer.MoveState(0, [], existing), filesByExtension.order, filesByExtension.members, extensionDirs, moveError)
  {
    state := Organizer.MoveState(0, [], existing);
    var order := filesByExtension.order;
    var i := 0;
    while i < |order|
      invariant 0 <= i <= |order|
      invariant state == MoveGroups(Organizer.MoveState(0, [], existing), order[..i], filesByExtension.members, extensionDirs, moveError)
    {
      var ext := order[i];
      state := MoveGroup(state, extensionDirs[ext], filesByExtension.members[ext], moveError);
      assert order[..i + 1][..i] == order[..i];
      i := i + 1;
    }
    assert order[..i] == order;
  }
}
