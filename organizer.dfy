/** The organizer of core/organizer.py: it walks a directory, sorts the audio and playlist
    files it finds into groups by extension, creates a `<format>_files` folder per group and
    moves every file into its folder, renaming `name.ext` to `name_1.ext`, `name_2.ext`, ...
    while the destination is taken.

    The file system is a set of existing paths; a walk is the sequence of `(root, file names)`
    pairs `os.walk` yields; the folders `makedirs` cannot create and the files `shutil.move`
    cannot move (with the text of the exception) are parameters. */
module Organizer {
  import opened Wrappers
  import opened Text
  import opened Paths
  import opened Grouping

  const AUDIO_EXTENSIONS: seq<string> := [".mp3", ".wav", ".flac", ".aac", ".ogg", ".m4a", ".wma"]

  const PLAYLIST_EXTENSIONS: seq<string> := [".m3u", ".pls"]

  lemma ExtensionListsDisjoint()
    ensures forall e :: e in AUDIO_EXTENSIONS ==> e !in PLAYLIST_EXTENSIONS
  {
  }

  /** `os.path.splitext(path)[1].lower()` */
  function Extension(path: string): string {
    Lower(SplitExt(path).1)
  }

  /** The scan files a path as audio when its extension is an audio one, ... */
  predicate IsAudioPath(path: string) {
    Extension(path) in AUDIO_EXTENSIONS
  }

  /** ... and otherwise as a playlist when its extension is a playlist one. */
  predicate IsPlaylistPath(path: string) {
    Extension(path) !in AUDIO_EXTENSIONS && Extension(path) in PLAYLIST_EXTENSIONS
  }

  /** No path is filed twice, and being a playlist depends on the playlist list alone, since
      the lists share no extension. */
  lemma PlaylistByExtension(path: string)
    ensures IsPlaylistPath(path) <==> Extension(path) in PLAYLIST_EXTENSIONS
    ensures !(IsAudioPath(path) && IsPlaylistPath(path))
  {
    ExtensionListsDisjoint();
  }

  // ---------------------------------------------------------------------------------------
  // scan_directory_for_files

  /** The paths of the files listed in one visited directory. */
  function PathsIn(root: string, names: seq<string>): (paths: seq<string>)
    ensures |paths| == |names|
    decreases |names|
  {
    if names == [] then [] else PathsIn(root, names[..|names| - 1]) + [Join(root, names[|names| - 1])]
  }

  lemma {:induction false} PathsInAt(root: string, names: seq<string>, j: nat)
    requires j < |names|
    ensures PathsIn(root, names)[j] == Join(root, names[j])
    decreases |names|
  {
    if j < |names| - 1 {
      PathsInAt(root, names[..|names| - 1], j);
    }
  }

  /** The paths of all files of a walk, in the order `os.walk` reports them. */
  function WalkPaths(walk: seq<(string, seq<string>)>): seq<string>
    decreases |walk|
  {
    if walk == [] then []
    else
      var last := walk[|walk| - 1];
      WalkPaths(walk[..|walk| - 1]) + PathsIn(last.0, last.1)
  }

  /** The paths of one visited directory that pass `keep`. */
  function ScannedIn(root: string, names: seq<string>, keep: string -> bool): seq<string>
    decreases |names|
  {
    if names == [] then []
    else
      var path := Join(root, names[|names| - 1]);
      ScannedIn(root, names[..|names| - 1], keep) + (if keep(path) then [path] else [])
  }

  /** The paths of a whole walk that pass `keep`, in walk order. */
  function Scanned(walk: seq<(string, seq<string>)>, keep: string -> bool): seq<string>
    decreases |walk|
  {
    if walk == [] then []
    else
      var last := walk[|walk| - 1];
      Scanned(walk[..|walk| - 1], keep) + ScannedIn(last.0, last.1, keep)
  }

  lemma {:induction false} ScannedInMembers(root: string, names: seq<string>, keep: string -> bool, path: string)
    ensures path in ScannedIn(root, names, keep) <==> path in PathsIn(root, names) && keep(path)
    decreases |names|
  {
    if names != [] {
      ScannedInMembers(root, names[..|names| - 1], keep, path);
    }
  }

  /** A path is collected exactly when the walk reports it and it passes `keep` (for the scan,
      `IsAudioPath` or `IsPlaylistPath`). */
  lemma {:induction false} ScannedMembers(walk: seq<(string, seq<string>)>, keep: string -> bool, path: string)
    ensures path in Scanned(walk, keep) <==> path in WalkPaths(walk) && keep(path)
    decreases |walk|
  {
    if walk != [] {
      var last := walk[|walk| - 1];
      ScannedMembers(walk[..|walk| - 1], keep, path);
      ScannedInMembers(last.0, last.1, keep, path);
    }
  }

  /** `scan_directory_for_files` */
  method ScanDirectoryForFiles(walk: seq<(string, seq<string>)>) returns (audioFiles: seq<string>, playlistFiles: seq<string>)
    ensures audioFiles == Scanned(walk, IsAudioPath)
    ensures playlistFiles == Scanned(walk, IsPlaylistPath)
  {
    audioFiles, playlistFiles := [], [];
    var d := 0;
    while d < |walk|
      invariant 0 <= d <= |walk|
      invariant audioFiles == Scanned(walk[..d], IsAudioPath)
      invariant playlistFiles == Scanned(walk[..d], IsPlaylistPath)
    {
      var audioHere, playlistHere := ScanFolder(walk[d].0, walk[d].1);
      audioFiles, playlistFiles := audioFiles + audioHere, playlistFiles + playlistHere;
      assert walk[..d + 1][..d] == walk[..d];
      d := d + 1;
    }
    assert walk[..d] == walk;
  }

  /** The inner loop of `scan_directory_for_files`, over the files of one visited directory. */
  method ScanFolder(root: string, files: seq<string>) returns (audioFiles: seq<string>, playlistFiles: seq<string>)
    ensures audioFiles == ScannedIn(root, files, IsAudioPath)
    ensures playlistFiles == ScannedIn(root, files, IsPlaylistPath)
  {
    audioFiles, playlistFiles := [], [];
    var j := 0;
    while j < |files|
      invariant 0 <= j <= |files|
      invariant audioFiles == ScannedIn(root, files[..j], IsAudioPath)
      invariant playlistFiles == ScannedIn(root, files[..j], IsPlaylistPath)
    {
      assert files[..j + 1][..j] == files[..j];
      var filePath := Join(root, files[j]);
      var fileExt := Lower(SplitExt(filePath).1);
      if fileExt in AUDIO_EXTENSIONS {
        audioFiles := audioFiles + [filePath];
      } else if fileExt in PLAYLIST_EXTENSIONS {
        playlistFiles := playlistFiles + [filePath];
      }
      j := j + 1;
    }
    assert files[..j] == files;
  }

  // ---------------------------------------------------------------------------------------
  // group_files_by_format

  /** The extension without its dot, lower-cased: `""` for a path without one. */
  function FormatName(path: string): string {
    var ext := Extension(path);
    if StartsWith(ext, ".") then ext[1..] else ext
  }

  /** The format name is the extension of `splitext` less its dot. */
  lemma FormatNameOfExtension(path: string)
    ensures SplitExt(path).1 == [] ==> FormatName(path) == []
    ensures SplitExt(path).1 != [] ==> "." + FormatName(path) == Extension(path)
  {
    var ext := SplitExt(path).1;
    if ext != [] {
      assert Extension(path)[0] == LowerChar(ext[0]) == '.';
      assert Extension(path) == "." + Extension(path)[1..];
    }
  }

  /** `group_files_by_format` */
  method GroupFilesByFormat(files: seq<string>) returns (grouped: Groups)
    ensures grouped == Grouped(files, FormatName)
  {
    grouped := Empty;
    var i := 0;
    while i < |files|
      invariant 0 <= i <= |files|
      invariant grouped == Grouped(files[..i], FormatName)
    {
      var filePath := files[i];
      var fileExt := Lower(SplitExt(filePath).1);
      var formatName := if StartsWith(fileExt, ".") then fileExt[1..] else fileExt;
      assert formatName == FormatName(filePath);
      grouped := AddPath(grouped, formatName, filePath);
      GroupedSnoc(files[..i + 1], FormatName);
      assert files[..i + 1][..i] == files[..i];
      i := i + 1;
    }
    assert files[..i] == files;
  }

  // ---------------------------------------------------------------------------------------
  // create_format_folders

  function FolderPath(baseDirectory: string, formatName: string): string {
    Join(baseDirectory, formatName + "_files")
  }

  /** The folders made for `formats`, leaving out those whose `makedirs` fails. */
  function FormatFolders(baseDirectory: string, formats: seq<string>, failing: set<string>): map<string, string>
    decreases |formats|
  {
    if formats == [] then map[]
    else
      var folders := FormatFolders(baseDirectory, formats[..|formats| - 1], failing);
      var formatName := formats[|formats| - 1];
      var folderPath := FolderPath(baseDirectory, formatName);
      if folderPath in failing then folders else folders[formatName := folderPath]
  }

  /** A format has a folder exactly when it was asked for and its folder could be made, and
      that folder is `<format>_files` under the base directory. */
  lemma {:induction false} FormatFoldersAt(baseDirectory: string, formats: seq<string>, failing: set<string>, f: string)
    ensures f in FormatFolders(baseDirectory, formats, failing) <==>
            f in formats && FolderPath(baseDirectory, f) !in failing
    ensures f in FormatFolders(baseDirectory, formats, failing) ==>
            FormatFolders(baseDirectory, formats, failing)[f] == FolderPath(baseDirectory, f)
    decreases |formats|
  {
    if formats != [] {
      var init := formats[..|formats| - 1];
      FormatFoldersAt(baseDirectory, init, failing, f);
      assert formats == init + [formats[|formats| - 1]];
    }
  }

  /** `create_format_folders` */
  method CreateFormatFolders(baseDirectory: string, formats: seq<string>, failing: set<string>)
    returns (formatFolders: map<string, string>)
    ensures formatFolders == FormatFolders(baseDirectory, formats, failing)
  {
    formatFolders := map[];
    var i := 0;
    while i < |formats|
      invariant 0 <= i <= |formats|
      invariant formatFolders == FormatFolders(baseDirectory, formats[..i], failing)
    {
      var formatName := formats[i];
      var folderPath := Join(baseDirectory, formatName + "_files");
      if folderPath !in failing {
        formatFolders := formatFolders[formatName := folderPath];
      }
      assert formats[..i + 1][..i] == formats[..i];
      i := i + 1;
    }
    assert formats[..i] == formats;
  }

  // ---------------------------------------------------------------------------------------
  // The unique destination of move_files_to_format_folders

  /** `f"{base_name}_{counter}{ext}"` for `base_name, ext = os.path.splitext(file_name)`. */
  function Numbered(fileName: string, n: nat): string {
    var parts := SplitExt(fileName);
    parts.0 + "_" + NatToString(n) + parts.1
  }

  /** The destinations tried in turn: first the file's own name in the folder, then the
      numbered names `name_1.ext`, `name_2.ext`, ... */
  function Candidate(folderPath: string, fileName: string, n: nat): string {
    if n == 0 then Join(folderPath, fileName) else Join(folderPath, Numbered(fileName, n))
  }

  /** The first `n` candidates. */
  function Tried(folderPath: string, fileName: string, n: nat): set<string>
    decreases n
  {
    if n == 0 then {} else Tried(folderPath, fileName, n - 1) + {Candidate(folderPath, fileName, n - 1)}
  }

  /** `os.path.join` of a folder with names that do not start with a slash tells the names
      apart. */
  lemma JoinInjective(a: string, x: string, y: string)
    requires !StartsWith(x, "/") && !StartsWith(y, "/")
    ensures Join(a, x) == Join(a, y) ==> x == y
  {
    if a == [] || EndsWith(a, "/") {
      assert x == Join(a, x)[|a|..] && y == Join(a, y)[|a|..];
    } else {
      assert x == Join(a, x)[|a| + 1..] && y == Join(a, y)[|a| + 1..];
    }
  }

  /** A numbered name keeps the file name's first character, or starts with `_`, and is
      longer than the file name. */
  lemma NumberedShape(fileName: string, n: nat)
    requires '/' !in fileName
    ensures !StartsWith(Numbered(fileName, n), "/")
    ensures |Numbered(fileName, n)| > |fileName|
  {
    var parts := SplitExt(fileName);
    var name := Numbered(fileName, n);
    if parts.0 != [] {
      assert fileName[0] == (parts.0 + parts.1)[0] == parts.0[0];
      assert name[0] == fileName[0] && fileName[0] in fileName;
    } else {
      assert name[0] == '_';
    }
  }

  lemma NumberedInjective(fileName: string, m: nat, n: nat)
    ensures Numbered(fileName, m) == Numbered(fileName, n) ==> m == n
  {
    if Numbered(fileName, m) == Numbered(fileName, n) {
      var parts := SplitExt(fileName);
      var s := Numbered(fileName, m);
      var lo := |parts.0| + 1;
      assert NatToString(m) == s[lo..lo + |NatToString(m)|];
      assert NatToString(n) == s[lo..lo + |NatToString(n)|];
      NatToStringInjective(m, n);
    }
  }

  /** No two candidates are the same path, so every try is a new one. */
  lemma CandidatesDistinct(folderPath: string, fileName: string, m: nat, n: nat)
    requires '/' !in fileName
    requires m != n
    ensures Candidate(folderPath, fileName, m) != Candidate(folderPath, fileName, n)
  {
    NumberedShape(fileName, m);
    NumberedShape(fileName, n);
    if m == 0 {
      JoinInjective(folderPath, fileName, Numbered(fileName, n));
    } else if n == 0 {
      JoinInjective(folderPath, fileName, Numbered(fileName, m));
    } else {
      JoinInjective(folderPath, Numbered(fileName, m), Numbered(fileName, n));
      NumberedInjective(fileName, m, n);
    }
  }

  lemma {:induction false} CandidateNotTried(folderPath: string, fileName: string, m: nat, n: nat)
    requires '/' !in fileName
    requires m >= n
    ensures Candidate(folderPath, fileName, m) !in Tried(folderPath, fileName, n)
    decreases n
  {
    if n > 0 {
      CandidateNotTried(folderPath, fileName, m, n - 1);
      CandidatesDistinct(folderPath, fileName, m, n - 1);
    }
  }

  /** The first `n` candidates are `n` different paths. */
  lemma {:induction false} TriedSize(folderPath: string, fileName: string, n: nat)
    requires '/' !in fileName
    ensures |Tried(folderPath, fileName, n)| == n
    decreases n
  {
    if n > 0 {
      TriedSize(folderPath, fileName, n - 1);
      CandidateNotTried(folderPath, fileName, n - 1, n - 1);
    }
  }

  lemma {:induction false} TriedMembers(folderPath: string, fileName: string, n: nat, k: nat)
    requires k < n
    ensures Candidate(folderPath, fileName, k) in Tried(folderPath, fileName, n)
    decreases n
  {
    if k < n - 1 {
      TriedMembers(folderPath, fileName, n - 1, k);
    }
  }

  lemma {:induction false} SubsetSize(a: set<string>, b: set<string>)
    requires a <= b
    ensures |a| <= |b|
    decreases |a|
  {
    if a != {} {
      var x :| x in a;
      SubsetSize(a - {x}, b - {x});
    }
  }

  /** The first `n` candidates being taken bounds `n` by the number of existing paths. */
  lemma TriedBound(folderPath: string, fileName: string, existing: set<string>, n: nat)
    requires '/' !in fileName
    requires Tried(folderPath, fileName, n) <= existing
    ensures n <= |existing|
  {
    TriedSize(folderPath, fileName, n);
    SubsetSize(Tried(folderPath, fileName, n), existing);
  }

  /** The number of the first free candidate from `n` on, when the first `n` are taken. */
  function FirstFree(folderPath: string, fileName: string, existing: set<string>, n: nat): (m: nat)
    requires '/' !in fileName
    requires Tried(folderPath, fileName, n) <= existing
    ensures m >= n
    ensures Candidate(folderPath, fileName, m) !in existing
    ensures Tried(folderPath, fileName, m) <= existing
    decreases |existing| - n
  {
    if Candidate(folderPath, fileName, n) in existing then
      TriedBound(folderPath, fileName, existing, n + 1);
      FirstFree(folderPath, fileName, existing, n + 1)
    else n
  }

  /** Where a file named `fileName` lands in `folderPath`: the first candidate that does not
      exist; every candidate before it exists. */
  function Destination(folderPath: string, fileName: string, existing: set<string>): (dest: string)
    requires '/' !in fileName
    ensures dest !in existing
    ensures exists m: nat :: dest == Candidate(folderPath, fileName, m) && Tried(folderPath, fileName, m) <= existing
  {
    var m := FirstFree(folderPath, fileName, existing, 0);
    Candidate(folderPath, fileName, m)
  }

  /** The renaming loop of `move_files_to_format_folders`. */
  method UniqueDestination(folderPath: string, fileName: string, existing: set<string>) returns (destPath: string)
    requires '/' !in fileName
    ensures destPath == Destination(folderPath, fileName, existing)
  {
    destPath := Join(folderPath, fileName);
    if destPath in existing {
      var parts := SplitExt(fileName);
      var baseName, ext := parts.0, parts.1;
      var counter := 1;
      while destPath in existing
        invariant counter >= 1
        invariant destPath == Candidate(folderPath, fileName, counter - 1)
        invariant Tried(folderPath, fileName, counter - 1) <= existing
        invariant FirstFree(folderPath, fileName, existing, counter - 1) == FirstFree(folderPath, fileName, existing, 0)
        decreases |existing| - (counter - 1)
      {
        TriedBound(folderPath, fileName, existing, counter);
        var newName := baseName + "_" + NatToString(counter) + ext;
        destPath := Join(folderPath, newName);
        counter := counter + 1;
      }
    }
  }

  /** A file keeps its own name exactly when that name is free in the folder. */
  lemma DestinationKeepsFreeName(folderPath: string, fileName: string, existing: set<string>)
    requires '/' !in fileName
    ensures Destination(folderPath, fileName, existing) == Join(folderPath, fileName) <==>
            Join(folderPath, fileName) !in existing
  {
  }

  // ---------------------------------------------------------------------------------------
  // move_files_to_format_folders

  /** What the moves have done so far: files moved, error messages, the paths that exist. */
  datatype MoveState = MoveState(moved: nat, errors: seq<string>, existing: set<string>)

  /** The message recorded when `shutil.move` raises `e` for `filePath`. */
  function MoveErrorMessage(filePath: string, e: string): string {
    "Error moving " + filePath + ": " + e
  }

  /** One file moved into `folderPath` under its unique destination, or, when `shutil.move`
      raises (`moveError` maps the file to the exception text), one error recorded. */
  function MoveOne(s: MoveState, folderPath: string, filePath: string, moveError: map<string, string>): MoveState {
    var destPath := Destination(folderPath, Basename(filePath), s.existing);
    if filePath in moveError then s.(errors := s.errors + [MoveErrorMessage(filePath, moveError[filePath])])
    else MoveState(s.moved + 1, s.errors, s.existing - {filePath} + {destPath})
  }

  /** The files of one group moved in turn. */
  function MoveAll(s: MoveState, folderPath: string, files: seq<string>, moveError: map<string, string>): MoveState
    decreases |files|
  {
    if files == [] then s
    else MoveOne(MoveAll(s, folderPath, files[..|files| - 1], moveError), folderPath, files[|files| - 1], moveError)
  }

  /** The groups of `order` moved in turn, skipping the formats that have no folder. */
  function MoveGroups(s: MoveState, order: seq<string>, members: map<string, seq<string>>,
                      folders: map<string, string>, moveError: map<string, string>): MoveState
    requires forall k :: k in order ==> k in members
    decreases |order|
  {
    if order == [] then s
    else
      var r := MoveGroups(s, order[..|order| - 1], members, folders, moveError);
      var formatName := order[|order| - 1];
      if formatName in folders then MoveAll(r, folders[formatName], members[formatName], moveError) else r
  }

  /** Every file handled is either moved or reported, once. */
  lemma {:induction false} MoveAllCount(s: MoveState, folderPath: string, files: seq<string>, moveError: map<string, string>)
    ensures var r := MoveAll(s, folderPath, files, moveError);
            r.moved + |r.errors| == s.moved + |s.errors| + |files|
    decreases |files|
  {
    if files != [] {
      MoveAllCount(s, folderPath, files[..|files| - 1], moveError);
    }
  }

  /** The files under the formats of `order` that have a folder. */
  function Handled(order: seq<string>, members: map<string, seq<string>>, folders: map<string, string>): nat
    requires forall k :: k in order ==> k in members
    decreases |order|
  {
    if order == [] then 0
    else
      var formatName := order[|order| - 1];
      Handled(order[..|order| - 1], members, folders) + (if formatName in folders then |members[formatName]| else 0)
  }

  /** The files of the formats without a folder are neither moved nor reported. */
  lemma {:induction false} MoveGroupsCount(s: MoveState, order: seq<string>, members: map<string, seq<string>>,
                                           folders: map<string, string>, moveError: map<string, string>)
    requires forall k :: k in order ==> k in members
    ensures var r := MoveGroups(s, order, members, folders, moveError);
            r.moved + |r.errors| == s.moved + |s.errors| + Handled(order, members, folders)
    decreases |order|
  {
    if order != [] {
      var r := MoveGroups(s, order[..|order| - 1], members, folders, moveError);
      MoveGroupsCount(s, order[..|order| - 1], members, folders, moveError);
      var formatName := order[|order| - 1];
      if formatName in folders {
        MoveAllCount(r, folders[formatName], members[formatName], moveError);
      }
    }
  }

  /** At most every file is handled, and all of them when every format has its folder. */
  lemma {:induction false} HandledAtMostSum(order: seq<string>, members: map<string, seq<string>>, folders: map<string, string>)
    requires forall k :: k in order ==> k in members
    ensures Handled(order, members, folders) <= Sum(order, members)
    ensures (forall k :: k in order ==> k in folders) ==> Handled(order, members, folders) == Sum(order, members)
    decreases |order|
  {
    if order != [] {
      HandledAtMostSum(order[..|order| - 1], members, folders);
    }
  }

  /** A move never overwrites: a file that exists is replaced by one new path, so the number
      of existing paths stays the same. */
  lemma MoveOneKeepsCount(s: MoveState, folderPath: string, filePath: string, moveError: map<string, string>)
    requires filePath in s.existing
    ensures |MoveOne(s, folderPath, filePath, moveError).existing| == |s.existing|
  {
    var destPath := Destination(folderPath, Basename(filePath), s.existing);
    assert destPath !in s.existing - {filePath};
  }

  /** The files moved and the errors reported together are at most `total_files`, and exactly
      that many when every format has its folder. */
  lemma MovedAtMostTotal(groupedFiles: Groups, formatFolders: map<string, string>, moveError: map<string, string>,
                         existing: set<string>)
    requires Valid(groupedFiles)
    ensures var r := MoveGroups(MoveState(0, [], existing), groupedFiles.order, groupedFiles.members, formatFolders, moveError);
            && r.moved + |r.errors| <= TotalSize(groupedFiles)
            && ((forall k :: k in groupedFiles.order ==> k in formatFolders) ==> r.moved + |r.errors| == TotalSize(groupedFiles))
  {
    MoveGroupsCount(MoveState(0, [], existing), groupedFiles.order, groupedFiles.members, formatFolders, moveError);
    HandledAtMostSum(groupedFiles.order, groupedFiles.members, formatFolders);
  }

  /** `move_files_to_format_folders`, returning the paths that exist afterwards as well. */
  method MoveFilesToFormatFolders(groupedFiles: Groups, formatFolders: map<string, string>,
                                  moveError: map<string, string>, existing: set<string>)
    returns (movedFiles: nat, totalFiles: nat, errors: seq<string>, existingAfter: set<string>)
    requires Valid(groupedFiles)
    ensures totalFiles == TotalSize(groupedFiles)
    ensures MoveState(movedFiles, errors, existingAfter) ==
            MoveGroups(MoveState(0, [], existing), groupedFiles.order, groupedFiles.members, formatFolders, moveError)
  {
    totalFiles := TotalSize(groupedFiles);
    var state := MoveState(0, [], existing);
    var order := groupedFiles.order;
    var i := 0;
    while i < |order|
      invariant 0 <= i <= |order|
      invariant state == MoveGroups(MoveState(0, [], existing), order[..i], groupedFiles.members, formatFolders, moveError)
    {
      var formatName := order[i];
      if formatName in formatFolders {
        state := MoveGroup(state, formatFolders[formatName], groupedFiles.members[formatName], moveError);
      }
      assert order[..i + 1][..i] == order[..i];
      i := i + 1;
    }
    assert order[..i] == order;
    movedFiles, errors, existingAfter := state.moved, state.errors, state.existing;
  }

  /** The inner loop of `move_files_to_format_folders`, over the files of one format. */
  method MoveGroup(s: MoveState, folderPath: string, files: seq<string>, moveError: map<string, string>)
    returns (r: MoveState)
    ensures r == MoveAll(s, folderPath, files, moveError)
  {
    var movedFiles, errors, existing := s.moved, s.errors, s.existing;
    var j := 0;
    while j < |files|
      invariant 0 <= j <= |files|
      invariant MoveState(movedFiles, errors, existing) == MoveAll(s, folderPath, files[..j], moveError)
    {
      var filePath := files[j];
      var fileName := Basename(filePath);
      var destPath := UniqueDestination(folderPath, fileName, existing);
      if filePath in moveError {
        errors := errors + [MoveErrorMessage(filePath, moveError[filePath])];
      } else {
        existing := existing - {filePath} + {destPath};
        movedFiles := movedFiles + 1;
      }
      assert files[..j + 1][..j] == files[..j];
      j := j + 1;
    }
    assert files[..j] == files;
    r := MoveState(movedFiles, errors, existing);
  }

  // ---------------------------------------------------------------------------------------
  // organize_files_by_format

  /** The `stats` dictionary. */
  datatype Stats = Stats(totalFiles: nat, movedFiles: nat, formats: map<string, nat>)

  /** The success flag, the stats (`None` for the empty dict of a failure), the errors, and
      the paths that exist afterwards. */
  datatype Outcome = Outcome(success: bool, stats: Option<Stats>, errors: seq<string>, existing: set<string>)

  /** What the two passes have gathered so far. */
  datatype Tally = Tally(moved: nat, total: nat, errors: seq<string>, formats: map<string, nat>, existing: set<string>)

  /** `format_stats[format_name] = len(files)` for the groups of `order`, in turn. */
  function Counts(formats: map<string, nat>, order: seq<string>, members: map<string, seq<string>>): map<string, nat>
    requires forall k :: k in order ==> k in members
    decreases |order|
  {
    if order == [] then formats
    else
      var formatName := order[|order| - 1];
      Counts(formats, order[..|order| - 1], members)[formatName := |members[formatName]|]
  }

  lemma {:induction false} CountsAt(formats: map<string, nat>, order: seq<string>, members: map<string, seq<string>>, k: string)
    requires forall j :: j in order ==> j in members
    ensures k in Counts(formats, order, members) <==> k in formats || k in order
    ensures k in order ==> Counts(formats, order, members)[k] == |members[k]|
    ensures k !in order && k in formats ==> Counts(formats, order, members)[k] == formats[k]
    decreases |order|
  {
    if order != [] {
      var init := order[..|order| - 1];
      CountsAt(formats, init, members, k);
      assert order == init + [order[|order| - 1]];
    }
  }

  /** One pass over the audio or the playlist files; nothing happens when there are none. */
  function Pass(t: Tally, directory: string, files: seq<string>, failing: set<string>, moveError: map<string, string>): Tally {
    if files == [] then t
    else
      var grouped := Grouped(files, FormatName);
      var folders := FormatFolders(directory, grouped.order, failing);
      var r := MoveGroups(MoveState(0, [], t.existing), grouped.order, grouped.members, folders, moveError);
      Tally(t.moved + r.moved, t.total + TotalSize(grouped), t.errors + r.errors,
            Counts(t.formats, grouped.order, grouped.members), r.existing)
  }

  const INVALID_DIRECTORY := "Invalid directory: "

  const NOTHING_FOUND := "No audio or playlist files found in the directory"

  /** `organize_files_by_format(directory)`, where `isDirectory` is `os.path.isdir(directory)`,
      `walk` is what `os.walk(directory)` yields, `failing` holds the folders `makedirs` cannot
      create, `moveError` the files `shutil.move` cannot move, and `existing` the paths that
      exist before. */
  function Organized(directory: string, isDirectory: bool, walk: seq<(string, seq<string>)>, failing: set<string>,
                     moveError: map<string, string>, existing: set<string>): Outcome {
    if !isDirectory then Outcome(false, None, [INVALID_DIRECTORY + directory], existing)
    else
      var audioFiles := Scanned(walk, IsAudioPath);
      var playlistFiles := Scanned(walk, IsPlaylistPath);
      if audioFiles == [] && playlistFiles == [] then Outcome(false, None, [NOTHING_FOUND], existing)
      else
        var t0 := Tally(0, 0, [], map[], existing);
        var t := Pass(Pass(t0, directory, audioFiles, failing, moveError), directory, playlistFiles, failing, moveError);
        Outcome(t.moved > 0, Some(Stats(t.total, t.moved, t.formats)), t.errors, t.existing)
  }

  /** A pass counts every file it is given, and moves or reports at most that many. */
  lemma PassCount(t: Tally, directory: string, files: seq<string>, failing: set<string>, moveError: map<string, string>)
    ensures var r := Pass(t, directory, files, failing, moveError);
            && r.total == t.total + |files|
            && r.moved + |r.errors| <= t.moved + |t.errors| + |files|
  {
    if files != [] {
      var grouped := Grouped(files, FormatName);
      var folders := FormatFolders(directory, grouped.order, failing);
      GroupedTotal(files, FormatName);
      MoveGroupsCount(MoveState(0, [], t.existing), grouped.order, grouped.members, folders, moveError);
      HandledAtMostSum(grouped.order, grouped.members, folders);
    }
  }

  /** Organizing fails with one message unless the directory exists and holds audio or
      playlist files; otherwise the stats count every file found, at most that many are moved
      or reported, and success means at least one file moved. */
  lemma OrganizedStats(directory: string, isDirectory: bool, walk: seq<(string, seq<string>)>, failing: set<string>,
                       moveError: map<string, string>, existing: set<string>)
    ensures var o := Organized(directory, isDirectory, walk, failing, moveError, existing);
            var audioFiles, playlistFiles := Scanned(walk, IsAudioPath), Scanned(walk, IsPlaylistPath);
            && (!isDirectory ==> o == Outcome(false, None, [INVALID_DIRECTORY + directory], existing))
            && (isDirectory && audioFiles == [] && playlistFiles == [] ==> o == Outcome(false, None, [NOTHING_FOUND], existing))
            && (o.stats.Some? <==> isDirectory && (audioFiles != [] || playlistFiles != []))
            && (o.stats.Some? ==> o.stats.value.totalFiles == |audioFiles| + |playlistFiles|)
            && (o.stats.Some? ==> o.stats.value.movedFiles + |o.errors| <= o.stats.value.totalFiles)
            && (o.success <==> o.stats.Some? && o.stats.value.movedFiles > 0)
  {
    if isDirectory {
      var audioFiles, playlistFiles := Scanned(walk, IsAudioPath), Scanned(walk, IsPlaylistPath);
      var t0 := Tally(0, 0, [], map[], existing);
      PassCount(t0, directory, audioFiles, failing, moveError);
      PassCount(Pass(t0, directory, audioFiles, failing, moveError), directory, playlistFiles, failing, moveError);
    }
  }

  /** The format name of a filed path is its extension without the dot. */
  lemma FormatOfFiledPath(p: string)
    requires IsAudioPath(p) || IsPlaylistPath(p)
    ensures "." + FormatName(p) == Extension(p)
  {
    FormatNameOfExtension(p);
  }

  /** An audio file and a playlist file never share a format. */
  lemma FormatsApart(p: string, q: string)
    ensures IsAudioPath(p) && IsPlaylistPath(q) ==> FormatName(p) != FormatName(q)
  {
    if IsAudioPath(p) && IsPlaylistPath(q) {
      FormatOfFiledPath(p);
      FormatOfFiledPath(q);
    }
  }

  /** No format has files in both passes. */
  lemma FormatFiledOnce(walk: seq<(string, seq<string>)>, k: string)
    ensures Having(Scanned(walk, IsAudioPath), FormatName, k) == [] || Having(Scanned(walk, IsPlaylistPath), FormatName, k) == []
  {
    var audioHaving := Having(Scanned(walk, IsAudioPath), FormatName, k);
    var playlistHaving := Having(Scanned(walk, IsPlaylistPath), FormatName, k);
    if audioHaving != [] && playlistHaving != [] {
      var p, q := audioHaving[0], playlistHaving[0];
      HavingMembers(Scanned(walk, IsAudioPath), FormatName, k, p);
      HavingMembers(Scanned(walk, IsPlaylistPath), FormatName, k, q);
      ScannedMembers(walk, IsAudioPath, p);
      ScannedMembers(walk, IsPlaylistPath, q);
      FormatsApart(p, q);
    }
  }

  /** A pass records, for each format of its files, how many files have that format, and
      keeps the counts of the other formats. */
  lemma PassFormats(t: Tally, directory: string, files: seq<string>, failing: set<string>,
                    moveError: map<string, string>, k: string)
    ensures var r := Pass(t, directory, files, failing, moveError);
            && (k in r.formats <==> k in t.formats || Having(files, FormatName, k) != [])
            && (Having(files, FormatName, k) != [] ==> r.formats[k] == |Having(files, FormatName, k)|)
            && (Having(files, FormatName, k) == [] && k in t.formats ==> r.formats[k] == t.formats[k])
  {
    if files != [] {
      var grouped := Grouped(files, FormatName);
      GroupedAt(files, FormatName, k);
      CountsAt(t.formats, grouped.order, grouped.members, k);
    }
  }

  /** The `formats` stats name exactly the formats of the files found, each with the number
      of files of that format. */
  lemma OrganizedFormats(directory: string, isDirectory: bool, walk: seq<(string, seq<string>)>, failing: set<string>,
                         moveError: map<string, string>, existing: set<string>, k: string)
    ensures var o := Organized(directory, isDirectory, walk, failing, moveError, existing);
            var audioHaving := Having(Scanned(walk, IsAudioPath), FormatName, k);
            var playlistHaving := Having(Scanned(walk, IsPlaylistPath), FormatName, k);
            o.stats.Some? ==>
              && (k in o.stats.value.formats <==> audioHaving != [] || playlistHaving != [])
              && (k in o.stats.value.formats ==> o.stats.value.formats[k] == |audioHaving| + |playlistHaving|)
  {
    var audioFiles, playlistFiles := Scanned(walk, IsAudioPath), Scanned(walk, IsPlaylistPath);
    if isDirectory && (audioFiles != [] || playlistFiles != []) {
      var t0 := Tally(0, 0, [], map[], existing);
      PassFormats(t0, directory, audioFiles, failing, moveError, k);
      PassFormats(Pass(t0, directory, audioFiles, failing, moveError), directory, playlistFiles, failing, moveError, k);
      FormatFiledOnce(walk, k);
    }
  }

  /** `organize_files_by_format`; the paths that exist afterwards are returned as well. */
  method OrganizeFilesByFormat(directory: string, isDirectory: bool, walk: seq<(string, seq<string>)>, failing: set<string>,
                               moveError: map<string, string>, existing: set<string>)
    returns (success: bool, stats: Option<Stats>, errors: seq<string>, existingAfter: set<string>)
    ensures Outcome(success, stats, errors, existingAfter) == Organized(directory, isDirectory, walk, failing, moveError, existing)
  {
    if !isDirectory {
      return false, None, [INVALID_DIRECTORY + directory], existing;
    }
    var audioFiles, playlistFiles := ScanDirectoryForFiles(walk);
    if audioFiles == [] && playlistFiles == [] {
      return false, None, [NOTHING_FOUND], existing;
    }
    var tally := Tally(0, 0, [], map[], existing);
    tally := ProcessFiles(tally, directory, audioFiles, failing, moveError);
    tally := ProcessFiles(tally, directory, playlistFiles, failing, moveError);
    success := tally.moved > 0;
    stats := Some(Stats(tally.total, tally.moved, tally.formats));
    errors, existingAfter := tally.errors, tally.existing;
  }

  /** The block `organize_files_by_format` runs for the audio files and again for the
      playlist files. */
  method ProcessFiles(t: Tally, directory: string, files: seq<string>, failing: set<string>, moveError: map<string, string>)
    returns (r: Tally)
    ensures r == Pass(t, directory, files, failing, moveError)
  {
    r := t;
    if files != [] {
      var grouped := GroupFilesByFormat(files);
      var formatFolders := CreateFormatFolders(directory, grouped.order, failing);
      var movedFiles, totalFiles, errors, existingAfter := MoveFilesToFormatFolders(grouped, formatFolders, moveError, t.existing);
      var formatStats := RecordFormatCounts(t.formats, grouped);
      r := Tally(t.moved + movedFiles, t.total + totalFiles, t.errors + errors, formatStats, existingAfter);
    }
  }

  /** `for format_name, files in grouped.items(): format_stats[format_name] = len(files)` */
  method RecordFormatCounts(formats: map<string, nat>, grouped: Groups) returns (formatStats: map<string, nat>)
    requires Valid(grouped)
    ensures formatStats == Counts(formats, grouped.order, grouped.members)
  {
    formatStats := formats;
    var i := 0;
    while i < |grouped.order|
      invariant 0 <= i <= |grouped.order|
      invariant formatStats == Counts(formats, grouped.order[..i], grouped.members)
    {
      var formatName := grouped.order[i];
      formatStats := formatStats[formatName := |grouped.members[formatName]|];
      assert grouped.order[..i + 1][..i] == grouped.order[..i];
      i := i + 1;
    }
    assert grouped.order[..i] == grouped.order;
  }
}
