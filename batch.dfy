/** The batch processor of batch_processor.py: it collects the audio files of a directory,
    then edits the metadata of each or converts each, and tallies the outcomes.

    `glob.glob` is a parameter giving the matches of a pattern; the metadata editor and the
    converter are parameters giving the outcome of one call. The menus, prompts and progress
    display are not modelled. */
module Batch {
  import opened Wrappers
  import opened Text
  import opened Paths
  import opened Sorting
  import opened Grouping

  // ---------------------------------------------------------------------------------------
  // get_files_for_batch

  const AUDIO_EXTENSIONS: seq<string> := [".mp3", ".flac", ".wav", ".m4a", ".ogg", ".aac"]

  /** The extensions used when none are given: six audio types for "audio", `.mp3` alone for
      "mp3", and none (`None`) for any other file type. */
  function DefaultExtensions(fileType: string): (extensions: Option<seq<string>>)
    ensures extensions.Some? <==> fileType == "audio" || fileType == "mp3"
    ensures fileType == "mp3" ==> extensions == Some([".mp3"])
    ensures fileType == "audio" ==> extensions.Some? && |extensions.value| == 6 && ".mp3" in extensions.value
  {
    if fileType == "audio" then Some(AUDIO_EXTENSIONS)
    else if fileType == "mp3" then Some([".mp3"])
    else None
  }

  /** The patterns globbed, two per extension: as given, then upper-cased. */
  function Patterns(directory: string, extensions: seq<string>): (patterns: seq<string>)
    ensures |patterns| == 2 * |extensions|
    decreases |extensions|
  {
    if extensions == [] then []
    else
      var ext := extensions[|extensions| - 1];
      Patterns(directory, extensions[..|extensions| - 1]) + [Join(directory, "*" + ext), Join(directory, "*" + Upper(ext))]
  }

  /** The patterns of extension `k` stand at `2k` and `2k + 1`: `*ext`, then `*EXT`, both in
      `directory`. */
  lemma {:induction false} PatternsAt(directory: string, extensions: seq<string>, k: nat)
    requires k < |extensions|
    ensures Patterns(directory, extensions)[2 * k] == Join(directory, "*" + extensions[k])
    ensures Patterns(directory, extensions)[2 * k + 1] == Join(directory, "*" + Upper(extensions[k]))
    decreases |extensions|
  {
    var init := extensions[..|extensions| - 1];
    if k < |init| {
      PatternsAt(directory, init, k);
      assert init[k] == extensions[k];
    }
  }

  /** Every match of every pattern, in order, duplicates included. */
  function Globbed(patterns: seq<string>, glob: string -> seq<string>): seq<string>
    decreases |patterns|
  {
    if patterns == [] then [] else Globbed(patterns[..|patterns| - 1], glob) + glob(patterns[|patterns| - 1])
  }

  lemma {:induction false} GlobbedMembers(patterns: seq<string>, glob: string -> seq<string>, x: string)
    ensures x in Globbed(patterns, glob) <==> exists i :: 0 <= i < |patterns| && x in glob(patterns[i])
    decreases |patterns|
  {
    if patterns != [] {
      var init := patterns[..|patterns| - 1];
      GlobbedMembers(init, glob, x);
      if exists i :: 0 <= i < |init| && x in glob(init[i]) {
        var i :| 0 <= i < |init| && x in glob(init[i]);
        assert patterns[i] == init[i];
      }
      if exists i :: 0 <= i < |patterns| && x in glob(patterns[i]) {
        var i :| 0 <= i < |patterns| && x in glob(patterns[i]);
        if i < |init| {
          assert init[i] == patterns[i];
        }
      }
    }
  }

  /** The first occurrence of each path, in order: what `seen_paths` lets through. */
  function Unseen(s: seq<string>): seq<string>
    decreases |s|
  {
    if s == [] then []
    else
      var init := s[..|s| - 1];
      Unseen(init) + (if s[|s| - 1] in init then [] else [s[|s| - 1]])
  }

  lemma {:induction false} UnseenMembers(s: seq<string>)
    ensures forall x :: x in Unseen(s) <==> x in s
    ensures Distinct(Unseen(s))
    decreases |s|
  {
    if s != [] {
      var init := s[..|s| - 1];
      UnseenMembers(init);
      assert s == init + [s[|s| - 1]];
    }
  }

  lemma UnseenAppend(s: seq<string>, x: string)
    ensures Unseen(s + [x]) == Unseen(s) + (if x in s then [] else [x])
  {
    assert (s + [x])[..|s|] == s;
  }

  /** A permutation of a sequence without duplicates has none either. */
  lemma {:induction false} DistinctCount(s: seq<string>, x: string)
    requires Distinct(s)
    ensures multiset(s)[x] <= 1
    decreases |s|
  {
    if s != [] {
      var init := s[..|s| - 1];
      assert s == init + [s[|s| - 1]];
      assert Distinct(init);
      DistinctCount(init, x);
      if s[|s| - 1] == x {
        assert x !in init;
      }
    }
  }

  lemma DistinctPermutation(a: seq<string>, b: seq<string>)
    requires Distinct(a) && multiset(a) == multiset(b)
    ensures Distinct(b)
  {
    forall i, j | 0 <= i < j < |b|
      ensures b[i] != b[j]
    {
      DistinctCount(a, b[i]);
      RepeatCount(b, i, j);
    }
  }

  lemma RepeatCount(b: seq<string>, i: nat, j: nat)
    requires i < j < |b|
    ensures b[i] == b[j] ==> multiset(b)[b[i]] >= 2
  {
    assert b == b[..i] + [b[i]] + b[i + 1..j] + [b[j]] + b[j + 1..];
  }

  /** The files found in `directory` for `extensions`, sorted. */
  function CollectedFiles(directory: string, extensions: seq<string>, glob: string -> seq<string>): seq<string> {
    Sort(Unseen(Globbed(Patterns(directory, extensions), glob)))
  }

  /** The collected list is sorted and has no duplicates, ... */
  lemma CollectedFilesSorted(directory: string, extensions: seq<string>, glob: string -> seq<string>)
    ensures Sorted(CollectedFiles(directory, extensions, glob))
    ensures Distinct(CollectedFiles(directory, extensions, glob))
  {
    var found := Globbed(Patterns(directory, extensions), glob);
    UnseenMembers(found);
    DistinctPermutation(Unseen(found), Sort(Unseen(found)));
  }

  lemma SortMembers(s: seq<string>, x: string)
    ensures x in Sort(s) <==> x in s
  {
    assert x in Sort(s) <==> x in multiset(Sort(s));
    assert x in s <==> x in multiset(s);
  }

  /** ... and holds exactly the matches of the lower- and upper-case patterns. */
  lemma CollectedFilesMembers(directory: string, extensions: seq<string>, glob: string -> seq<string>, x: string)
    ensures var patterns := Patterns(directory, extensions);
            x in CollectedFiles(directory, extensions, glob) <==> exists i :: 0 <= i < |patterns| && x in glob(patterns[i])
  {
    var found := Globbed(Patterns(directory, extensions), glob);
    UnseenMembers(found);
    SortMembers(Unseen(found), x);
    GlobbedMembers(Patterns(directory, extensions), glob, x);
    assert x in CollectedFiles(directory, extensions, glob) <==> x in found;
  }

  /** A path is collected exactly when the glob of some extension, as given or upper-cased,
      returns it. */
  lemma CollectedFilesByExtension(directory: string, extensions: seq<string>, glob: string -> seq<string>, x: string)
    ensures x in CollectedFiles(directory, extensions, glob) <==>
            exists k :: 0 <= k < |extensions| && ExtensionMatches(directory, extensions[k], glob, x)
  {
    var patterns := Patterns(directory, extensions);
    CollectedFilesMembers(directory, extensions, glob, x);
    if x in CollectedFiles(directory, extensions, glob) {
      var i :| 0 <= i < |patterns| && x in glob(patterns[i]);
      PatternOfExtension(directory, extensions, glob, x, i);
    }
    if exists k :: 0 <= k < |extensions| && ExtensionMatches(directory, extensions[k], glob, x) {
      var k :| 0 <= k < |extensions| && ExtensionMatches(directory, extensions[k], glob, x);
      PatternsAt(directory, extensions, k);
      if x in glob(Join(directory, "*" + extensions[k])) {
        assert x in glob(patterns[2 * k]);
      } else {
        assert x in glob(patterns[2 * k + 1]);
      }
    }
  }

  /** The glob of `*ext` or of `*EXT` in `directory` returns `x`. */
  predicate ExtensionMatches(directory: string, ext: string, glob: string -> seq<string>, x: string) {
    x in glob(Join(directory, "*" + ext)) || x in glob(Join(directory, "*" + Upper(ext)))
  }

  /** A match of the pattern at `i` is a match of extension `i / 2`. */
  lemma PatternOfExtension(directory: string, extensions: seq<string>, glob: string -> seq<string>, x: string, i: nat)
    requires i < |Patterns(directory, extensions)| && x in glob(Patterns(directory, extensions)[i])
    ensures 0 <= i / 2 < |extensions| && ExtensionMatches(directory, extensions[i / 2], glob, x)
  {
    var k := i / 2;
    assert i == 2 * k || i == 2 * k + 1;
    PatternsAt(directory, extensions, k);
  }

  /** The patterns of one more extension, and what they add to the matches. */
  lemma PatternsStep(directory: string, extensions: seq<string>, glob: string -> seq<string>, i: nat)
    requires i < |extensions|
    ensures var lower, upper := Join(directory, "*" + extensions[i]), Join(directory, "*" + Upper(extensions[i]));
            Globbed(Patterns(directory, extensions[..i + 1]), glob) ==
            Globbed(Patterns(directory, extensions[..i]), glob) + glob(lower) + glob(upper)
  {
    var lower, upper := Join(directory, "*" + extensions[i]), Join(directory, "*" + Upper(extensions[i]));
    assert extensions[..i + 1][..i] == extensions[..i];
    var ps := Patterns(directory, extensions[..i]);
    assert (ps + [lower, upper])[..|ps| + 1] == ps + [lower];
    assert (ps + [lower])[..|ps|] == ps;
  }

  /** `get_files_for_batch` for one directory: the files found, sorted. */
  method CollectFiles(directory: string, extensions: seq<string>, glob: string -> seq<string>) returns (files: seq<string>)
    ensures files == CollectedFiles(directory, extensions, glob)
  {
    files := [];
    var seenPaths: set<string> := {};
    ghost var found: seq<string> := [];
    var i := 0;
    while i < |extensions|
      invariant 0 <= i <= |extensions|
      invariant found == Globbed(Patterns(directory, extensions[..i]), glob)
      invariant files == Unseen(found)
      invariant forall x :: x in seenPaths <==> x in found
    {
      var ext := extensions[i];
      PatternsStep(directory, extensions, glob, i);
      var pattern := Join(directory, "*" + ext);
      files, seenPaths := AddUnseen(files, seenPaths, glob(pattern), found);
      found := found + glob(pattern);
      pattern := Join(directory, "*" + Upper(ext));
      files, seenPaths := AddUnseen(files, seenPaths, glob(pattern), found);
      found := found + glob(pattern);
      i := i + 1;
    }
    assert extensions[..i] == extensions;
    files := Sort(files);
  }

  /** The loop over the matches of one pattern. */
  method AddUnseen(files: seq<string>, seenPaths: set<string>, matches: seq<string>, ghost found: seq<string>)
    returns (files': seq<string>, seenPaths': set<string>)
    requires files == Unseen(found)
    requires forall x :: x in seenPaths <==> x in found
    ensures files' == Unseen(found + matches)
    ensures forall x :: x in seenPaths' <==> x in found + matches
  {
    files', seenPaths' := files, seenPaths;
    ghost var seen := found;
    var j := 0;
    while j < |matches|
      invariant 0 <= j <= |matches|
      invariant seen == found + matches[..j]
      invariant files' == Unseen(seen)
      invariant forall x :: x in seenPaths' <==> x in seen
    {
      var filePath := matches[j];
      UnseenAppend(seen, filePath);
      assert matches[..j + 1] == matches[..j] + [filePath];
      if filePath !in seenPaths' {
        files' := files' + [filePath];
        seenPaths' := seenPaths' + {filePath};
      }
      seen := seen + [filePath];
      j := j + 1;
    }
    assert matches[..j] == matches;
  }

  // ---------------------------------------------------------------------------------------
  // The outcome tally of batch_metadata and batch_convert

  /** What one call of the editor or the converter did: returned true, returned false, or
      raised an exception with this text. */
  datatype Attempt = Succeeded | Failed | Raised(message: string)

  /** The `results` dictionary. */
  datatype Results = Results(success: nat, failed: nat, errors: seq<string>)

  /** One outcome recorded: `failedText` and `errorText` are the two message prefixes, such as
      "Failed to update " and "Error updating ". */
  function Record(r: Results, filename: string, attempt: Attempt, failedText: string, errorText: string): (r': Results)
    ensures r'.success + r'.failed == r.success + r.failed + 1
    ensures |r'.errors| - r'.failed == |r.errors| - r.failed
    ensures r'.success == r.success + 1 <==> attempt == Succeeded
  {
    match attempt
    case Succeeded => r.(success := r.success + 1)
    case Failed => Results(r.success, r.failed + 1, r.errors + [failedText + filename])
    case Raised(e) => Results(r.success, r.failed + 1, r.errors + [errorText + filename + ": " + e])
  }

  // ---------------------------------------------------------------------------------------
  // batch_metadata

  const FILENAME := "{filename}"

  const NUMBER := "{n}"

  /** The first space-separated token of the file name, taken as its track number. */
  function TrackNumber(filename: string): (token: string)
    ensures |token| <= |filename| && ' ' !in token && token == filename[..|token|]
    ensures |token| < |filename| ==> filename[|token|] == ' '
  {
    SplitFirstPiece(filename, ' ');
    Split(filename, ' ')[0]
  }

  /** The title given to one file: `{filename}` becomes the file name without its extension,
      then `{n}` becomes the track number when that is all digits. */
  function TitleFor(title: string, filename: string): string {
    var titled := if Contains(title, FILENAME) then Replace(title, FILENAME, SplitExt(filename).0) else title;
    var trackNum := TrackNumber(filename);
    if Contains(titled, NUMBER) && IsDigits(trackNum) then Replace(titled, NUMBER, trackNum) else titled
  }

  /** `file_metadata`: a copy of the updates whose title, if one is asked for, is filled in for
      this file; the other fields are the shared ones. */
  function FileMetadata(updates: map<string, string>, filename: string): (m: map<string, string>)
    ensures m.Keys == updates.Keys
    ensures forall k :: k in updates && k != "title" ==> m[k] == updates[k]
    ensures "title" in updates ==> m["title"] == TitleFor(updates["title"], filename)
  {
    if "title" in updates then updates["title" := TitleFor(updates["title"], filename)] else updates
  }

  /** A title without placeholders is used as it is. */
  lemma TitleWithoutPlaceholders(title: string, filename: string)
    requires !Contains(title, FILENAME) && !Contains(title, NUMBER)
    ensures TitleFor(title, filename) == title
  {
  }

  /** A title that is just `{filename}` becomes the file name without its extension (when that
      does not itself hold `{n}`). */
  lemma TitleOfFilename(filename: string)
    requires !Contains(SplitExt(filename).0, NUMBER)
    ensures TitleFor(FILENAME, filename) == SplitExt(filename).0
  {
    assert OccursAt(FILENAME, FILENAME, 0);
    ReplaceWhole(FILENAME, SplitExt(filename).0);
  }

  /** `{n}` stays as it is unless the file name starts with a run of digits followed by a space
      or the end. */
  lemma NumberNeedsDigits(title: string, filename: string)
    requires !Contains(title, FILENAME)
    requires !IsDigits(TrackNumber(filename))
    ensures TitleFor(title, filename) == title
  {
  }

  /** A title that is just `{n}` becomes the track number when that is all digits. */
  lemma TitleOfNumber(filename: string)
    requires IsDigits(TrackNumber(filename))
    ensures TitleFor(NUMBER, filename) == TrackNumber(filename)
  {
    assert !Contains(NUMBER, FILENAME);
    assert OccursAt(NUMBER, NUMBER, 0);
    ReplaceWhole(NUMBER, TrackNumber(filename));
  }

  /** The tally of the metadata edits of `files`, where `edit` is the outcome of
      `edit_metadata_file` on a file and its metadata. */
  function MetadataResults(files: seq<string>, updates: map<string, string>,
                           edit: (string, map<string, string>) -> Attempt): Results
    decreases |files|
  {
    if files == [] then Results(0, 0, [])
    else
      var file := files[|files| - 1];
      var filename := Basename(file);
      Record(MetadataResults(files[..|files| - 1], updates, edit), filename, edit(file, FileMetadata(updates, filename)),
             "Failed to update ", "Error updating ")
  }

  /** Every file is counted once, as a success or a failure, and each failure has one message. */
  lemma {:induction false} MetadataResultsCount(files: seq<string>, updates: map<string, string>,
                                                edit: (string, map<string, string>) -> Attempt)
    ensures var r := MetadataResults(files, updates, edit);
            r.success + r.failed == |files| && |r.errors| == r.failed
    decreases |files|
  {
    if files != [] {
      MetadataResultsCount(files[..|files| - 1], updates, edit);
    }
  }

  /** The processing part of `batch_metadata`: nothing is done (`None`) without files or
      without fields to change. */
  method BatchMetadata(files: seq<string>, updates: map<string, string>, edit: (string, map<string, string>) -> Attempt)
    returns (results: Option<Results>)
    ensures files == [] || updates == map[] ==> results == None
    ensures files != [] && updates != map[] ==> results == Some(MetadataResults(files, updates, edit))
  {
    if files == [] || updates == map[] {
      return None;
    }
    var r := EditAll(files, updates, edit);
    return Some(r);
  }

  /** The editing loop of `batch_metadata`. */
  method EditAll(files: seq<string>, updates: map<string, string>, edit: (string, map<string, string>) -> Attempt)
    returns (r: Results)
    ensures r == MetadataResults(files, updates, edit)
  {
    r := Results(0, 0, []);
    var i := 0;
    while i < |files|
      invariant 0 <= i <= |files|
      invariant r == MetadataResults(files[..i], updates, edit)
    {
      var file := files[i];
      var filename := Basename(file);
      var fileMetadata := FileMetadata(updates, filename);
      r := Record(r, filename, edit(file, fileMetadata), "Failed to update ", "Error updating ");
      assert files[..i + 1][..i] == files[..i];
      i := i + 1;
    }
    assert files[..i] == files;
  }

  // ---------------------------------------------------------------------------------------
  // batch_convert

  /** The output directory: the one given, or the directory of the first file when none is. */
  function OutputDirectory(requested: string, files: seq<string>): string
    requires files != []
  {
    if requested == [] then Dirname(files[0]) else requested
  }

  /** `output_dir/<base name>.<format>` */
  function OutputFile(outputDir: string, file: string, outputFormat: string): string {
    Join(outputDir, SplitExt(Basename(file)).0 + "." + outputFormat)
  }

  /** The converted file is named after the input file, with the output format as extension. */
  lemma OutputFileName(outputDir: string, file: string, outputFormat: string)
    requires '/' !in outputFormat
    ensures Basename(OutputFile(outputDir, file, outputFormat)) == SplitExt(Basename(file)).0 + "." + outputFormat
  {
    var parts := SplitExt(Basename(file));
    assert Basename(file) == parts.0 + parts.1;
    assert forall c :: c in parts.0 ==> c in Basename(file);
    BasenameOfJoin(outputDir, parts.0 + "." + outputFormat);
  }

  /** The tally of the conversions of `files` into `outputDir`, where `convert` is the outcome
      of `convert_audio_file` on an input and an output path. */
  function ConvertResults(files: seq<string>, outputDir: string, outputFormat: string,
                          convert: (string, string) -> Attempt): Results
    decreases |files|
  {
    if files == [] then Results(0, 0, [])
    else
      var file := files[|files| - 1];
      Record(ConvertResults(files[..|files| - 1], outputDir, outputFormat, convert), Basename(file),
             convert(file, OutputFile(outputDir, file, outputFormat)), "Failed to convert ", "Error converting ")
  }

  lemma {:induction false} ConvertResultsCount(files: seq<string>, outputDir: string, outputFormat: string,
                                               convert: (string, string) -> Attempt)
    ensures var r := ConvertResults(files, outputDir, outputFormat, convert);
            r.success + r.failed == |files| && |r.errors| == r.failed
    decreases |files|
  {
    if files != [] {
      ConvertResultsCount(files[..|files| - 1], outputDir, outputFormat, convert);
    }
  }

  /** The processing part of `batch_convert`: nothing is done (`None`) without files. */
  method BatchConvert(files: seq<string>, outputFormat: string, requestedDir: string, convert: (string, string) -> Attempt)
    returns (results: Option<Results>)
    ensures files == [] ==> results == None
    ensures files != [] ==> results == Some(ConvertResults(files, OutputDirectory(requestedDir, files), outputFormat, convert))
  {
    if files == [] {
      return None;
    }
    var outputDir := requestedDir;
    if outputDir == [] {
      outputDir := Dirname(files[0]);
    }
    var r := ConvertAll(files, outputDir, outputFormat, convert);
    return Some(r);
  }

  /** The conversion loop of `batch_convert`. */
  method ConvertAll(files: seq<string>, outputDir: string, outputFormat: string, convert: (string, string) -> Attempt)
    returns (r: Results)
    ensures r == ConvertResults(files, outputDir, outputFormat, convert)
  {
    r := Results(0, 0, []);
    var i := 0;
    while i < |files|
      invariant 0 <= i <= |files|
      invariant r == ConvertResults(files[..i], outputDir, outputFormat, convert)
    {
      var file := files[i];
      var filename := Basename(file);
      var baseName := SplitExt(Basename(file)).0;
      var outputFile := Join(outputDir, baseName + "." + outputFormat);
      r := Record(r, filename, convert(file, outputFile), "Failed to convert ", "Error converting ");
      assert files[..i + 1][..i] == files[..i];
      i := i + 1;
    }
    assert files[..i] == files;
  }
}
