/** core/playlist.py: M3U and PLS playlists written from a list of track paths, the
    interactive track selection ("1,3,5-7" or "all") and the format dispatch.

    A playlist file is modelled by the lines written to it (each followed by a newline in the
    file). The set `isFile` holds the paths for which `os.path.isfile` is true; the timestamp
    of the default name is a parameter. */
module Playlist {
  import opened Wrappers
  import opened Text
  import opened Paths
  import Sorting

  const DEFAULT_NAME_PREFIX: string := "tracktidy_playlist_"

  /** The extension rule: `ext` is appended unless the name already ends with it, in any case. */
  function WithExtension(name: string, ext: string): string {
    if EndsWith(Lower(name), ext) then name else name + ext
  }

  /** The file name of a playlist: the given name, or `tracktidy_playlist_<timestamp>` when
      none (or the empty name) is given, with the extension rule applied. */
  function PlaylistFileName(playlistName: string, timestamp: string, ext: string): string {
    WithExtension(if playlistName == [] then DEFAULT_NAME_PREFIX + timestamp else playlistName, ext)
  }

  /** After the extension rule the name ends with the (lower-case) extension, it only ever
      gained characters at its end, and a second application changes nothing. */
  lemma WithExtensionShape(name: string, ext: string)
    requires Lower(ext) == ext
    ensures var r := WithExtension(name, ext);
            && EndsWith(Lower(r), ext)
            && StartsWith(r, name)
            && WithExtension(r, ext) == r
  {
    if !EndsWith(Lower(name), ext) {
      LowerAppend(name, ext);
      assert Lower(name + ext)[|name|..] == ext;
      assert (name + ext)[..|name|] == name;
    }
  }

  /** The 1-based positions of the tracks that exist, in order; these are the tracks a
      playlist lists (`enumerate(tracks, 1)` filtered by `os.path.isfile`). */
  function Present(tracks: seq<string>, isFile: set<string>): seq<nat>
    decreases |tracks|
  {
    if tracks == [] then []
    else
      Present(tracks[..|tracks| - 1], isFile)
      + (if tracks[|tracks| - 1] in isFile then [|tracks|] else [])
  }

  /** The positions are in range, strictly increasing, and are exactly those of the
      existing tracks. */
  lemma PresentShape(tracks: seq<string>, isFile: set<string>)
    ensures var p := Present(tracks, isFile);
            && (forall m :: 0 <= m < |p| ==> 1 <= p[m] <= |tracks| && tracks[p[m] - 1] in isFile)
            && (forall m, m' :: 0 <= m < m' < |p| ==> p[m] < p[m'])
            && (forall i :: 1 <= i <= |tracks| && tracks[i - 1] in isFile ==> i in p)
            && |p| <= |tracks|
  {
    PresentPositionsValid(tracks, isFile);
    PresentPositionsSorted(tracks, isFile);
    PresentPositionsComplete(tracks, isFile);
  }

  /** Every position names an existing track. */
  lemma {:induction false} PresentPositionsValid(tracks: seq<string>, isFile: set<string>)
    ensures var p := Present(tracks, isFile);
            && (forall m :: 0 <= m < |p| ==> 1 <= p[m] <= |tracks| && tracks[p[m] - 1] in isFile)
            && |p| <= |tracks|
    decreases |tracks|
  {
    if tracks != [] {
      var n := |tracks|;
      var init := tracks[..n - 1];
      PresentPositionsValid(init, isFile);
      var before := Present(init, isFile);
      var p := Present(tracks, isFile);
      assert p == before + (if tracks[n - 1] in isFile then [n] else []);
      forall m | 0 <= m < |p|
        ensures 1 <= p[m] <= n && tracks[p[m] - 1] in isFile
      {
        if m < |before| {
          assert init[before[m] - 1] == tracks[before[m] - 1];
        }
      }
    }
  }

  /** The positions strictly increase. */
  lemma {:induction false} PresentPositionsSorted(tracks: seq<string>, isFile: set<string>)
    ensures var p := Present(tracks, isFile);
            forall m, m' :: 0 <= m < m' < |p| ==> p[m] < p[m']
    decreases |tracks|
  {
    if tracks != [] {
      var n := |tracks|;
      var init := tracks[..n - 1];
      PresentPositionsSorted(init, isFile);
      PresentPositionsValid(init, isFile);
      var before := Present(init, isFile);
      var p := Present(tracks, isFile);
      assert p == before + (if tracks[n - 1] in isFile then [n] else []);
      forall m, m' | 0 <= m < m' < |p|
        ensures p[m] < p[m']
      {
        if m' < |before| {
          assert p[m] == before[m] && p[m'] == before[m'];
        } else {
          assert p[m] == before[m] <= n - 1;
        }
      }
    }
  }

  /** Every existing track has its position listed. */
  lemma {:induction false} PresentPositionsComplete(tracks: seq<string>, isFile: set<string>)
    ensures forall i: nat :: 1 <= i <= |tracks| && tracks[i - 1] in isFile ==> i in Present(tracks, isFile)
    decreases |tracks|
  {
    if tracks != [] {
      var n := |tracks|;
      var init := tracks[..n - 1];
      PresentPositionsComplete(init, isFile);
      var before := Present(init, isFile);
      var p := Present(tracks, isFile);
      assert p == before + (if tracks[n - 1] in isFile then [n] else []);
      forall i | 1 <= i <= n && tracks[i - 1] in isFile
        ensures i in p
      {
        if i < n {
          assert |init| == n - 1 && init[i - 1] == tracks[i - 1];
          assert 1 <= i <= |init| && init[i - 1] in isFile;
        } else {
          assert p[|p| - 1] == n;
        }
      }
    }
  }

  /** Every track exists exactly when every position is listed, and then the positions are
      1, 2, ..., |tracks|. */
  lemma {:induction false} PresentAll(tracks: seq<string>, isFile: set<string>)
    ensures var p := Present(tracks, isFile);
            && ((forall k :: 0 <= k < |tracks| ==> tracks[k] in isFile) <==> |p| == |tracks|)
            && (|p| == |tracks| ==> forall m :: 0 <= m < |p| ==> p[m] == m + 1)
    decreases |tracks|
  {
    if tracks != [] {
      var init := tracks[..|tracks| - 1];
      PresentAll(init, isFile);
      PresentShape(init, isFile);
      assert forall k :: 0 <= k < |init| ==> init[k] == tracks[k];
    }
  }

  /** The lines a playlist writes for its tracks: `entry(i, track)` for each existing track,
      `i` its 1-based position, in the order given. */
  function Entries(tracks: seq<string>, isFile: set<string>, entry: (nat, string) -> seq<string>): seq<string>
    decreases |tracks|
  {
    if tracks == [] then []
    else
      var last := tracks[|tracks| - 1];
      Entries(tracks[..|tracks| - 1], isFile, entry)
      + (if last in isFile then entry(|tracks|, last) else [])
  }

  /** One more track adds its entry when it exists. */
  lemma EntriesSnoc(tracks: seq<string>, i: nat, isFile: set<string>, entry: (nat, string) -> seq<string>)
    requires i < |tracks|
    ensures Entries(tracks[..i + 1], isFile, entry)
            == Entries(tracks[..i], isFile, entry) + (if tracks[i] in isFile then entry(i + 1, tracks[i]) else [])
  {
    assert tracks[..i + 1][..i] == tracks[..i];
  }

  /** The entries of the tracks at the given 1-based positions, in the order of the positions. */
  function EntriesAt(positions: seq<nat>, tracks: seq<string>, entry: (nat, string) -> seq<string>): seq<string>
    requires forall m :: 0 <= m < |positions| ==> 1 <= positions[m] <= |tracks|
    decreases |positions|
  {
    if positions == [] then []
    else
      var i := positions[|positions| - 1];
      EntriesAt(positions[..|positions| - 1], tracks, entry) + entry(i, tracks[i - 1])
  }

  /** Entries at positions inside a prefix of the tracks only see that prefix. */
  lemma {:induction false} EntriesAtPrefix(positions: seq<nat>, tracks: seq<string>, more: seq<string>,
                                           entry: (nat, string) -> seq<string>)
    requires forall m :: 0 <= m < |positions| ==> 1 <= positions[m] <= |tracks|
    ensures EntriesAt(positions, tracks + more, entry) == EntriesAt(positions, tracks, entry)
    decreases |positions|
  {
    if positions != [] {
      var i := positions[|positions| - 1];
      EntriesAtPrefix(positions[..|positions| - 1], tracks, more, entry);
      assert (tracks + more)[i - 1] == tracks[i - 1];
    }
  }

  /** The lines written for the tracks are the entries of the existing tracks, each numbered
      by its position among all the tracks given. */
  lemma {:induction false} EntriesOfPresent(tracks: seq<string>, isFile: set<string>,
                                            entry: (nat, string) -> seq<string>)
    ensures PresentInRange(tracks, isFile)
    ensures Entries(tracks, isFile, entry) == EntriesAt(Present(tracks, isFile), tracks, entry)
    decreases |tracks|
  {
    PresentShape(tracks, isFile);
    if tracks != [] {
      var n := |tracks|;
      var init := tracks[..n - 1];
      var p' := Present(init, isFile);
      EntriesOfPresent(init, isFile, entry);
      assert init + [tracks[n - 1]] == tracks;
      EntriesAtPrefix(p', init, [tracks[n - 1]], entry);
      var p := Present(tracks, isFile);
      if tracks[n - 1] in isFile {
        assert p == p' + [n];
        assert p[..|p| - 1] == p' && p[|p| - 1] == n;
        assert EntriesAt(p, tracks, entry) == EntriesAt(p', tracks, entry) + entry(n, tracks[n - 1]);
      } else {
        assert p == p';
      }
    }
  }

  predicate PresentInRange(tracks: seq<string>, isFile: set<string>) {
    var p := Present(tracks, isFile);
    forall m :: 0 <= m < |p| ==> 1 <= p[m] <= |tracks|
  }

  /** With entries of `width` lines, the lines of `k` entries number `width * k`. */
  lemma {:induction false} EntriesAtLength(positions: seq<nat>, tracks: seq<string>,
                                           entry: (nat, string) -> seq<string>, width: nat)
    requires forall m :: 0 <= m < |positions| ==> 1 <= positions[m] <= |tracks|
    requires forall i: nat, t: string :: |entry(i, t)| == width
    ensures |EntriesAt(positions, tracks, entry)| == width * |positions|
    decreases |positions|
  {
    if positions != [] {
      EntriesAtLength(positions[..|positions| - 1], tracks, entry, width);
      assert width * |positions| == width * (|positions| - 1) + width;
    }
  }

  // ---------------------------------------------------------------------------------------
  // M3U

  const M3U_HEADER: string := "#EXTM3U"

  /** Where an M3U entry points: the bare file name when the track lies directly in the
      playlist's directory, the path as given otherwise. */
  function M3uLocation(track: string, outputPath: string): string {
    if Dirname(track) == outputPath then Basename(track) else track
  }

  function M3uEntry(track: string, outputPath: string): seq<string> {
    ["#EXTINF:-1," + Basename(track), M3uLocation(track, outputPath)]
  }

  function M3uEntryAt(outputPath: string): (nat, string) -> seq<string> {
    (i: nat, track: string) => M3uEntry(track, outputPath)
  }

  function M3uLines(tracks: seq<string>, outputPath: string, isFile: set<string>): seq<string> {
    [M3U_HEADER] + Entries(tracks, isFile, M3uEntryAt(outputPath))
  }

  /** `create_m3u_playlist`: the path of the playlist and the lines written to it. */
  method CreateM3uPlaylist(tracks: seq<string>, outputPath: string, playlistName: string,
                           timestamp: string, isFile: set<string>)
    returns (playlistPath: string, lines: seq<string>)
    ensures playlistPath == Join(outputPath, PlaylistFileName(playlistName, timestamp, ".m3u"))
    ensures lines == M3uLines(tracks, outputPath, isFile)
  {
    var name := playlistName;
    if name == [] {
      name := DEFAULT_NAME_PREFIX + timestamp;
    }
    if !EndsWith(Lower(name), ".m3u") {
      name := name + ".m3u";
    }
    playlistPath := Join(outputPath, name);
    lines := [M3U_HEADER];
    var i := 0;
    while i < |tracks|
      invariant 0 <= i <= |tracks|
      invariant lines == [M3U_HEADER] + Entries(tracks[..i], isFile, M3uEntryAt(outputPath))
    {
      var trackPath := tracks[i];
      EntriesSnoc(tracks, i, isFile, M3uEntryAt(outputPath));
      if trackPath in isFile {
        ghost var before := lines;
        var trackName := Basename(trackPath);
        lines := lines + ["#EXTINF:-1," + trackName];
        if Dirname(trackPath) == outputPath {
          lines := lines + [Basename(trackPath)];
        } else {
          lines := lines + [trackPath];
        }
        assert lines == before + M3uEntryAt(outputPath)(i + 1, trackPath);
      }
      i := i + 1;
    }
    assert tracks[..i] == tracks;
  }

  /** An M3U playlist is the header followed by the two-line entry of each existing track
      (its `#EXTINF` line, then its location), in the order given. */
  lemma M3uLinesByTrack(tracks: seq<string>, outputPath: string, isFile: set<string>)
    ensures PresentInRange(tracks, isFile)
    ensures var p := Present(tracks, isFile);
            var lines := M3uLines(tracks, outputPath, isFile);
            && lines == [M3U_HEADER] + EntriesAt(p, tracks, M3uEntryAt(outputPath))
            && |lines| == 1 + 2 * |p|
  {
    var p := Present(tracks, isFile);
    EntriesOfPresent(tracks, isFile, M3uEntryAt(outputPath));
    var body := EntriesAt(p, tracks, M3uEntryAt(outputPath));
    assert M3uLines(tracks, outputPath, isFile) == [M3U_HEADER] + body;
    EntriesAtLength(p, tracks, M3uEntryAt(outputPath), 2);
  }

  /** A bare file name written for a track in the playlist's directory resolves back to the
      track from that directory (for a path without doubled slashes). */
  lemma M3uLocationResolves(track: string, outputPath: string)
    requires NoDoubleSlash(track) && Dirname(track) == outputPath
    ensures Join(outputPath, M3uLocation(track, outputPath)) == track
  {
    JoinDirnameBasename(track);
  }

  // ---------------------------------------------------------------------------------------
  // PLS

  const PLS_HEADER: string := "[playlist]"
  const PLS_COUNT_KEY: string := "NumberOfEntries="
  const PLS_VERSION: string := "Version=2"

  /** The three lines of the track at 1-based position `i`. */
  function PlsEntry(i: nat, track: string): seq<string> {
    [ "File" + NatToString(i) + "=" + track,
      "Title" + NatToString(i) + "=" + Basename(track),
      "Length" + NatToString(i) + "=-1" ]
  }

  function PlsLines(tracks: seq<string>, isFile: set<string>): seq<string> {
    [PLS_HEADER, PLS_COUNT_KEY + NatToString(|tracks|)] + Entries(tracks, isFile, PlsEntry) + [PLS_VERSION]
  }

  /** `create_pls_playlist`: the path of the playlist and the lines written to it. */
  method CreatePlsPlaylist(tracks: seq<string>, outputPath: string, playlistName: string,
                           timestamp: string, isFile: set<string>)
    returns (playlistPath: string, lines: seq<string>)
    ensures playlistPath == Join(outputPath, PlaylistFileName(playlistName, timestamp, ".pls"))
    ensures lines == PlsLines(tracks, isFile)
  {
    var name := playlistName;
    if name == [] {
      name := DEFAULT_NAME_PREFIX + timestamp;
    }
    if !EndsWith(Lower(name), ".pls") {
      name := name + ".pls";
    }
    playlistPath := Join(outputPath, name);
    ghost var header := [PLS_HEADER, PLS_COUNT_KEY + NatToString(|tracks|)];
    lines := [PLS_HEADER, PLS_COUNT_KEY + NatToString(|tracks|)];
    var i := 0;
    while i < |tracks|
      invariant 0 <= i <= |tracks|
      invariant lines == header + Entries(tracks[..i], isFile, PlsEntry)
    {
      var trackPath := tracks[i];
      EntriesSnoc(tracks, i, isFile, PlsEntry);
      ghost var before := lines;
      if trackPath in isFile {
        var trackName := Basename(trackPath);
        var number := NatToString(i + 1);
        lines := lines + ["File" + number + "=" + trackPath];
        lines := lines + ["Title" + number + "=" + trackName];
        lines := lines + ["Length" + number + "=-1"];
        assert lines == before + PlsEntry(i + 1, trackPath);
      }
      i := i + 1;
    }
    assert tracks[..i] == tracks;
    lines := lines + [PLS_VERSION];
  }

  /** The entries of a PLS playlist: the three-line entry of each existing track, numbered by
      the track's position in the input, so that a missing track leaves a gap in the
      numbering. */
  lemma PlsLinesByTrack(tracks: seq<string>, isFile: set<string>)
    ensures PresentInRange(tracks, isFile)
    ensures var p := Present(tracks, isFile);
            var lines := PlsLines(tracks, isFile);
            && lines == [PLS_HEADER, PLS_COUNT_KEY + NatToString(|tracks|)]
                        + EntriesAt(p, tracks, PlsEntry) + [PLS_VERSION]
            && |lines| == 3 + 3 * |p|
  {
    var p := Present(tracks, isFile);
    EntriesOfPresent(tracks, isFile, PlsEntry);
    var body := EntriesAt(p, tracks, PlsEntry);
    assert PlsLines(tracks, isFile) == [PLS_HEADER, PLS_COUNT_KEY + NatToString(|tracks|)] + body + [PLS_VERSION];
    EntriesAtLength(p, tracks, PlsEntry, 3);
  }

  /** The `NumberOfEntries` line reads back as the number of tracks given, existing or not. */
  lemma PlsCountReadsBack(tracks: seq<string>, isFile: set<string>)
    ensures var lines := PlsLines(tracks, isFile);
            && |lines| >= 3 && lines[0] == PLS_HEADER && lines[|lines| - 1] == PLS_VERSION
            && StartsWith(lines[1], PLS_COUNT_KEY)
            && ParseInt(lines[1][|PLS_COUNT_KEY|..]) == Some(|tracks|)
  {
    var lines := PlsLines(tracks, isFile);
    assert lines[1] == PLS_COUNT_KEY + NatToString(|tracks|);
    assert lines[1][|PLS_COUNT_KEY|..] == NatToString(|tracks|);
    ParseIntOfNatToString(|tracks|);
  }

  /** The count agrees with the number of entries written exactly when every track exists. */
  lemma PlsCountMatchesEntries(tracks: seq<string>, isFile: set<string>)
    ensures (forall k :: 0 <= k < |tracks| ==> tracks[k] in isFile)
            <==> |PlsLines(tracks, isFile)| == 3 + 3 * |tracks|
  {
    PlsLinesByTrack(tracks, isFile);
    PresentAll(tracks, isFile);
  }

  // ---------------------------------------------------------------------------------------
  // Selection of tracks from a directory

  const AUDIO_EXTENSIONS: seq<string> := [".mp3", ".flac", ".wav", ".aac", ".m4a", ".ogg"]

  /** A file name with one of the audio extensions, in any case. */
  predicate IsAudioName(file: string) {
    exists e | 0 <= e < |AUDIO_EXTENSIONS| :: EndsWith(Lower(file), AUDIO_EXTENSIONS[e])
  }

  /** The audio files among the names listed in one directory of the walk, joined to it. */
  function AudioIn(root: string, names: seq<string>): seq<string>
    decreases |names|
  {
    if names == [] then []
    else
      var last := names[|names| - 1];
      AudioIn(root, names[..|names| - 1]) + (if IsAudioName(last) then [Join(root, last)] else [])
  }

  /** The audio files of a whole walk: one `(root, file names)` pair per directory visited,
      in the order `os.walk` visits them. */
  function AudioFiles(walk: seq<(string, seq<string>)>): seq<string>
    decreases |walk|
  {
    if walk == [] then []
    else
      var last := walk[|walk| - 1];
      AudioFiles(walk[..|walk| - 1]) + AudioIn(last.0, last.1)
  }

  /** A file is collected exactly when it is an audio file listed in some visited directory. */
  lemma {:induction false} AudioFilesMembers(walk: seq<(string, seq<string>)>, path: string)
    ensures path in AudioFiles(walk) <==>
            exists d, j :: 0 <= d < |walk| && 0 <= j < |walk[d].1| && IsAudioName(walk[d].1[j])
                           && path == Join(walk[d].0, walk[d].1[j])
    decreases |walk|
  {
    if walk != [] {
      var init := walk[..|walk| - 1];
      var last := walk[|walk| - 1];
      AudioFilesMembers(init, path);
      AudioInMembers(last.0, last.1, path);
      assert forall d :: 0 <= d < |init| ==> init[d] == walk[d];
    }
  }

  lemma {:induction false} AudioInMembers(root: string, names: seq<string>, path: string)
    ensures path in AudioIn(root, names) <==>
            exists j :: 0 <= j < |names| && IsAudioName(names[j]) && path == Join(root, names[j])
    decreases |names|
  {
    if names != [] {
      var init := names[..|names| - 1];
      AudioInMembers(root, init, path);
      assert forall j :: 0 <= j < |init| ==> init[j] == names[j];
    }
  }

  /** The scan of `os.walk(directory)` for audio files. */
  method ScanAudioFiles(walk: seq<(string, seq<string>)>) returns (audioFiles: seq<string>)
    ensures audioFiles == AudioFiles(walk)
  {
    audioFiles := [];
    var d := 0;
    while d < |walk|
      invariant 0 <= d <= |walk|
      invariant audioFiles == AudioFiles(walk[..d])
    {
      var root := walk[d].0;
      var files := walk[d].1;
      var before := audioFiles;
      var j := 0;
      while j < |files|
        invariant 0 <= j <= |files|
        invariant audioFiles == before + AudioIn(root, files[..j])
      {
        assert files[..j + 1][..j] == files[..j];
        var file := files[j];
        var lowered := Lower(file);
        var e := 0;
        var isAudio := false;
        while e < |AUDIO_EXTENSIONS| && !isAudio
          invariant 0 <= e <= |AUDIO_EXTENSIONS|
          invariant isAudio <==> exists e' | 0 <= e' < e :: EndsWith(lowered, AUDIO_EXTENSIONS[e'])
        {
          isAudio := EndsWith(lowered, AUDIO_EXTENSIONS[e]);
          e := e + 1;
        }
        if isAudio {
          audioFiles := audioFiles + [Join(root, file)];
        }
        j := j + 1;
      }
      assert files[..j] == files;
      assert walk[..d + 1][..d] == walk[..d];
      d := d + 1;
    }
    assert walk[..d] == walk;
  }

  /** The outcome of a selection: the chosen tracks, and the error lines printed. */
  datatype Selection = Selection(tracks: seq<string>, messages: seq<string>)

  function Then(a: Selection, b: Selection): Selection {
    Selection(a.tracks + b.tracks, a.messages + b.messages)
  }

  function Max(a: int, b: int): int { if a < b then b else a }
  function Min(a: int, b: int): int { if a < b then a else b }

  /** The files numbered `start` to `end` (1-based, both included) that exist in the list, in
      ascending order: `files[i - 1]` for each `i` in `range(start, end + 1)` with
      `1 <= i <= len(files)`. */
  function PickRange(files: seq<string>, start: int, end: int): seq<string> {
    var lo := Max(start, 1);
    var hi := Min(end, |files|);
    if lo <= hi then files[lo - 1..hi] else []
  }

  lemma PickRangeStep(files: seq<string>, start: int, i: int)
    requires start <= i
    ensures PickRange(files, start, i)
            == PickRange(files, start, i - 1) + (if 1 <= i <= |files| then [files[i - 1]] else [])
  {
    var lo := Max(start, 1);
    if lo <= Min(i - 1, |files|) && 1 <= i <= |files| {
      assert files[lo - 1..i] == files[lo - 1..i - 1] + [files[i - 1]];
    }
  }

  /** The inner loop over `range(start, end + 1)`, appending to the selection so far. */
  method AppendRange(files: seq<string>, selected: seq<string>, start: int, end: int)
    returns (result: seq<string>)
    ensures result == selected + PickRange(files, start, end)
  {
    result := selected;
    var i := start;
    while i <= end
      invariant start <= i && (start <= end + 1 ==> i <= end + 1) && (end + 1 < start ==> i == start)
      invariant result == selected + PickRange(files, start, i - 1)
      decreases end - i
    {
      PickRangeStep(files, start, i);
      if 1 <= i <= |files| {
        result := result + [files[i - 1]];
      }
      i := i + 1;
    }
  }

  /** One comma-separated part: a range `a-b` when it holds a hyphen (any failure to read
      exactly two numbers is an invalid range), a single number otherwise. */
  function SelectPart(files: seq<string>, part: string): Selection {
    var p := Strip(part, IsSpace);
    if Contains(p, "-") then
      var pieces := Split(p, '-');
      if |pieces| == 2 && ParseInt(pieces[0]).Some? && ParseInt(pieces[1]).Some? then
        Selection(PickRange(files, ParseInt(pieces[0]).value, ParseInt(pieces[1]).value), [])
      else
        Selection([], ["Invalid range: " + p])
    else
      match ParseInt(p)
      case Some(i) =>
        if 1 <= i <= |files| then Selection([files[i - 1]], [])
        else Selection([], ["Number out of range: " + NatToString(i)])
      case None => Selection([], ["Invalid number: " + p])
  }

  /** `SelectPart` for a fixed list of files. */
  function PartPicker(files: seq<string>): string -> Selection {
    part => SelectPart(files, part)
  }

  /** The outcomes of the parts, one after the other. */
  function SelectParts(pick: string -> Selection, parts: seq<string>): Selection
    decreases |parts|
  {
    if parts == [] then Selection([], [])
    else Then(SelectParts(pick, parts[..|parts| - 1]), pick(parts[|parts| - 1]))
  }

  /** The selection typed by the user, applied to the numbered list of files. */
  function Select(files: seq<string>, selection: string): Selection {
    if Lower(selection) == "all" then Selection(files, [])
    else SelectParts(PartPicker(files), Split(selection, ','))
  }

  const NO_AUDIO_FILES := "No audio files found in "

  /** `select_tracks_from_directory` with the walk of `directory` and the typed selection:
      no audio files means one message, no prompt and no tracks. */
  function SelectFromDirectory(directory: string, walk: seq<(string, seq<string>)>, selection: string): Selection {
    var files := AudioFiles(walk);
    if files == [] then Selection([], [NO_AUDIO_FILES + directory]) else Select(Sorting.Sort(files), selection)
  }

  method SelectTracks(directory: string, walk: seq<(string, seq<string>)>, selection: string)
    returns (selected: seq<string>, messages: seq<string>)
    ensures Selection(selected, messages) == SelectFromDirectory(directory, walk, selection)
  {
    var audioFiles := ScanAudioFiles(walk);
    if audioFiles == [] {
      return [], [NO_AUDIO_FILES + directory];
    }
    audioFiles := Sorting.Sort(audioFiles);
    if Lower(selection) == "all" {
      return audioFiles, [];
    }
    var parts := Split(selection, ',');
    var pick := PartPicker(audioFiles);
    selected, messages := [], [];
    var k := 0;
    while k < |parts|
      invariant 0 <= k <= |parts|
      invariant Selection(selected, messages) == SelectParts(pick, parts[..k])
    {
      assert parts[..k + 1][..k] == parts[..k];
      selected, messages := ApplyPart(audioFiles, parts[k], selected, messages);
      k := k + 1;
    }
    assert parts[..k] == parts;
  }

  /** The body of the loop over the parts: the part's tracks and messages are appended. */
  method ApplyPart(files: seq<string>, part: string, selected: seq<string>, messages: seq<string>)
    returns (selected': seq<string>, messages': seq<string>)
    ensures Selection(selected', messages') == Then(Selection(selected, messages), SelectPart(files, part))
  {
    selected', messages' := selected, messages;
    var p := Strip(part, IsSpace);
    if Contains(p, "-") {
      var pieces := Split(p, '-');
      if |pieces| == 2 && ParseInt(pieces[0]).Some? && ParseInt(pieces[1]).Some? {
        selected' := AppendRange(files, selected', ParseInt(pieces[0]).value, ParseInt(pieces[1]).value);
      } else {
        messages' := messages' + ["Invalid range: " + p];
      }
    } else {
      var number := ParseInt(p);
      if number.Some? {
        var i := number.value;
        if 1 <= i <= |files| {
          selected' := selected' + [files[i - 1]];
        } else {
          messages' := messages' + ["Number out of range: " + NatToString(i)];
        }
      } else {
        messages' := messages' + ["Invalid number: " + p];
      }
    }
  }

  /** "all" selects every audio file, sorted; the result is the sorted permutation of the
      files found. */
  lemma SelectAllIsSortedListing(directory: string, walk: seq<(string, seq<string>)>, selection: string)
    requires Lower(selection) == "all" && AudioFiles(walk) != []
    ensures var r := SelectFromDirectory(directory, walk, selection);
            && r.messages == []
            && Sorting.Sorted(r.tracks)
            && multiset(r.tracks) == multiset(AudioFiles(walk))
  {
  }

  lemma PickRangeListed(files: seq<string>, start: int, end: int)
    ensures forall t :: t in PickRange(files, start, end) ==> t in files
  {
  }

  lemma SelectPartListed(files: seq<string>, part: string)
    ensures forall t :: t in SelectPart(files, part).tracks ==> t in files
  {
    var p := Strip(part, IsSpace);
    var pieces := Split(p, '-');
    if |pieces| == 2 && ParseInt(pieces[0]).Some? && ParseInt(pieces[1]).Some? {
      PickRangeListed(files, ParseInt(pieces[0]).value, ParseInt(pieces[1]).value);
    }
  }

  lemma {:induction false} SelectPartsListed(files: seq<string>, parts: seq<string>)
    ensures forall t :: t in SelectParts(PartPicker(files), parts).tracks ==> t in files
    decreases |parts|
  {
    if parts != [] {
      SelectPartsListed(files, parts[..|parts| - 1]);
      SelectPartListed(files, parts[|parts| - 1]);
    }
  }

  /** A directory without audio files selects nothing and reports that, whatever is typed;
      otherwise the message is never printed. */
  lemma NoAudioFilesReported(directory: string, walk: seq<(string, seq<string>)>, selection: string)
    ensures AudioFiles(walk) == [] <==>
            SelectFromDirectory(directory, walk, selection) == Selection([], [NO_AUDIO_FILES + directory])
  {
    var files := AudioFiles(walk);
    if files != [] {
      var sorted := Sorting.Sort(files);
      var r := Select(sorted, selection);
      if Lower(selection) != "all" {
        NoMessageFromParts(sorted, Split(selection, ','), directory);
      } else {
        assert |sorted| == |files| by { assert |multiset(sorted)| == |multiset(files)|; }
      }
    }
  }

  /** The messages of the parts start with "Invalid" or "Number", never with "No". */
  predicate PartMessage(m: string) {
    |m| >= 2 && m[1] != 'o'
  }

  lemma SelectPartMessages(files: seq<string>, part: string)
    ensures forall m :: m in SelectPart(files, part).messages ==> PartMessage(m)
  {
    var p := Strip(part, IsSpace);
    var r := SelectPart(files, part);
    if Contains(p, "-") {
      assert r.messages == [] || r.messages == ["Invalid range: " + p];
      assert ("Invalid range: " + p)[1] == 'n';
    } else if ParseInt(p).Some? {
      var i := ParseInt(p).value;
      assert r.messages == [] || r.messages == ["Number out of range: " + NatToString(i)];
      assert ("Number out of range: " + NatToString(i))[1] == 'u';
    } else {
      assert r.messages == ["Invalid number: " + p];
      assert ("Invalid number: " + p)[1] == 'n';
    }
  }

  lemma {:induction false} SelectPartsMessages(files: seq<string>, parts: seq<string>)
    ensures forall m :: m in SelectParts(PartPicker(files), parts).messages ==> PartMessage(m)
    decreases |parts|
  {
    if parts != [] {
      SelectPartsMessages(files, parts[..|parts| - 1]);
      SelectPartMessages(files, parts[|parts| - 1]);
    }
  }

  /** No outcome of the parts is the no-audio message. */
  lemma NoMessageFromParts(files: seq<string>, parts: seq<string>, directory: string)
    ensures SelectParts(PartPicker(files), parts) != Selection([], [NO_AUDIO_FILES + directory])
  {
    SelectPartsMessages(files, parts);
    assert !PartMessage(NO_AUDIO_FILES + directory) by {
      assert (NO_AUDIO_FILES + directory)[1] == 'o';
    }
  }

  /** Only listed audio files are ever selected. */
  lemma SelectedAreListed(directory: string, walk: seq<(string, seq<string>)>, selection: string)
    ensures forall t :: t in SelectFromDirectory(directory, walk, selection).tracks ==> t in AudioFiles(walk)
  {
    var files := AudioFiles(walk);
    if files != [] {
      var sorted := Sorting.Sort(files);
      SelectPartsListed(sorted, Split(selection, ','));
      assert forall t :: t in sorted ==> t in multiset(sorted);
    }
  }

  lemma {:induction false} SelectPartsAppend(pick: string -> Selection, p: seq<string>, q: seq<string>)
    ensures SelectParts(pick, p + q) == Then(SelectParts(pick, p), SelectParts(pick, q))
    decreases |q|
  {
    if q == [] {
      assert p + q == p;
    } else {
      assert (p + q)[..|p + q| - 1] == p + q[..|q| - 1];
      SelectPartsAppend(pick, p, q[..|q| - 1]);
    }
  }

  /** A selection is read part by part: the tracks and the messages of `a,b` are those of
      `a` followed by those of `b`, so order and duplicates are kept. */
  lemma SelectConcat(files: seq<string>, a: string, b: string)
    requires Lower(a) != "all" && Lower(b) != "all"
    ensures Select(files, a + "," + b) == Then(Select(files, a), Select(files, b))
  {
    var s := a + "," + b;
    assert Lower(s)[|a|] == ',';
    assert s == a + [','] + b;
    SplitAppend(a, b, ',');
    SelectPartsAppend(PartPicker(files), Split(a, ','), Split(b, ','));
  }

  /** Digits hold no hyphen. */
  lemma DigitsHaveNoHyphen(s: string)
    requires IsDigits(s)
    ensures !Contains(s, "-") && '-' !in s
  {
    forall i | 0 <= i <= |s| - 1
      ensures !OccursAt(s, "-", i)
    {
      assert s[i..i + 1][0] == s[i];
    }
  }

  /** Text that begins and ends with a digit is already stripped and is not "all". */
  lemma DigitEndsText(s: string)
    requires s != [] && IsDigit(s[0]) && IsDigit(s[|s| - 1])
    ensures Strip(s, IsSpace) == s && Lower(s) != "all"
  {
    assert !IsSpace(s[0]) && !IsSpace(s[|s| - 1]);
    assert TrimStart(s, IsSpace) == s;
    assert Lower(s)[0] == s[0];
  }

  /** A selection without a comma is one part. */
  lemma SelectOnePart(files: seq<string>, s: string)
    requires ',' !in s && Lower(s) != "all"
    ensures Select(files, s) == SelectPart(files, s)
  {
    SplitWithoutSep(s, ',');
    assert [s][..0] == [] && [s][0] == s;
    assert SelectParts(PartPicker(files), [s]) == Then(Selection([], []), SelectPart(files, s));
  }

  /** A number typed on its own selects that file, or reports it as out of range. */
  lemma SelectNumber(files: seq<string>, n: nat)
    ensures Select(files, NatToString(n)) ==
            if 1 <= n <= |files| then Selection([files[n - 1]], [])
            else Selection([], ["Number out of range: " + NatToString(n)])
  {
    var s := NatToString(n);
    NatToStringDigits(n);
    DigitsHaveNoHyphen(s);
    DigitEndsText(s);
    ParseIntOfNatToString(n);
    assert forall k :: 0 <= k < |s| ==> s[k] != ',';
    SelectOnePart(files, s);
  }

  /** A single part that is not a range and does not read as a number selects nothing and is
      reported as an invalid number. */
  lemma SelectNonNumber(files: seq<string>, s: string)
    requires ',' !in s && Lower(s) != "all"
    requires !Contains(Strip(s, IsSpace), "-") && ParseInt(Strip(s, IsSpace)).None?
    ensures Select(files, s) == Selection([], ["Invalid number: " + Strip(s, IsSpace)])
  {
    SelectOnePart(files, s);
  }

  /** The text `a-b` for two numbers splits at its hyphen into the two numbers. */
  lemma RangeSplit(sa: string, sb: string)
    requires IsDigits(sa) && IsDigits(sb)
    ensures Split(sa + "-" + sb, '-') == [sa, sb]
  {
    DigitsHaveNoHyphen(sa);
    DigitsHaveNoHyphen(sb);
    assert sa + "-" + sb == sa + ['-'] + sb;
    SplitAppend(sa, sb, '-');
    SplitWithoutSep(sa, '-');
    SplitWithoutSep(sb, '-');
  }

  /** The text `a-b` for two numbers is one part, already stripped, holding a hyphen. */
  lemma RangeText(sa: string, sb: string)
    requires IsDigits(sa) && IsDigits(sb)
    ensures var s := sa + "-" + sb;
            && ',' !in s && Lower(s) != "all" && Strip(s, IsSpace) == s && Contains(s, "-")
  {
    var s := sa + "-" + sb;
    assert forall k :: 0 <= k < |s| ==> s[k] == '-' || IsDigit(s[k]);
    DigitEndsText(s);
    assert OccursAt(s, "-", |sa|);
  }

  /** `a-b` selects the files numbered `a` to `b` that exist, in ascending order. */
  lemma SelectRange(files: seq<string>, a: nat, b: nat)
    ensures Select(files, NatToString(a) + "-" + NatToString(b)) == Selection(PickRange(files, a, b), [])
  {
    var s := NatToString(a) + "-" + NatToString(b);
    NatToStringDigits(a);
    NatToStringDigits(b);
    RangeText(NatToString(a), NatToString(b));
    RangeSplit(NatToString(a), NatToString(b));
    ParseIntOfNatToString(a);
    ParseIntOfNatToString(b);
    SelectOnePart(files, s);
  }

  // ---------------------------------------------------------------------------------------
  // Dispatch

  /** `generate_playlist`: the path and the lines of the playlist in the requested format
      (`m3u` or `pls`, in any case); any other format is an error. */
  method GeneratePlaylist(tracks: seq<string>, outputDir: string, formatType: string,
                          playlistName: string, timestamp: string, isFile: set<string>)
    returns (r: Result<(string, seq<string>)>)
    ensures Lower(formatType) == "m3u" ==>
              r == Success((Join(outputDir, PlaylistFileName(playlistName, timestamp, ".m3u")),
                            M3uLines(tracks, outputDir, isFile)))
    ensures Lower(formatType) == "pls" ==>
              r == Success((Join(outputDir, PlaylistFileName(playlistName, timestamp, ".pls")),
                            PlsLines(tracks, isFile)))
    ensures Lower(formatType) != "m3u" && Lower(formatType) != "pls" ==>
              r == Failure("Unsupported playlist format: " + formatType)
  {
    if Lower(formatType) == "m3u" {
      var playlistPath, lines := CreateM3uPlaylist(tracks, outputDir, playlistName, timestamp, isFile);
      r := Success((playlistPath, lines));
    } else if Lower(formatType) == "pls" {
      var playlistPath, lines := CreatePlsPlaylist(tracks, outputDir, playlistName, timestamp, isFile);
      r := Success((playlistPath, lines));
    } else {
      r := Failure("Unsupported playlist format: " + formatType);
    }
  }
}
