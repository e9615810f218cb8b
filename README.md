# TrackTidy core, modelled in Dafny

TrackTidy is a music library tool: it downloads tracks, tags them, converts them with FFmpeg,
writes playlists and sorts a folder of audio files into one sub-folder per format. This project
models the deterministic core of that tool and proves properties of the model:

- **Matching engine** (`Matching`, `Slug`): how a candidate video is scored against a track.
  This covers the slug of a title, the string ratio, the common-word gate, the forbidden-word
  penalty (the marker list with its repeated entries), the title, artist and duration scores,
  the quality bonuses and the weighted, gated total of `score_video`.
- **Playlists** (`Playlist`): the M3U and PLS writers, seen as the lines they write, and the
  rule that adds the extension. It also covers the scan and the `1,3,5-7` / `all` parser of the
  interactive track selection, and the format dispatch of `generate_playlist`.
- **Organizer** (`Organizer`): the scan of a walked tree into audio and playlist files, and the
  grouping by format (`Grouping`). It also covers the `<format>_files` folders, the
  `name_<n>.ext` renaming loop that never overwrites, the move counters and the `stats`
  dictionary.
- **Older organizer** (`LegacyOrganizer`): `get_file_extension` and the top-level scan. It also
  covers the `<ext>_files` folders, the filter by requested extensions and the move loop that
  skips a file whose target exists.
- **Batch processor** (`Batch`): file collection is one glob per extension, as given and
  upper-cased, with duplicates removed and the result sorted (`Sorting`). It also covers the
  `{filename}` / `{n}` title placeholders, the success/failure tally of the edits and
  conversions, and the converted file's name.
- **FFmpeg progress** (`FfmpegTime`): `extract_time_from_output`, with the elapsed time given
  exactly in hundredths of a second.

`Text` and `Paths` give the Python string built-ins and the POSIX `os.path` functions the code
relies on. `Wrappers` holds `Option` and `Result`.

Everything outside the program becomes a parameter of the model:

- The file system is a set of existing paths. The moves update that set. A failure of
  `shutil.move` is a map from the path to the exception text. A failure of `os.makedirs` is a
  set of the folders that cannot be made.
- `os.walk` is a sequence of `(directory, file names)` pairs in the order they are visited.
  `os.listdir` is the listed names plus the set of joined paths (`Join(directory, name)`)
  that are directories.
- `glob.glob`, the metadata editor and the converter are function parameters. Each edit or
  conversion gives an `Attempt`: it returned true, it returned false, or it raised with a
  message.
- `difflib.SequenceMatcher.ratio` and `math.exp` are function parameters whose types state
  the laws the scores depend on.
- The clock, read for the default playlist name, is a `timestamp` parameter.
- A function returns a written playlist as its sequence of lines.
- A Python dict's insertion order is the `order` sequence of a `Groups` value beside its map.

## Model

| member | source | states |
|---|---|---|
| Slug.Slugify | src/tracktidy/utils/matching.py:37-54 | definition: the empty text gives the empty slug; otherwise lower-case, drop the characters other than word characters, whitespace and hyphens, collapse each run of hyphens and whitespace into one hyphen, strip hyphens at both ends. |
| Slug.SlugifyIsSlug | src/tracktidy/utils/matching.py:37-54 | The slug is lower-case and holds only word characters and hyphens. It has no two hyphens in a row and no hyphen at either end. |
| Slug.SlugifyFixesSlugs | src/tracktidy/utils/matching.py:47-54 | A text that is already a slug is its own slug. |
| Slug.SlugifyIdempotent | src/tracktidy/utils/matching.py:47-54 | Slugifying twice gives the same result as slugifying once. |
| Matching.SharesWord | src/tracktidy/utils/matching.py:74-92 | definition: some non-empty piece of the title's slug split at `-` occurs in the video title's slug as a substring. |
| Matching.ForbiddenFound | src/tracktidy/utils/matching.py:108-111 | definition: the markers of the list, in list order with their repeats, that occur in the video key and not in the title key. |
| Matching.CombineArtistScores | src/tracktidy/utils/matching.py:166-189 | definition: one artist gives the primary score; several give the average of it and 10 per secondary hit; capped at 100. |
| Matching.QualityBonus | src/tracktidy/utils/matching.py:242-261 | definition: the official-channel or official-title tier, plus 10 for `official audio` or 5 for `audio` in the lower-cased title, plus 10 when verified. |
| Matching.WeightedTotal | src/tracktidy/utils/matching.py:263-279 | definition: title 0.5, artist 0.3, duration 0.2 when verified, 0.4, 0.4, 0.2 otherwise, plus the bonuses, capped at 100. |
| Matching.Decide | src/tracktidy/utils/matching.py:233-287 | definition: no common word rejects; then a title score under 60; then, unless verified, an artist score under 50; otherwise the weighted total with its details. |
| Matching.Score | src/tracktidy/utils/matching.py:209-287 | definition: `score_video` as a value: Decide applied to the common-word check, the title, artist and duration scores and the bonuses. |
| Matching.ExpModelLaws | src/tracktidy/utils/matching.py:206 | The laws assumed of `math.exp` can be met: exp(0) = 1, and exp is positive and strictly increasing on the non-positive reals. |
| Matching.StringRatio | src/tracktidy/utils/matching.py:56-72 | The ratio lies in [0, 100] and is 0 when either text is empty. Identical non-empty texts under 200 characters (no autojunk) give 100. |
| Matching.CheckCommonWords | src/tracktidy/utils/matching.py:74-92 | True exactly when some non-empty hyphen-separated piece of the title's slug occurs in the video title's slug. |
| Matching.SplitPiecesOccur | src/tracktidy/utils/matching.py:85 | Every piece of a split occurs in the text that was split. |
| Matching.SplitFirstPiecePrefix | src/tracktidy/utils/matching.py:85 | The first piece of a split is a prefix of the text. |
| Matching.SlugPiecesNonEmpty | src/tracktidy/utils/matching.py:85-89 | Every piece of a non-empty slug is non-empty, so the `if word` guard only drops the lone piece of the empty slug. |
| Matching.SharesWordWithItself | src/tracktidy/utils/matching.py:85-92 | A title with an empty slug shares no word with any video. Any other title shares a word with itself. |
| Matching.CheckForbiddenWords | src/tracktidy/utils/matching.py:94-113 | The words are the markers of FORBIDDEN_WORDS found in the video key and not in the title key. They keep the list's order and repeats. The flag is true exactly when some word was found. |
| Matching.FindMarkers | src/tracktidy/utils/matching.py:108-111 | The loop's result equals the marker filter over the whole list. |
| Matching.ForbiddenFoundMembers | src/tracktidy/utils/matching.py:109-111 | A word is reported exactly when it is a listed marker that occurs in the video key but not in the title key. |
| Matching.ForbiddenFoundCounts | src/tracktidy/utils/matching.py:109-111 | A reported word is reported as many times as the list holds it, and an unreported word is reported zero times. |
| Matching.ForbiddenFoundAppend | src/tracktidy/utils/matching.py:109-111 | The report for two lists one after the other is the first list's report followed by the second's. |
| Matching.ForbiddenFoundTwoHits | src/tracktidy/utils/matching.py:109-111 | Two hits at different places in the list give at least two reported words. |
| Matching.ForbiddenListRepeats | src/tracktidy/utils/matching.py:12-35 | "remix", "live" and "reverb" each stand twice in the list, at the positions given. |
| Matching.Penalized | src/tracktidy/utils/matching.py:135-140 | The penalized score lies between 0 and the starting score. It equals the starting score when there are no markers. |
| Matching.TitleScore | src/tracktidy/utils/matching.py:115-140 | The title score lies in [0, 100]. |
| Matching.CalculateTitleMatch | src/tracktidy/utils/matching.py:115-140 | The method returns the title score: the ratio of the two slugs less 15 points per reported marker, floored at 0. |
| Matching.Penalize | src/tracktidy/utils/matching.py:135-140 | The loop takes 15 points off per reported word, then floors the score at 0. |
| Matching.TitleScoreOfSameTitle | src/tracktidy/utils/matching.py:105-140 | A title compared with itself reports no marker. It scores 100 when its slug is non-empty and under 200 characters. |
| Matching.SameKeyFindsNoMarker | src/tracktidy/utils/matching.py:110 | No marker is reported when the title and the video have the same key. |
| Matching.RepeatedMarkerCostsThirty | src/tracktidy/utils/matching.py:12-35 | One occurrence of "remix", "live" or "reverb" costs at least 30 points, because the list holds each of them twice. |
| Matching.RepeatedMarkerHitsTwice | src/tracktidy/utils/matching.py:109-111 | Each of those markers, when it hits, is reported at least twice. |
| Matching.PenalizedByTwo | src/tracktidy/utils/matching.py:137-140 | Two or more markers bring the score down to at most max(0, base - 30). |
| Matching.PrimaryArtistScore | src/tracktidy/utils/matching.py:157-175 | The primary artist's score lies in [0, 90]. |
| Matching.SecondaryHits | src/tracktidy/utils/matching.py:178-183 | At most every secondary artist is a hit. |
| Matching.ArtistScore | src/tracktidy/utils/matching.py:142-189 | The artist score lies in [0, 100], and is 0 when there are no artists. |
| Matching.CalculateArtistMatch | src/tracktidy/utils/matching.py:142-189 | The method returns the artist score. |
| Matching.CountFoundArtists | src/tracktidy/utils/matching.py:179-183 | The loop adds 10 points for each other artist whose slug occurs in the title slug or the channel slug. |
| Matching.SingleArtistScore | src/tracktidy/utils/matching.py:166-175 | With one artist the score is 90, 80 or 70 exactly when that branch is the first that applies. Otherwise it is at most 50. |
| Matching.EmptyPrimaryArtistScoresNinety | src/tracktidy/utils/matching.py:166-167 | An empty primary slug occurs in every title, so the primary artist scores 90. |
| Matching.SeveralArtistsScore | src/tracktidy/utils/matching.py:185-189 | With several artists the score is min(100, (base + 10k) / 2), where k is the number of other artists found. It never exceeds (90 + 10k) / 2. |
| Matching.DurationScore | src/tracktidy/utils/matching.py:191-207 | The score lies in (0, 100]. It is 50 when either duration is not positive. |
| Matching.DurationScoreByDifference | src/tracktidy/utils/matching.py:205-207 | For known durations: equal durations give 100, the same difference gives the same score, and a larger difference gives a strictly lower score. |
| Matching.ScoreVideo | src/tracktidy/utils/matching.py:209-287 | The method returns `Score`, and its total is the details' total. |
| Matching.Weigh | src/tracktidy/utils/matching.py:263-287 | The title gate comes first, then the artist gate, which a verified video skips. Then comes the capped weighted total. |
| Matching.QualityBonuses | src/tracktidy/utils/matching.py:242-261 | The bonuses add up the tiers and lie in [0, 35]. |
| Matching.QualityBonusRange | src/tracktidy/utils/matching.py:245-261 | The first tier is 0, 8, 10 or 15. The bonuses lie in [0, 35]. Being verified adds exactly 10. |
| Matching.DecideAcceptance | src/tracktidy/utils/matching.py:233-279 | A candidate is rejected exactly when it shares no word, has a title score under 60, or has an artist score under 50 without being verified. An accepted candidate's total lies in (40, 100], so a total of 0 means a rejection. |
| Matching.ScoreAcceptance | src/tracktidy/utils/matching.py:233-279 | The same for the full scoring of a track and a video: rejected exactly for no common word, a title score under 60, or an unverified artist score under 50. An accepted total lies in (40, 100]. |
| Matching.DecideVerifiedNeverLower | src/tracktidy/utils/matching.py:260-279 | Being verified never lowers the total once the sub-scores are fixed. |
| Matching.VerifiedNeverScoresLower | src/tracktidy/utils/matching.py:260-279 | The same for score_video: a verified video never scores lower than an unverified one. |
| Sorting.Sort | src/tracktidy/core/playlist.py:129 | `list.sort()` on strings: the result is sorted and is a permutation of the input. |
| Sorting.SortDeterminedByElements | batch_processor.py:77 | Two lists with the same elements sort to the same list. |
| Sorting.SortedUnique | batch_processor.py:77 | A sorted permutation is unique. |
| Grouping.Add | src/tracktidy/core/organizer.py:70-73 | Filing a path keeps the dict well formed. A missing key is appended last in the key order. |
| Grouping.Grouped | src/tracktidy/core/organizer.py:63-75 | The dict built from the paths is well formed. |
| Grouping.AddPath | src/tracktidy/core/organizer.py:70-73 | The two statements `if k not in d: d[k] = []` and `d[k].append(p)` file the path. |
| Grouping.GroupedAppend | src/tracktidy/core/organizer.py:65-73 | One more path extends the dict built from the paths before it. |
| Grouping.HavingMembers | src/tracktidy/core/organizer.py:65-73 | A path is in the list for key k exactly when it was given and its key is k. |
| Grouping.GroupedAt | src/tracktidy/core/organizer.py:63-75 | A key is present exactly when some path has it. Its list holds those paths in their original order. |
| Grouping.GroupedTotal | src/tracktidy/core/organizer.py:113 | The lists together hold exactly as many paths as were given. |
| Organizer.Scanned | src/tracktidy/core/organizer.py:36-44 | definition: the joined paths of a walk that pass the kind test, in walk order. |
| Organizer.FormatName | src/tracktidy/core/organizer.py:66-68 | definition: the lower-cased `splitext` extension less its leading dot. |
| Organizer.FormatFolders | src/tracktidy/core/organizer.py:88-100 | definition: each format mapped to `<format>_files` under the base directory, leaving out those whose `makedirs` fails. |
| Organizer.MoveOne | src/tracktidy/core/organizer.py:131-150 | definition: the file moved to its unique destination, or one `Error moving` message when `shutil.move` raises. |
| Organizer.Pass | src/tracktidy/core/organizer.py:187-204 | definition: one pass over the audio or playlist files: grouped by format, folders made, groups moved in dict order, totals and format counts recorded; nothing when there are no files. |
| Organizer.Organized | src/tracktidy/core/organizer.py:157-233 | definition: `Invalid directory` or the nothing-found message, else the audio pass then the playlist pass, with success when something moved. |
| Organizer.ExtensionListsDisjoint | src/tracktidy/core/organizer.py:14-17 | No extension is both an audio one and a playlist one. |
| Organizer.PlaylistByExtension | src/tracktidy/core/organizer.py:41-44 | A path is filed as a playlist exactly when its extension is a playlist one. No path is filed as both. |
| Organizer.ScannedMembers | src/tracktidy/core/organizer.py:36-44 | A path is collected exactly when the walk lists it and its kind matches. |
| Organizer.ScannedInMembers | src/tracktidy/core/organizer.py:37-44 | The same for the files of one visited directory. |
| Organizer.ScanDirectoryForFiles | src/tracktidy/core/organizer.py:22-51 | The two lists are the audio paths and the playlist paths of the walk, in walk order. |
| Organizer.ScanFolder | src/tracktidy/core/organizer.py:37-44 | The inner loop collects the audio and playlist paths of one directory. |
| Organizer.FormatNameOfExtension | src/tracktidy/core/organizer.py:66-68 | The format name is the lower-cased extension less its dot, and empty when there is no extension. |
| Organizer.GroupFilesByFormat | src/tracktidy/core/organizer.py:53-75 | The result is the dict of the files grouped by format name, in first-seen order. |
| Organizer.FormatFoldersAt | src/tracktidy/core/organizer.py:88-100 | A format has a folder exactly when it was asked for and its folder could be made. That folder is `<format>_files` under the base directory. |
| Organizer.CreateFormatFolders | src/tracktidy/core/organizer.py:77-100 | The loop builds that map. |
| Organizer.JoinInjective | src/tracktidy/core/organizer.py:133-142 | Joining a folder with names that do not start with a slash keeps distinct names distinct. |
| Organizer.NumberedShape | src/tracktidy/core/organizer.py:138-141 | A numbered name is longer than the file name and does not start with a slash. |
| Organizer.NumberedInjective | src/tracktidy/core/organizer.py:141 | Different counters give different names. |
| Organizer.CandidatesDistinct | src/tracktidy/core/organizer.py:133-143 | The loop never tries the same path twice. |
| Organizer.TriedSize | src/tracktidy/core/organizer.py:136-143 | The first n paths tried are n different paths. |
| Organizer.TriedBound | src/tracktidy/core/organizer.py:140-143 | While the loop runs, every path tried so far exists, so the counter is bounded by the number of existing paths. The loop ends. |
| Organizer.FirstFree | src/tracktidy/core/organizer.py:140-143 | The first free candidate from n on: it does not exist, and every candidate before it does. |
| Organizer.Destination | src/tracktidy/core/organizer.py:133-143 | The chosen destination does not exist, and every candidate tried before it does. |
| Organizer.UniqueDestination | src/tracktidy/core/organizer.py:131-143 | The renaming loop returns that destination. |
| Organizer.DestinationKeepsFreeName | src/tracktidy/core/organizer.py:136 | A file keeps its own name exactly when that name is free in the folder. |
| Organizer.MoveAllCount | src/tracktidy/core/organizer.py:128-150 | Each file of a group is either moved or reported, once. |
| Organizer.MoveGroupsCount | src/tracktidy/core/organizer.py:124-150 | The files of formats without a folder are neither moved nor reported. Every other file is moved or reported, once. |
| Organizer.HandledAtMostSum | src/tracktidy/core/organizer.py:113-125 | The files handled are at most all the files, and all of them when every format has a folder. |
| Organizer.MoveOneKeepsCount | src/tracktidy/core/organizer.py:136-150 | A move never overwrites: the number of existing paths is unchanged. |
| Organizer.MovedAtMostTotal | src/tracktidy/core/organizer.py:102-155 | The files moved plus the errors reported are at most total_files. They equal it when every format has a folder. |
| Organizer.MoveFilesToFormatFolders | src/tracktidy/core/organizer.py:102-155 | total_files is the sum of the group sizes. The counters and the file system afterwards are those of the moves in dict order. |
| Organizer.MoveGroup | src/tracktidy/core/organizer.py:128-153 | The inner loop moves the files of one format in turn. |
| Organizer.CountsAt | src/tracktidy/core/organizer.py:203-204 | After the stats loop, a format recorded by this pass maps to its number of files. Earlier entries are kept otherwise. |
| Organizer.PassCount | src/tracktidy/core/organizer.py:187-200 | A pass adds the number of its files to the total, and moves or reports at most that many. |
| Organizer.PassFormats | src/tracktidy/core/organizer.py:187-204 | A pass records each format of its files with the number of files of that format. |
| Organizer.FormatsApart | src/tracktidy/core/organizer.py:14-17 | An audio file and a playlist file never share a format name. |
| Organizer.FormatFiledOnce | src/tracktidy/core/organizer.py:187-224 | No format has files in both passes, so the playlist pass never overwrites an audio count. |
| Organizer.OrganizedStats | src/tracktidy/core/organizer.py:157-233 | An invalid directory and an empty scan each fail with their one message. Otherwise the stats hold total_files, the number of files found, with moved plus errors at most that, and success means something moved. |
| Organizer.OrganizedFormats | src/tracktidy/core/organizer.py:184-231 | The `formats` stats name exactly the formats found, each with its number of files. |
| Organizer.OrganizeFilesByFormat | src/tracktidy/core/organizer.py:157-233 | The method computes `Organizer.Organized`. |
| Organizer.ProcessFiles | src/tracktidy/core/organizer.py:187-204 | The block run for the audio files, and again for the playlist files, computes one pass. |
| Organizer.RecordFormatCounts | src/tracktidy/core/organizer.py:203-204 | The stats loop records the group sizes. |
| LegacyOrganizer.GetFileExtension | resources/src/tracktidy/core/organizer.py:15-26 | The result is empty when there is no extension. Otherwise a dot followed by the result is the lower-cased extension. |
| LegacyOrganizer.GetFileExtensionIsFormatName | resources/src/tracktidy/core/organizer.py:15-26 | The older organizer names formats the same way as the newer one. |
| LegacyOrganizer.Kept | resources/src/tracktidy/core/organizer.py:46-63 | definition: an entry is kept when it is not a directory and has an extension, an audio one when only audio is asked for. |
| LegacyOrganizer.KeptPaths | resources/src/tracktidy/core/organizer.py:46-63 | definition: the joined paths of the listing that are kept, in listing order. |
| LegacyOrganizer.Scan | resources/src/tracktidy/core/organizer.py:28-65 | definition: `Directory not found` for a missing directory, else the kept paths grouped by extension. |
| LegacyOrganizer.KeptPathsMembers | resources/src/tracktidy/core/organizer.py:46-63 | A path is kept exactly when it is listed, is not a directory, and has an extension, which must be an audio one when audio_only is set. |
| LegacyOrganizer.ScanGroups | resources/src/tracktidy/core/organizer.py:46-65 | Every key is a non-empty extension, an audio one under audio_only. Its list holds exactly the kept paths with that extension, in listing order. |
| LegacyOrganizer.ScanDirectory | resources/src/tracktidy/core/organizer.py:28-65 | A missing directory gives the `Directory not found` error. Otherwise the result is the dict of the kept paths by extension. |
| LegacyOrganizer.FormatDirectories | resources/src/tracktidy/core/organizer.py:78-90 | There is one folder per requested extension. |
| LegacyOrganizer.CreateFormatDirectories | resources/src/tracktidy/core/organizer.py:67-90 | The loop over the set builds the `<ext>_files` map, whatever order the set yields. |
| LegacyOrganizer.Wanted | resources/src/tracktidy/core/organizer.py:112-114 | Only audio extensions are wanted. |
| LegacyOrganizer.WantedMembers | resources/src/tracktidy/core/organizer.py:112-114 | An extension is wanted exactly when it is an audio one and some request lower-cases to it. |
| LegacyOrganizer.Filtered | resources/src/tracktidy/core/organizer.py:115-119 | A group is kept exactly when its lower-cased extension is wanted. Its files are unchanged and the dict order is kept. |
| LegacyOrganizer.FilteredValid | resources/src/tracktidy/core/organizer.py:115-119 | The filtered dict is well formed. |
| LegacyOrganizer.FilterExtensions | resources/src/tracktidy/core/organizer.py:115-119 | The loop builds the filtered dict. |
| LegacyOrganizer.MoveOne | resources/src/tracktidy/core/organizer.py:136-149 | definition: a taken target is skipped with a message, a failing `shutil.move` gives a `Failed to move` message, otherwise the file is moved under its own name. |
| LegacyOrganizer.MoveOneNeverOverwrites | resources/src/tracktidy/core/organizer.py:136-149 | A file is moved exactly when its target is free and the move does not raise. The target then exists and the file does not. Otherwise nothing changes on disk and one message is added. |
| LegacyOrganizer.MoveAllCount | resources/src/tracktidy/core/organizer.py:135-149 | Each file of a group is either moved or reported, once. |
| LegacyOrganizer.MoveGroupsCount | resources/src/tracktidy/core/organizer.py:132-149 | Every file of every group is either moved or reported, once. |
| LegacyOrganizer.MoveGroup | resources/src/tracktidy/core/organizer.py:135-149 | The inner loop moves the files of one extension. |
| LegacyOrganizer.MoveFiles | resources/src/tracktidy/core/organizer.py:132-149 | The outer loop moves the groups in dict order. |
| LegacyOrganizer.Selected | resources/src/tracktidy/core/organizer.py:110-119 | The groups selected for organizing form a well-formed dict. |
| LegacyOrganizer.SelectedExtensions | resources/src/tracktidy/core/organizer.py:110-119 | With a non-empty request, an extension is organized exactly when files of it were found, it is an audio one, and it was requested in any case. |
| LegacyOrganizer.Organized | resources/src/tracktidy/core/organizer.py:92-151 | definition: the scan's error, or the nothing-to-organize message, else the selected groups moved into `<ext>_files` folders with the moved count and the number of groups. |
| LegacyOrganizer.OrganizedCount | resources/src/tracktidy/core/organizer.py:92-151 | A missing directory gives (0, 0, [Directory not found: …]), and nothing selected gives (0, 0, [No audio files found to organize]). Otherwise the second component is the number of groups, and files_moved plus the errors is the number of their files. |
| LegacyOrganizer.OrganizeFilesByFormat | resources/src/tracktidy/core/organizer.py:92-151 | The method computes `LegacyOrganizer.Organized`. |
| Playlist.WithExtension | src/tracktidy/core/playlist.py:32-33 | definition: the extension is appended unless the lower-cased name already ends with it. |
| Playlist.WithExtensionShape | src/tracktidy/core/playlist.py:32-33 | After the extension rule the name ends with the extension in any case and starts with the given name. Applying the rule again changes nothing. |
| Playlist.Present | src/tracktidy/core/playlist.py:42-43 | definition: the 1-based positions of the tracks that exist as files, in order. |
| Playlist.PresentShape | src/tracktidy/core/playlist.py:42-43 | The written positions are in range, strictly increasing and exactly those of existing tracks. |
| Playlist.PresentAll | src/tracktidy/core/playlist.py:89-90 | Every track exists exactly when every position is written, and then the positions are 1, 2, …, n. |
| Playlist.EntriesOfPresent | src/tracktidy/core/playlist.py:42-54 | The lines written are the entries of the existing tracks, in order. |
| Playlist.EntriesAtLength | src/tracktidy/core/playlist.py:42-54 | Fixed-width entries give width × count lines. |
| Playlist.CreateM3uPlaylist | src/tracktidy/core/playlist.py:14-56 | The path is the output path joined with the name after the default and extension rules. The lines are the M3U lines. |
| Playlist.M3uLines | src/tracktidy/core/playlist.py:37-54 | definition: `#EXTM3U`, then for each existing track `#EXTINF:-1,<name>` and its location. |
| Playlist.M3uLinesByTrack | src/tracktidy/core/playlist.py:37-54 | An M3U file is `#EXTM3U` followed by a two-line entry per existing track, 1 + 2k lines in all. |
| Playlist.M3uLocationResolves | src/tracktidy/core/playlist.py:51-52 | The bare name written for a track in the playlist's own directory resolves back to the track. |
| Playlist.CreatePlsPlaylist | src/tracktidy/core/playlist.py:58-102 | The path is built as for M3U with `.pls`. The lines are the PLS lines. |
| Playlist.PlsLines | src/tracktidy/core/playlist.py:81-100 | definition: `[playlist]`, `NumberOfEntries=<len(tracks)>`, the File/Title/Length lines of each existing track at its position, `Version=2`. |
| Playlist.PlsLinesByTrack | src/tracktidy/core/playlist.py:81-100 | A PLS file is the header, `NumberOfEntries=` with the number of tracks given, a three-line entry per existing track numbered by its position in the list, and `Version=2`. |
| Playlist.PlsCountReadsBack | src/tracktidy/core/playlist.py:86 | The NumberOfEntries line reads back as the number of tracks given, whether or not they exist. |
| Playlist.PlsCountMatchesEntries | src/tracktidy/core/playlist.py:86-97 | The count agrees with the entries written exactly when every track exists. |
| Playlist.AudioFiles | src/tracktidy/core/playlist.py:115-122 | definition: the joined audio-named files of each visited directory, in walk order. |
| Playlist.AudioFilesMembers | src/tracktidy/core/playlist.py:115-122 | A path is collected exactly when an audio-named file of some visited directory joins to it. |
| Playlist.ScanAudioFiles | src/tracktidy/core/playlist.py:118-122 | The loop collects the audio files of the walk in walk order. |
| Playlist.PickRange | src/tracktidy/core/playlist.py:155-157 | definition: the files numbered start to end that exist in the list, in ascending order. |
| Playlist.AppendRange | src/tracktidy/core/playlist.py:155-157 | The range loop appends the listed files numbered start to end. |
| Playlist.SelectPart | src/tracktidy/core/playlist.py:149-169 | definition: a part with a hyphen is a range or `Invalid range`; otherwise a number selects its file or reports `Number out of range`, and a non-number reports `Invalid number`. |
| Playlist.Select | src/tracktidy/core/playlist.py:141-171 | definition: `all` in any case selects every file; otherwise the comma-separated parts one after the other. |
| Playlist.SelectFromDirectory | src/tracktidy/core/playlist.py:104-171 | definition: `No audio files found in` and the directory when the walk has no audio file, else the selection applied to the sorted audio files. |
| Playlist.SelectTracks | src/tracktidy/core/playlist.py:104-171 | The method returns `SelectFromDirectory`: the selection and its messages, including `No audio files found in` and the directory when the walk has no audio file. |
| Playlist.NoAudioFilesReported | src/tracktidy/core/playlist.py:124-126 | The walk has no audio file exactly when the outcome is no tracks and the single message `No audio files found in` followed by the directory. No selection text can produce that outcome otherwise. |
| Playlist.ApplyPart | src/tracktidy/core/playlist.py:149-169 | One part's tracks and messages are appended. |
| Playlist.SelectAllIsSortedListing | src/tracktidy/core/playlist.py:129-145 | `all` selects the sorted permutation of every audio file found, with no message. |
| Playlist.SelectedAreListed | src/tracktidy/core/playlist.py:148-171 | Only listed audio files are ever selected. |
| Playlist.SelectConcat | src/tracktidy/core/playlist.py:148-150 | A selection is read part by part: the outcome of `a,b` is that of `a` followed by that of `b`. |
| Playlist.SelectNumber | src/tracktidy/core/playlist.py:162-167 | A number on its own selects that file, or reports it out of range. |
| Playlist.SelectNonNumber | src/tracktidy/core/playlist.py:162-169 | A single part that is neither a range nor a number selects nothing and reports `Invalid number` with the stripped part. |
| Playlist.SelectRange | src/tracktidy/core/playlist.py:151-157 | `a-b` selects the existing files numbered a to b, in ascending order. |
| Playlist.GeneratePlaylist | src/tracktidy/core/playlist.py:173-208 | m3u and pls, in any case, give their writer's path and lines. Any other format fails with `Unsupported playlist format`. |
| Batch.DefaultExtensions | batch_processor.py:33-37 | "audio" gives six extensions including `.mp3`. "mp3" gives `.mp3` alone. Any other type gives none. |
| Batch.Patterns | batch_processor.py:54-63 | There are two patterns per extension. |
| Batch.PatternsAt | batch_processor.py:54-63 | The patterns of extension k stand at 2k and 2k + 1: `*ext` and then `*EXT`, both joined to the directory. |
| Batch.GlobbedMembers | batch_processor.py:54-67 | A path is matched exactly when some pattern's glob returns it. |
| Batch.UnseenMembers | batch_processor.py:52-67 | The `seen_paths` filter keeps every path once and drops nothing else. |
| Batch.CollectedFiles | batch_processor.py:50-77 | definition: the globs of all patterns, duplicates dropped, sorted. |
| Batch.CollectedFilesSorted | batch_processor.py:50-77 | The collected list is sorted and has no duplicates. |
| Batch.CollectedFilesMembers | batch_processor.py:50-77 | It holds exactly the matches of the given and the upper-cased patterns. |
| Batch.CollectedFilesByExtension | batch_processor.py:50-77 | A path is collected exactly when, for some extension, the glob of `*ext` or of `*EXT` in the directory returns it. |
| Batch.CollectFiles | batch_processor.py:50-77 | The collection loops compute that list. |
| Batch.AddUnseen | batch_processor.py:56-60 | One pattern's loop appends its unseen matches and records them as seen. |
| Batch.Record | batch_processor.py:164-174 | Each outcome adds one to success or failed. Every failure adds one message. |
| Batch.TrackNumber | batch_processor.py:157 | The track number is the text before the first space. |
| Batch.TitleFor | batch_processor.py:147-162 | definition: `{filename}` becomes the name without its extension, then `{n}` becomes the first space-separated token when that is all digits. |
| Batch.FileMetadata | batch_processor.py:147-162 | The copy has the same fields. Only the title is rewritten. |
| Batch.TitleWithoutPlaceholders | batch_processor.py:150-159 | A title without placeholders is kept as it is. |
| Batch.TitleOfFilename | batch_processor.py:150-152 | `{filename}` becomes the name without its extension. |
| Batch.NumberNeedsDigits | batch_processor.py:154-162 | `{n}` stays when the first token is not all digits. |
| Batch.TitleOfNumber | batch_processor.py:154-159 | `{n}` becomes the leading number when there is one. |
| Batch.MetadataResults | batch_processor.py:142-174 | definition: the tally of the edits, each file's outcome recorded in turn with its message. |
| Batch.MetadataResultsCount | batch_processor.py:133-174 | Every file is counted once, as a success or a failure, and each failure has one message. |
| Batch.BatchMetadata | batch_processor.py:97-174 | No files or no fields mean nothing is done. Otherwise the tally of the edits is returned. |
| Batch.EditAll | batch_processor.py:142-174 | The editing loop computes the tally. |
| Batch.OutputDirectory | batch_processor.py:212-216 | definition: the directory given, or the directory of the first file when none is given. |
| Batch.OutputFile | batch_processor.py:245-246 | definition: the output directory joined with `<base name>.<format>`. |
| Batch.OutputFileName | batch_processor.py:245-246 | The converted file is named after the input file, with the output format as its extension. |
| Batch.ConvertResults | batch_processor.py:240-258 | definition: the tally of the conversions, each file's outcome recorded in turn with its message. |
| Batch.ConvertResultsCount | batch_processor.py:231-258 | Every file is counted once, and each failure has one message. |
| Batch.BatchConvert | batch_processor.py:196-258 | No files means nothing is done. An empty output directory stands for the first file's directory. Otherwise the tally of the conversions is returned. |
| Batch.ConvertAll | batch_processor.py:240-258 | The conversion loop computes the tally. |
| FfmpegTime.TimeAt | src/tracktidy/core/audio.py:66 | definition: `time=` followed by two digits, `:`, two digits, `:`, two digits, `.` and two digits matches at the position. |
| FfmpegTime.Hundredths | src/tracktidy/core/audio.py:67-68 | definition: `h * 3600 + m * 60 + s` of the match, in hundredths of a second. |
| FfmpegTime.FirstMatchFrom | src/tracktidy/core/audio.py:66 | The leftmost match at or after i, found as `re.search` finds it. |
| FfmpegTime.ExtractTime | src/tracktidy/core/audio.py:65-70 | None exactly when nothing matches. Otherwise the result is the time of the leftmost match. |
| FfmpegTime.ExtractTimeBound | audio_converter.py:35-40 | The time is at most 99:99:99.99 (2-digit fields are not range-checked). |
| FfmpegTime.ExtractTimeAt | src/tracktidy/core/audio.py:66-69 | The leftmost match decides the result, whatever follows it. |
| FfmpegTime.OneDigitHourDoesNotMatch | src/tracktidy/core/audio.py:66 | A one-digit hour does not match. |
| FfmpegTime.LaterWellFormedTimeWins | src/tracktidy/core/audio.py:66-69 | `time=N/A` is passed over, and a later well-formed time is read (00:01:02.50 gives 6250 hundredths). |
| Paths.Basename | src/tracktidy/core/organizer.py:131 | definition: `os.path.basename`, everything after the last slash; the result has no slash. |
| Paths.Dirname | batch_processor.py:216 | definition: `os.path.dirname`, everything before the last slash, with trailing slashes removed unless only slashes remain. |
| Paths.Join | src/tracktidy/core/organizer.py:38 | definition: `os.path.join(a, b)`: `b` when it is absolute, else `a` and `b` with one slash between them. |
| Paths.SplitExt | src/tracktidy/core/organizer.py:39 | definition: `os.path.splitext`: the extension runs from the last dot of the last component that has a non-dot before it; the two parts make up the path. |
| Text.Lower | src/tracktidy/utils/matching.py:51 | definition: `str.lower()` character by character. |
| Text.Strip | src/tracktidy/core/playlist.py:150 | definition: `str.strip(chars)`: the dropped characters removed at both ends. |
| Text.Split | src/tracktidy/core/playlist.py:148 | definition: `str.split(sep)` with one separator character, keeping empty pieces. |
| Text.Replace | batch_processor.py:152 | definition: `str.replace`: every non-overlapping occurrence, left to right, replaced. |
| Text.ParseInt | src/tracktidy/core/playlist.py:163 | definition: `int()` on text without a minus sign: surrounding whitespace, a leading `+` and single underscores between digits accepted, anything else None. |

## Left out

- The terminal UI is left out: prompts, menus, colours, progress bars and the
  `Confirm`/`Prompt` retry loops of `get_files_for_batch` and of the output directory choice.
  Those values are parameters: the typed selection, the directory, the requested output
  directory and the chosen metadata fields.
- `async` and the awaiting of coroutines are left out, since the modelled code has no
  concurrency of its own.
- FFmpeg, the converter and the metadata editor are foreign calls. They appear only as the
  outcome of each call.
- Matching.StringRatio: difflib's ratio algorithm is not modelled. The score relies only on
  the stated laws: range, 0 for empty text, 1 for identical text without autojunk.
- Matching.DurationScore: `math.exp` is a parameter with the laws exp(0) = 1, positive and
  strictly increasing on the non-positive reals. The exact float value is not modelled.
- Floats are modelled as exact reals. Rounding of the weighted totals is not modelled.
- FfmpegTime.ExtractTime: the result is exact hundredths of a second rather than the float sum
  `h * 3600 + m * 60 + s`.
- Character classes are narrowed to ASCII: `\w` and `\d` in regexes, `str.isdigit` and
  `lower`/`upper`. Whitespace is the full `str.isspace` set.
- Playlist.SelectPart: `int()` is modelled for text without a minus sign. That covers
  surrounding whitespace, a leading `+` and single underscores between digits. Unicode digits
  and the formatting of negative numbers in messages are not modelled. A lone hyphen always
  sends a part to the range branch, so a number never carries a minus sign when it reaches
  `int()`.
- The walk is a parameter and is not tied to the `existing` set. Folders made by `makedirs`
  are not added to `existing`.
- A failure of `os.makedirs` in the older organizer is not modelled. The source does not catch
  it there.
- `create_format_directories` iterates a Python set in an arbitrary order. The model proves
  the resulting map does not depend on that order.
- `os.walk`'s own error handling in `scan_directory_for_files` and errors it swallows are not
  modelled. The walk given is the one that happened.
- Batch.DefaultExtensions: for a `file_type` other than "audio" or "mp3" without extensions,
  the source fails with a `TypeError`. The model returns `None` instead. No caller in the code
  does this.
- Opening and writing the playlist file is not modelled. The model gives the path and the
  lines; the file's I/O errors are left out. So is `os.makedirs(output_dir, exist_ok=True)`
  in `generate_playlist` (src/tracktidy/core/playlist.py:187), which may raise when the folder
  cannot be made.
- The strategy orchestrator of the download pipeline, the providers and the services are not
  part of this model.
