/** The track-to-video matching engine of utils/matching.py (src/ and resources/ hold the same
    file): the common-word pre-filter, forbidden-marker detection, the title, artist and
    duration scorers and the combining `score_video`.

    `difflib.SequenceMatcher(None, a, b).ratio()` and `math.exp` are not modelled; each is a
    parameter whose type states the laws the scorers rely on. */
module Matching {
  import opened Text
  import opened Slug

  // ---------------------------------------------------------------------------------------
  // The two foreign functions

  /** Laws of `SequenceMatcher(None, a, b).ratio()`: a value in [0, 1]; identical strings give
      1 when they are shorter than 200 characters (from 200 characters on, difflib’s
      automatic junk heuristic can lower the ratio of a string with itself). */
  ghost predicate RatioLaws(f: (string, string) -> real) {
    && (forall a, b :: 0.0 <= f(a, b) <= 1.0)
    && (forall a :: 0 < |a| < 200 ==> f(a, a) == 1.0)
  }

  function EqualityRatio(a: string, b: string): real {
    if a == b then 1.0 else 0.0
  }

  type SequenceRatio = f: (string, string) -> real | RatioLaws(f) witness EqualityRatio

  /** Laws of `math.exp` used here: exp(0) = 1, exp is positive and strictly increasing on
      the non-positive reals. */
  ghost predicate ExpLaws(e: real -> real) {
    && e(0.0) == 1.0
    && (forall x :: e(x) > 0.0)
    && (forall x, y :: x < y <= 0.0 ==> e(x) < e(y))
  }

  /** A function that obeys ExpLaws, so that the laws are consistent. */
  function ExpModel(x: real): real {
    if x >= 0.0 then 1.0 + x else 1.0 / (1.0 - x)
  }

  lemma ExpModelLaws()
    ensures ExpLaws(ExpModel)
  {
    forall x, y | x < y <= 0.0
      ensures ExpModel(x) < ExpModel(y)
    {
      var p, q := 1.0 - x, 1.0 - y;
      assert p > q >= 1.0;
      assert 1.0 / q - 1.0 / p == (p - q) / (p * q);
      assert (p - q) / (p * q) > 0.0;
    }
    forall x
      ensures ExpModel(x) > 0.0
    {
      if x < 0.0 {
        assert 1.0 / (1.0 - x) > 0.0;
      }
    }
  }

  type Exp = e: real -> real | ExpLaws(e) witness (ExpModelLaws(); ExpModel)

  function Min(a: real, b: real): real { if a <= b then a else b }

  function Max(a: real, b: real): real { if a >= b then a else b }

  function Abs(n: int): nat { if n < 0 then -n else n }

  // ---------------------------------------------------------------------------------------
  // calculate_string_ratio

  /** `calculate_string_ratio(a, b)`: 0 when either text is empty, else the ratio scaled to
      0..100. */
  function StringRatio(ratio: SequenceRatio, a: string, b: string): (r: real)
    ensures 0.0 <= r <= 100.0
    ensures a == [] || b == [] ==> r == 0.0
    ensures a == b && 0 < |a| < 200 ==> r == 100.0
  {
    if a == [] || b == [] then 0.0 else ratio(a, b) * 100.0
  }

  // ---------------------------------------------------------------------------------------
  // check_common_words

  /** `w` is a non-empty piece that occurs in `video`. */
  predicate WordHit(video: string, w: string) {
    w != [] && Contains(video, w)
  }

  predicate AnyWordHit(words: seq<string>, video: string) {
    exists i | 0 <= i < |words| :: WordHit(video, words[i])
  }

  /** Some non-empty hyphen-separated piece of the title's slug occurs in the video title's
      slug (as a substring, not necessarily as a whole piece). */
  predicate SharesWord(title: string, videoTitle: string) {
    AnyWordHit(Split(Slugify(title), '-'), Slugify(videoTitle))
  }

  /** `check_common_words` (the source iterates a set of the pieces; the answer does not
      depend on the order). */
  method CheckCommonWords(title: string, videoTitle: string) returns (found: bool)
    ensures found == SharesWord(title, videoTitle)
  {
    var words := Split(Slugify(title), '-');
    var video := Slugify(videoTitle);
    var i := 0;
    while i < |words|
      invariant 0 <= i <= |words|
      invariant forall j :: 0 <= j < i ==> !WordHit(video, words[j])
    {
      if words[i] != [] && Contains(video, words[i]) {
        return true;
      }
      i := i + 1;
    }
    return false;
  }

  lemma {:induction false} SplitPiecesNonEmpty(s: string)
    requires NoDoubleHyphen(s)
    requires s == [] || s[|s| - 1] != '-'
    ensures Split(s, '-')[0] == [] <==> (s == [] || s[0] == '-')
    ensures forall k :: 1 <= k < |Split(s, '-')| ==> Split(s, '-')[k] != []
    decreases |s|
  {
    if s != [] {
      var tail := s[1..];
      assert forall k :: 0 <= k < |tail| ==> tail[k] == s[k + 1];
      if tail != [] {
        assert tail[|tail| - 1] == s[|s| - 1];
      }
      SplitPiecesNonEmpty(tail);
      if s[0] == '-' {
        assert tail != [] && tail[0] == s[1];
      }
    }
  }

  /** The first piece of a split is a prefix of the text. */
  lemma {:induction false} SplitFirstPiecePrefix(s: string, sep: char)
    ensures StartsWith(s, Split(s, sep)[0])
    decreases |s|
  {
    if s != [] && s[0] != sep {
      SplitFirstPiecePrefix(s[1..], sep);
      var p := Split(s[1..], sep)[0];
      assert s[..1 + |p|] == [s[0]] + s[1..][..|p|];
    }
  }

  lemma {:induction false} SplitPiecesOccur(s: string, sep: char)
    ensures forall k :: 0 <= k < |Split(s, sep)| ==> Contains(s, Split(s, sep)[k])
    decreases |s|
  {
    var pieces := Split(s, sep);
    if s == [] {
      assert OccursAt(s, [], 0);
    } else {
      var rest := Split(s[1..], sep);
      SplitPiecesOccur(s[1..], sep);
      forall k | 0 <= k < |pieces|
        ensures Contains(s, pieces[k])
      {
        if k == 0 && s[0] == sep {
          assert OccursAt(s, [], 0);
        } else if k == 0 {
          SplitFirstPiecePrefix(s, sep);
          ContainsFromParts(s, pieces[0]);
        } else {
          assert pieces[k] == if s[0] == sep then rest[k - 1] else rest[k];
          ContainsFromParts(s, pieces[k]);
        }
      }
    }
  }

  /** Every piece of a non-empty slug is non-empty, so the emptiness guard of
      `check_common_words` only matters for an empty title slug. */
  lemma SlugPiecesNonEmpty(slug: string)
    requires IsSlug(slug) && slug != []
    ensures forall k :: 0 <= k < |Split(slug, '-')| ==> Split(slug, '-')[k] != []
  {
    SplitPiecesNonEmpty(slug);
  }

  /** A title whose slug is empty shares no word with anything; any other title shares a
      word with itself. */
  lemma SharesWordWithItself(title: string, videoTitle: string)
    ensures Slugify(title) == [] ==> !SharesWord(title, videoTitle)
    ensures Slugify(title) != [] ==> SharesWord(title, title)
  {
    var slug := Slugify(title);
    if slug != [] {
      SlugifyIsSlug(title);
      SlugPiecesNonEmpty(slug);
      SplitPiecesOccur(slug, '-');
      assert WordHit(slug, Split(slug, '-')[0]);
    }
  }

  // ---------------------------------------------------------------------------------------
  // check_forbidden_words

  /** The markers of a non-original upload, in the source's order; "remix", "live" and
      "reverb" are listed twice. */
  const FORBIDDEN_WORDS: seq<string> := [
    "bassboosted", "remix", "remastered", "remaster", "reverb", "bassboost", "live",
    "acoustic", "8daudio", "concert", "live", "acapella", "slowed", "instrumental", "remix",
    "cover", "reverb", "nightcore", "edit", "vip", "extended", "rework"
  ]

  /** `slugify(text).replace('-', '')` */
  function MarkerKey(text: string): string {
    Replace(Slugify(text), "-", "")
  }

  predicate IsForbiddenHit(titleKey: string, videoKey: string, word: string) {
    Contains(videoKey, word) && !Contains(titleKey, word)
  }

  /** The markers of `markers`, in their order and with their repetitions, that occur in the
      video key and not in the title key. */
  function ForbiddenFound(titleKey: string, videoKey: string, markers: seq<string>): seq<string>
    decreases |markers|
  {
    if markers == [] then []
    else
      var rest := ForbiddenFound(titleKey, videoKey, markers[..|markers| - 1]);
      var last := markers[|markers| - 1];
      if IsForbiddenHit(titleKey, videoKey, last) then rest + [last] else rest
  }

  function ForbiddenWords(title: string, videoTitle: string): seq<string> {
    ForbiddenFound(MarkerKey(title), MarkerKey(videoTitle), FORBIDDEN_WORDS)
  }

  /** `check_forbidden_words` */
  method CheckForbiddenWords(title: string, videoTitle: string) returns (hasForbidden: bool, words: seq<string>)
    ensures words == ForbiddenWords(title, videoTitle)
    ensures hasForbidden <==> |words| > 0
  {
    var titleKey := MarkerKey(title);
    var videoKey := MarkerKey(videoTitle);
    words := FindMarkers(titleKey, videoKey, FORBIDDEN_WORDS);
    hasForbidden := |words| > 0;
  }

  /** The loop of `check_forbidden_words` over a marker list. */
  method FindMarkers(titleKey: string, videoKey: string, markers: seq<string>) returns (words: seq<string>)
    ensures words == ForbiddenFound(titleKey, videoKey, markers)
  {
    words := [];
    var i := 0;
    while i < |markers|
      invariant 0 <= i <= |markers|
      invariant words == ForbiddenFound(titleKey, videoKey, markers[..i])
    {
      var word := markers[i];
      if Contains(videoKey, word) && !Contains(titleKey, word) {
        words := words + [word];
      }
      assert markers[..i + 1][..i] == markers[..i];
      i := i + 1;
    }
    assert markers[..i] == markers;
  }

  /** A word is reported exactly when it is a marker that occurs in the video key and not in
      the title key. */
  lemma {:induction false} ForbiddenFoundMembers(titleKey: string, videoKey: string, markers: seq<string>, w: string)
    ensures w in ForbiddenFound(titleKey, videoKey, markers) <==> w in markers && IsForbiddenHit(titleKey, videoKey, w)
    decreases |markers|
  {
    if markers != [] {
      var init := markers[..|markers| - 1];
      ForbiddenFoundMembers(titleKey, videoKey, init, w);
      assert markers == init + [markers[|markers| - 1]];
    }
  }

  /** Each reported word is reported as many times as the list holds it. */
  lemma {:induction false} ForbiddenFoundCounts(titleKey: string, videoKey: string, markers: seq<string>, w: string)
    ensures multiset(ForbiddenFound(titleKey, videoKey, markers))[w]
         == if IsForbiddenHit(titleKey, videoKey, w) then multiset(markers)[w] else 0
    decreases |markers|
  {
    if markers != [] {
      var init := markers[..|markers| - 1];
      ForbiddenFoundCounts(titleKey, videoKey, init, w);
      assert markers == init + [markers[|markers| - 1]];
    }
  }

  /** The report follows the order of the marker list. */
  lemma {:induction false} ForbiddenFoundAppend(titleKey: string, videoKey: string, m1: seq<string>, m2: seq<string>)
    ensures ForbiddenFound(titleKey, videoKey, m1 + m2)
         == ForbiddenFound(titleKey, videoKey, m1) + ForbiddenFound(titleKey, videoKey, m2)
    decreases |m2|
  {
    if m2 == [] {
      assert m1 + m2 == m1;
    } else {
      var init := m2[..|m2| - 1];
      var last := m2[|m2| - 1];
      ForbiddenFoundAppend(titleKey, videoKey, m1, init);
      var m := m1 + m2;
      assert m != [] && m[..|m| - 1] == m1 + init && m[|m| - 1] == last;
    }
  }

  /** Two hits at different places of the list make two reported words. */
  lemma ForbiddenFoundTwoHits(titleKey: string, videoKey: string, markers: seq<string>, i: nat, j: nat)
    requires i < j < |markers|
    requires IsForbiddenHit(titleKey, videoKey, markers[i]) && IsForbiddenHit(titleKey, videoKey, markers[j])
    ensures |ForbiddenFound(titleKey, videoKey, markers)| >= 2
  {
    var front, back := markers[..j], markers[j..];
    assert markers == front + back;
    ForbiddenFoundAppend(titleKey, videoKey, front, back);
    assert markers[i] == front[i] && markers[j] == back[0];
    ForbiddenFoundMembers(titleKey, videoKey, front, markers[i]);
    ForbiddenFoundMembers(titleKey, videoKey, back, markers[j]);
  }

  /** Where "remix", "live" and "reverb" stand twice in the list. */
  lemma ForbiddenListRepeats()
    ensures FORBIDDEN_WORDS[1] == FORBIDDEN_WORDS[14] == "remix"
    ensures FORBIDDEN_WORDS[6] == FORBIDDEN_WORDS[10] == "live"
    ensures FORBIDDEN_WORDS[4] == FORBIDDEN_WORDS[16] == "reverb"
  {
  }

  // ---------------------------------------------------------------------------------------
  // calculate_title_match

  /** A score less 15 points per marker, floored at 0: never above the score it started from. */
  function Penalized(base: real, markerCount: nat): (score: real)
    requires 0.0 <= base <= 100.0
    ensures 0.0 <= score <= base
    ensures markerCount == 0 ==> score == base
  {
    Max(0.0, base - 15.0 * markerCount as real)
  }

  /** The title score: the slug ratio less 15 points per reported marker, floored at 0. */
  function TitleScore(ratio: SequenceRatio, trackTitle: string, videoTitle: string): (score: real)
    ensures 0.0 <= score <= 100.0
  {
    Penalized(StringRatio(ratio, Slugify(trackTitle), Slugify(videoTitle)), |ForbiddenWords(trackTitle, videoTitle)|)
  }

  /** `calculate_title_match` */
  method CalculateTitleMatch(ratio: SequenceRatio, trackTitle: string, videoTitle: string) returns (score: real)
    ensures score == TitleScore(ratio, trackTitle, videoTitle)
  {
    var trackSlug := Slugify(trackTitle);
    var videoSlug := Slugify(videoTitle);
    var matchScore := StringRatio(ratio, trackSlug, videoSlug);
    var hasForbidden, forbiddenWords := CheckForbiddenWords(trackTitle, videoTitle);
    score := Penalize(matchScore, hasForbidden, forbiddenWords);
  }

  /** The penalty loop of `calculate_title_match`: 15 points off per reported marker, then the
      floor at 0. */
  method Penalize(matchScore: real, hasForbidden: bool, forbiddenWords: seq<string>) returns (score: real)
    requires 0.0 <= matchScore <= 100.0
    requires hasForbidden <==> |forbiddenWords| > 0
    ensures score == Penalized(matchScore, |forbiddenWords|)
  {
    var penalized := matchScore;
    if hasForbidden {
      var i := 0;
      while i < |forbiddenWords|
        invariant 0 <= i <= |forbiddenWords|
        invariant penalized == matchScore - 15.0 * i as real
      {
        penalized := penalized - 15.0;
        i := i + 1;
      }
    }
    score := Max(0.0, penalized);
  }

  /** A title compared with itself loses nothing to markers, and scores 100 when its slug is
      non-empty and shorter than 200 characters. */
  lemma TitleScoreOfSameTitle(ratio: SequenceRatio, title: string)
    requires 0 < |Slugify(title)| < 200
    ensures ForbiddenWords(title, title) == []
    ensures TitleScore(ratio, title, title) == 100.0
  {
    SameKeyFindsNoMarker(MarkerKey(title), FORBIDDEN_WORDS);
  }

  /** No marker is reported when the title and the video have the same key. */
  lemma {:induction false} SameKeyFindsNoMarker(key: string, markers: seq<string>)
    ensures ForbiddenFound(key, key, markers) == []
    decreases |markers|
  {
    if markers != [] {
      SameKeyFindsNoMarker(key, markers[..|markers| - 1]);
    }
  }

  /** One occurrence of a marker listed twice costs 30 points: the title score is
      `Penalized(base, |ForbiddenFound(titleKey, videoKey, FORBIDDEN_WORDS)|)` for the slug ratio
      `base` and the keys of the two titles. */
  lemma RepeatedMarkerCostsThirty(base: real, titleKey: string, videoKey: string, w: string)
    requires 0.0 <= base <= 100.0
    requires w == "remix" || w == "live" || w == "reverb"
    requires IsForbiddenHit(titleKey, videoKey, w)
    ensures Penalized(base, |ForbiddenFound(titleKey, videoKey, FORBIDDEN_WORDS)|) <= Max(0.0, base - 30.0)
  {
    RepeatedMarkerHitsTwice(titleKey, videoKey, w);
    PenalizedByTwo(base, |ForbiddenFound(titleKey, videoKey, FORBIDDEN_WORDS)|);
  }

  lemma RepeatedMarkerHitsTwice(titleKey: string, videoKey: string, w: string)
    requires w == "remix" || w == "live" || w == "reverb"
    requires IsForbiddenHit(titleKey, videoKey, w)
    ensures |ForbiddenFound(titleKey, videoKey, FORBIDDEN_WORDS)| >= 2
  {
    ForbiddenListRepeats();
    if w == "remix" {
      ForbiddenFoundTwoHits(titleKey, videoKey, FORBIDDEN_WORDS, 1, 14);
    } else if w == "live" {
      ForbiddenFoundTwoHits(titleKey, videoKey, FORBIDDEN_WORDS, 6, 10);
    } else {
      ForbiddenFoundTwoHits(titleKey, videoKey, FORBIDDEN_WORDS, 4, 16);
    }
  }

  lemma PenalizedByTwo(base: real, markerCount: nat)
    requires 0.0 <= base <= 100.0 && markerCount >= 2
    ensures Penalized(base, markerCount) <= Max(0.0, base - 30.0)
  {
  }

  // ---------------------------------------------------------------------------------------
  // calculate_artist_match

  predicate AnyPieceIn(pieces: seq<string>, s: string) {
    exists i | 0 <= i < |pieces| :: Contains(s, pieces[i])
  }

  /** The primary-artist score: 90 if its slug occurs in the title slug, else 80 if it
      occurs in the channel slug, else 70 if some hyphen piece of it occurs in the title
      slug, else half the ratio against the channel slug. */
  function PrimaryArtistScore(ratio: SequenceRatio, artistSlug: string, titleSlug: string, channelSlug: string): (score: real)
    ensures 0.0 <= score <= 90.0
  {
    if Contains(titleSlug, artistSlug) then 90.0
    else if Contains(channelSlug, artistSlug) then 80.0
    else if AnyPieceIn(Split(artistSlug, '-'), titleSlug) then 70.0
    else StringRatio(ratio, artistSlug, channelSlug) / 2.0
  }

  predicate ArtistFound(artist: string, titleSlug: string, channelSlug: string) {
    var slug := Slugify(artist);
    Contains(titleSlug, slug) || Contains(channelSlug, slug)
  }

  /** How many of `artists` have a slug occurring in the title slug or the channel slug. */
  function SecondaryHits(artists: seq<string>, titleSlug: string, channelSlug: string): (n: nat)
    ensures n <= |artists|
    decreases |artists|
  {
    if artists == [] then 0
    else
      SecondaryHits(artists[..|artists| - 1], titleSlug, channelSlug)
      + (if ArtistFound(artists[|artists| - 1], titleSlug, channelSlug) then 1 else 0)
  }

  function MinInt(a: int, b: int): int { if a <= b then a else b }

  /** How the primary score and the secondary hits combine: with one artist the primary
      score; with more, the average of it and 10 per secondary artist found, the bonus
      clamped at 10 per secondary artist; capped at 100 either way. */
  function CombineArtistScores(base: real, artistCount: nat, hits: nat): (score: real)
    requires artistCount >= 1 && hits <= artistCount - 1
  {
    if artistCount > 1 then
      var bonus := MinInt(10 * hits, 10 * (artistCount - 1));
      Min((base + bonus as real) / 2.0, 100.0)
    else
      Min(base, 100.0)
  }

  /** The artist score of `calculate_artist_match`. */
  function ArtistScore(ratio: SequenceRatio, artists: seq<string>, videoTitle: string, channel: string): (score: real)
    ensures 0.0 <= score <= 100.0
    ensures artists == [] ==> score == 0.0
  {
    if artists == [] then 0.0
    else
      var titleSlug := Slugify(videoTitle);
      var channelSlug := Slugify(channel);
      var base := PrimaryArtistScore(ratio, Slugify(artists[0]), titleSlug, channelSlug);
      CombineArtistScores(base, |artists|, SecondaryHits(artists[1..], titleSlug, channelSlug))
  }

  /** `calculate_artist_match` */
  method CalculateArtistMatch(ratio: SequenceRatio, artists: seq<string>, videoTitle: string, channel: string)
    returns (score: real)
    ensures score == ArtistScore(ratio, artists, videoTitle, channel)
  {
    if artists == [] {
      return 0.0;
    }
    var primarySlug := Slugify(artists[0]);
    var titleSlug := Slugify(videoTitle);
    var channelSlug := Slugify(channel);
    var matchScore: real;
    if Contains(titleSlug, primarySlug) {
      matchScore := 90.0;
    } else if Contains(channelSlug, primarySlug) {
      matchScore := 80.0;
    } else if AnyPieceIn(Split(primarySlug, '-'), titleSlug) {
      matchScore := 70.0;
    } else {
      matchScore := StringRatio(ratio, primarySlug, channelSlug) / 2.0;
    }
    assert matchScore == PrimaryArtistScore(ratio, primarySlug, titleSlug, channelSlug);
    if |artists| > 1 {
      var additional := CountFoundArtists(artists, titleSlug, channelSlug);
      var bonus := MinInt(additional, 10 * (|artists| - 1));
      matchScore := (matchScore + bonus as real) / 2.0;
    }
    score := Min(matchScore, 100.0);
  }

  /** The loop of `calculate_artist_match` over the secondary artists: 10 points for each
      whose slug occurs in the title slug or the channel slug. */
  method CountFoundArtists(artists: seq<string>, titleSlug: string, channelSlug: string) returns (additional: nat)
    requires |artists| >= 1
    ensures additional == 10 * SecondaryHits(artists[1..], titleSlug, channelSlug)
  {
    additional := 0;
    var i := 1;
    while i < |artists|
      invariant 1 <= i <= |artists|
      invariant additional == 10 * SecondaryHits(artists[1..i], titleSlug, channelSlug)
    {
      var artistSlug := Slugify(artists[i]);
      if Contains(titleSlug, artistSlug) || Contains(channelSlug, artistSlug) {
        additional := additional + 10;
      }
      assert artists[1..i + 1][..i - 1] == artists[1..i];
      i := i + 1;
    }
    assert artists[1..i] == artists[1..];
  }

  /** With a single artist the score is 90, 80 or 70 by the first branch that applies, or at
      most 50. */
  lemma SingleArtistScore(ratio: SequenceRatio, artist: string, videoTitle: string, channel: string)
    ensures var score := ArtistScore(ratio, [artist], videoTitle, channel);
            var a, t, c := Slugify(artist), Slugify(videoTitle), Slugify(channel);
            && (score == 90.0 <==> Contains(t, a))
            && (score == 80.0 <==> !Contains(t, a) && Contains(c, a))
            && (score == 70.0 <==> !Contains(t, a) && !Contains(c, a) && AnyPieceIn(Split(a, '-'), t))
            && (!Contains(t, a) && !Contains(c, a) && !AnyPieceIn(Split(a, '-'), t) ==> score <= 50.0)
  {
  }

  /** An empty primary-artist slug occurs in every title, so its base score is 90. */
  lemma EmptyPrimaryArtistScoresNinety(ratio: SequenceRatio, artists: seq<string>, videoTitle: string, channel: string)
    requires artists != [] && Slugify(artists[0]) == []
    ensures PrimaryArtistScore(ratio, [], Slugify(videoTitle), Slugify(channel)) == 90.0
    ensures |artists| == 1 ==> ArtistScore(ratio, artists, videoTitle, channel) == 90.0
  {
    assert OccursAt(Slugify(videoTitle), [], 0);
  }

  /** With several artists the score is min(100, (base + 10k) / 2), k the number of
      secondary artists found: the clamp of the bonus at 10 per secondary artist never
      binds, and the score never exceeds (90 + 10k) / 2. */
  lemma SeveralArtistsScore(base: real, artistCount: nat, hits: nat)
    requires 0.0 <= base <= 90.0
    requires artistCount > 1 && hits <= artistCount - 1
    ensures CombineArtistScores(base, artistCount, hits) == Min((base + 10.0 * hits as real) / 2.0, 100.0)
    ensures CombineArtistScores(base, artistCount, hits) <= (90.0 + 10.0 * hits as real) / 2.0
  {
  }

  // ---------------------------------------------------------------------------------------
  // calculate_duration_match

  /** `calculate_duration_match`: 50 when either duration is unknown (not positive), else
      100 * exp(-0.1 * |difference|). */
  function DurationScore(exp: Exp, trackDuration: int, videoDuration: int): (score: real)
    ensures 0.0 < score <= 100.0
    ensures trackDuration <= 0 || videoDuration <= 0 ==> score == 50.0
  {
    if trackDuration <= 0 || videoDuration <= 0 then 50.0
    else
      var x := -0.1 * Abs(trackDuration - videoDuration) as real;
      assert x < 0.0 ==> exp(x) < exp(0.0);
      exp(x) * 100.0
  }

  /** Known durations: the score depends only on the size of the difference, is 100 for
      equal durations and strictly falls as the difference grows. */
  lemma DurationScoreByDifference(exp: Exp, t1: int, v1: int, t2: int, v2: int)
    requires t1 > 0 && v1 > 0 && t2 > 0 && v2 > 0
    ensures t1 == v1 ==> DurationScore(exp, t1, v1) == 100.0
    ensures Abs(t1 - v1) == Abs(t2 - v2) ==> DurationScore(exp, t1, v1) == DurationScore(exp, t2, v2)
    ensures Abs(t1 - v1) < Abs(t2 - v2) ==> DurationScore(exp, t1, v1) > DurationScore(exp, t2, v2)
  {
    var x1 := -0.1 * Abs(t1 - v1) as real;
    var x2 := -0.1 * Abs(t2 - v2) as real;
    if Abs(t1 - v1) < Abs(t2 - v2) {
      assert x2 < x1 <= 0.0;
      assert exp(x2) < exp(x1);
    }
  }

  // ---------------------------------------------------------------------------------------
  // score_video

  datatype Track = Track(title: string, artists: seq<string>, duration: int)

  datatype Video = Video(title: string, channel: string, duration: int)

  /** The details dictionary of `score_video`: a rejection with its reason, or the scores. */
  datatype ScoreDetails =
    | NoCommonWords
    | TitleTooLow(titleScore: real)
    | ArtistTooLow(artistScore: real)
    | Scored(titleScore: real, artistScore: real, durationScore: real, bonuses: int, totalScore: real)
  {
    predicate Rejected() { !Scored? }

    function Reason(): string
      requires Rejected()
    {
      match this
      case NoCommonWords => "No common words found"
      case TitleTooLow(_) => "Title score too low"
      case ArtistTooLow(_) => "Artist score too low"
    }

    /** The first component of the returned pair. */
    function Total(): real {
      if Scored? then totalScore else 0.0
    }
  }

  /** The top tier of bonuses, on the lower-cased title and channel: only the first of topic
      channel (15), "official" in title or channel (10) and "vevo" channel (8) applies. */
  function OfficialBonus(title: string, channel: string): int {
    if Contains(channel, " - topic") then 15
    else if Contains(title, "official") || Contains(channel, "official") then 10
    else if Contains(channel, "vevo") then 8
    else 0
  }

  /** On the lower-cased title: "official audio" gives 10, else "audio" gives 5. */
  function AudioBonus(title: string): int {
    if Contains(title, "official audio") then 10 else if Contains(title, "audio") then 5 else 0
  }

  function QualityBonus(videoTitle: string, channel: string, isVerified: bool): int {
    OfficialBonus(Lower(videoTitle), Lower(channel)) + AudioBonus(Lower(videoTitle)) + (if isVerified then 10 else 0)
  }

  /** The weighted sum capped at 100: title 0.5, artist 0.3, duration 0.2 for a verified
      candidate, 0.4, 0.4, 0.2 otherwise, plus the bonuses. */
  function WeightedTotal(t: real, a: real, d: real, bonuses: int, isVerified: bool): real {
    var sum := if isVerified then 0.5 * t + 0.3 * a + 0.2 * d + bonuses as real
               else 0.4 * t + 0.4 * a + 0.2 * d + bonuses as real;
    Min(sum, 100.0)
  }

  /** The decision of `score_video` once the common-word check and the sub-scores are known:
      reject without common words, then below a title score of 60, then (unless verified)
      below an artist score of 50; otherwise the weighted total. */
  function Decide(sharesWord: bool, t: real, a: real, d: real, bonuses: int, isVerified: bool): ScoreDetails {
    if !sharesWord then NoCommonWords
    else if t < 60.0 then TitleTooLow(t)
    else if a < 50.0 && !isVerified then ArtistTooLow(a)
    else Scored(t, a, d, bonuses, WeightedTotal(t, a, d, bonuses, isVerified))
  }

  /** What `score_video` returns, as a value. */
  function Score(ratio: SequenceRatio, exp: Exp, track: Track, video: Video, isVerified: bool): ScoreDetails {
    Decide(SharesWord(track.title, video.title),
           TitleScore(ratio, track.title, video.title),
           ArtistScore(ratio, track.artists, video.title, video.channel),
           DurationScore(exp, track.duration, video.duration),
           QualityBonus(video.title, video.channel, isVerified),
           isVerified)
  }

  /** `score_video`: the total score and the details. */
  method ScoreVideo(ratio: SequenceRatio, exp: Exp, track: Track, video: Video, isVerified: bool)
    returns (totalScore: real, details: ScoreDetails)
    ensures details == Score(ratio, exp, track, video, isVerified)
    ensures totalScore == details.Total()
  {
    var common := CheckCommonWords(track.title, video.title);
    if !common {
      return 0.0, NoCommonWords;
    }
    var titleScore := CalculateTitleMatch(ratio, track.title, video.title);
    var artistScore := CalculateArtistMatch(ratio, track.artists, video.title, video.channel);
    var durationScore := DurationScore(exp, track.duration, video.duration);
    var bonuses := QualityBonuses(video.title, video.channel, isVerified);
    assert Score(ratio, exp, track, video, isVerified)
        == Decide(common, titleScore, artistScore, durationScore, bonuses, isVerified);
    totalScore, details := Weigh(titleScore, artistScore, durationScore, bonuses, isVerified);
  }

  /** The end of `score_video`: the title and artist gates, then the weighted total. */
  method Weigh(titleScore: real, artistScore: real, durationScore: real, bonuses: int, isVerified: bool)
    returns (totalScore: real, details: ScoreDetails)
    ensures details == Decide(true, titleScore, artistScore, durationScore, bonuses, isVerified)
    ensures totalScore == details.Total()
  {
    if titleScore < 60.0 {
      return 0.0, TitleTooLow(titleScore);
    }
    if artistScore < 50.0 && !isVerified {
      return 0.0, ArtistTooLow(artistScore);
    }
    if isVerified {
      totalScore := titleScore * 0.5 + artistScore * 0.3 + durationScore * 0.2 + bonuses as real;
    } else {
      totalScore := titleScore * 0.4 + artistScore * 0.4 + durationScore * 0.2 + bonuses as real;
    }
    totalScore := Min(totalScore, 100.0);
    details := Scored(titleScore, artistScore, durationScore, bonuses, totalScore);
  }

  /** The quality bonuses of `score_video`, added up one tier at a time. */
  method QualityBonuses(videoTitle: string, channel: string, isVerified: bool) returns (bonuses: int)
    ensures bonuses == QualityBonus(videoTitle, channel, isVerified)
    ensures 0 <= bonuses <= 35
  {
    var title := Lower(videoTitle);
    var ch := Lower(channel);
    bonuses := 0;
    if Contains(ch, " - topic") {
      bonuses := bonuses + 15;
    } else if Contains(title, "official") || Contains(ch, "official") {
      bonuses := bonuses + 10;
    } else if Contains(ch, "vevo") {
      bonuses := bonuses + 8;
    }
    if Contains(title, "official audio") {
      bonuses := bonuses + 10;
    } else if Contains(title, "audio") {
      bonuses := bonuses + 5;
    }
    if isVerified {
      bonuses := bonuses + 10;
    }
  }

  /** A candidate is accepted exactly when it shares a word with the track, its title score
      is at least 60, and it is verified or its artist score is at least 50; an accepted
      candidate scores above 40 and at most 100, so a total of 0 always means a rejection. */
  lemma DecideAcceptance(sharesWord: bool, t: real, a: real, d: real, bonuses: int, isVerified: bool)
    requires 0.0 <= t <= 100.0 && 0.0 <= a <= 100.0 && 0.0 < d <= 100.0
    requires bonuses >= (if isVerified then 10 else 0)
    ensures var r := Decide(sharesWord, t, a, d, bonuses, isVerified);
            && (r.Scored? <==> sharesWord && t >= 60.0 && (isVerified || a >= 50.0))
            && (r.Scored? ==> 40.0 < r.totalScore <= 100.0)
            && (r.Total() == 0.0 <==> r.Rejected())
  {
  }

  lemma ScoreAcceptance(ratio: SequenceRatio, exp: Exp, track: Track, video: Video, isVerified: bool)
    ensures var r := Score(ratio, exp, track, video, isVerified);
            && (r.Scored? <==> SharesWord(track.title, video.title)
                               && TitleScore(ratio, track.title, video.title) >= 60.0
                               && (isVerified || ArtistScore(ratio, track.artists, video.title, video.channel) >= 50.0))
            && (r.Scored? ==> 40.0 < r.totalScore <= 100.0)
            && (r.Total() == 0.0 <==> r.Rejected())
  {
    QualityBonusRange(video.title, video.channel, isVerified);
    DecideAcceptance(SharesWord(track.title, video.title),
                     TitleScore(ratio, track.title, video.title),
                     ArtistScore(ratio, track.artists, video.title, video.channel),
                     DurationScore(exp, track.duration, video.duration),
                     QualityBonus(video.title, video.channel, isVerified),
                     isVerified);
  }

  /** The bonuses lie in [0, 35], at least 10 of them for a verified candidate. */
  lemma QualityBonusRange(videoTitle: string, channel: string, isVerified: bool)
    ensures 0 <= QualityBonus(videoTitle, channel, isVerified) <= 35
    ensures OfficialBonus(Lower(videoTitle), Lower(channel)) in {0, 8, 10, 15}
    ensures isVerified ==> QualityBonus(videoTitle, channel, isVerified) >= 10
    ensures QualityBonus(videoTitle, channel, true) == QualityBonus(videoTitle, channel, false) + 10
  {
  }

  /** Being verified never lowers a candidate's total: the verified weights favour the title
      score, which is at least 60 for an accepted candidate, and add 10 bonus points. */
  lemma DecideVerifiedNeverLower(sharesWord: bool, t: real, a: real, d: real, verifiedBonuses: int, bonuses: int)
    requires 0.0 <= t <= 100.0 && 0.0 <= a <= 100.0 && 0.0 < d <= 100.0
    requires bonuses >= 0 && verifiedBonuses == bonuses + 10
    ensures Decide(sharesWord, t, a, d, verifiedBonuses, true).Total()
         >= Decide(sharesWord, t, a, d, bonuses, false).Total()
  {
  }

  lemma VerifiedNeverScoresLower(ratio: SequenceRatio, exp: Exp, track: Track, video: Video)
    ensures Score(ratio, exp, track, video, true).Total() >= Score(ratio, exp, track, video, false).Total()
  {
    var common := SharesWord(track.title, video.title);
    var t := TitleScore(ratio, track.title, video.title);
    var a := ArtistScore(ratio, track.artists, video.title, video.channel);
    var d := DurationScore(exp, track.duration, video.duration);
    QualityBonusRange(video.title, video.channel, false);
    DecideVerifiedNeverLower(common, t, a, d, QualityBonus(video.title, video.channel, true),
                             QualityBonus(video.title, video.channel, false));
  }
}
