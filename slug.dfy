/** The normaliser of utils/matching.py, `slugify`: lower-case the text, delete every character
    that is not a word character, whitespace or a hyphen, turn each run of hyphens and
    whitespace into one hyphen and strip hyphens from both ends. */
module Slug {
  import opened Text

  predicate IsHyphen(c: char) { c == '-' }

  /** The class `[-\s]` */
  predicate IsSeparator(c: char) { c == '-' || IsSpace(c) }

  /** The class `[\w\s-]` */
  predicate IsKept(c: char) { IsWordChar(c) || IsSpace(c) || c == '-' }

  /** `re.sub(r'[^\w\s-]', '', s)` */
  function RemoveUnkept(s: string): string
    decreases |s|
  {
    if s == [] then []
    else (if IsKept(s[0]) then [s[0]] else []) + RemoveUnkept(s[1..])
  }

  lemma {:induction false} RemoveUnkeptShape(s: string)
    ensures forall k :: 0 <= k < |RemoveUnkept(s)| ==> IsKept(RemoveUnkept(s)[k])
    ensures NoUpper(s) ==> NoUpper(RemoveUnkept(s))
    decreases |s|
  {
    if s != [] {
      var tail := s[1..];
      assert forall k :: 0 <= k < |tail| ==> tail[k] == s[k + 1];
      RemoveUnkeptShape(tail);
    }
  }

  predicate NoUpper(s: string) {
    forall k :: 0 <= k < |s| ==> !IsUpper(s[k])
  }

  predicate NoDoubleHyphen(s: string) {
    forall k :: 0 <= k < |s| - 1 ==> !(s[k] == '-' && s[k + 1] == '-')
  }

  /** `re.sub(r'[-\s]+', '-', s)` */
  function CollapseSeparators(s: string): string {
    CollapseFrom(s, false)
  }

  /** The collapse of `s` when `inRun` says whether a run of separators has just been turned
      into a hyphen (so that further separators are dropped). */
  function CollapseFrom(s: string, inRun: bool): (r: string)
    decreases |s|
  {
    if s == [] then []
    else if IsSeparator(s[0]) then (if inRun then [] else "-") + CollapseFrom(s[1..], true)
    else [s[0]] + CollapseFrom(s[1..], false)
  }

  /** A character that may reach the separator step: a slug character or whitespace. */
  predicate IsSlugCharOrSpace(c: char) { IsSlugChar(c) || IsSpace(c) }

  lemma {:induction false} CollapseShape(s: string, inRun: bool)
    requires forall k :: 0 <= k < |s| ==> IsSlugCharOrSpace(s[k])
    ensures AllSlugChars(CollapseFrom(s, inRun))
    ensures NoDoubleHyphen(CollapseFrom(s, inRun))
    ensures inRun && CollapseFrom(s, inRun) != [] ==> CollapseFrom(s, inRun)[0] != '-'
    decreases |s|
  {
    if s != [] {
      var tail := s[1..];
      assert forall k :: 0 <= k < |tail| ==> tail[k] == s[k + 1];
      CollapseShape(tail, true);
      CollapseShape(tail, false);
    }
  }

  predicate IsSlugChar(c: char) { 'a' <= c <= 'z' || IsDigit(c) || c == '_' || c == '-' }

  /** What `slugify` produces: lower-case word characters and hyphens, no whitespace, no two
      hyphens in a row, no hyphen at either end. */
  predicate IsSlug(s: string) {
    && AllSlugChars(s)
    && NoDoubleHyphen(s)
    && (s != [] ==> s[0] != '-' && s[|s| - 1] != '-')
  }

  predicate AllSlugChars(s: string) {
    forall k :: 0 <= k < |s| ==> IsSlugChar(s[k])
  }

  lemma SliceShape(s: string, i: nat, j: nat)
    requires i <= j <= |s|
    requires AllSlugChars(s) && NoDoubleHyphen(s)
    ensures AllSlugChars(s[i..j]) && NoDoubleHyphen(s[i..j])
  {
    var t := s[i..j];
    assert forall k :: 0 <= k < |t| ==> t[k] == s[i + k];
  }

  lemma StripHyphensShape(s: string)
    requires AllSlugChars(s) && NoDoubleHyphen(s)
    ensures IsSlug(Strip(s, IsHyphen))
  {
    var t := TrimStart(s, IsHyphen);
    TrimStartShape(s, IsHyphen);
    SliceShape(s, |s| - |t|, |s|);
    var r := TrimEnd(t, IsHyphen);
    TrimEndShape(t, IsHyphen);
    SliceShape(t, 0, |r|);
    assert r != [] ==> r[0] == t[0];
  }

  /** `slugify(text)`: the empty text gives the empty slug. */
  function Slugify(text: string): string {
    if text == [] then []
    else Strip(CollapseSeparators(RemoveUnkept(Lower(text))), IsHyphen)
  }

  /** `slugify` always produces a slug. */
  lemma SlugifyIsSlug(text: string)
    ensures IsSlug(Slugify(text))
  {
    if text != [] {
      var kept := RemoveUnkept(Lower(text));
      assert NoUpper(Lower(text));
      RemoveUnkeptShape(Lower(text));
      assert forall k :: 0 <= k < |kept| ==> IsSlugCharOrSpace(kept[k]);
      CollapseShape(kept, false);
      StripHyphensShape(CollapseSeparators(kept));
    }
  }

  lemma {:induction false} RemoveUnkeptKeepsSlug(s: string)
    requires AllSlugChars(s)
    ensures RemoveUnkept(s) == s
    decreases |s|
  {
    if s != [] {
      assert forall k :: 0 <= k < |s| - 1 ==> s[1..][k] == s[k + 1];
      RemoveUnkeptKeepsSlug(s[1..]);
    }
  }

  lemma {:induction false} CollapseKeepsSlug(s: string, inRun: bool)
    requires AllSlugChars(s) && NoDoubleHyphen(s)
    requires inRun ==> s == [] || s[0] != '-'
    ensures CollapseFrom(s, inRun) == s
    decreases |s|
  {
    if s != [] {
      var tail := s[1..];
      SliceShape(s, 1, |s|);
      assert tail != [] ==> tail[0] == s[1];
      CollapseKeepsSlug(tail, s[0] == '-');
    }
  }

  /** A slug is left unchanged by `slugify`. */
  lemma SlugifyFixesSlugs(s: string)
    requires IsSlug(s)
    ensures Slugify(s) == s
  {
    if s != [] {
      assert Lower(s) == s;
      RemoveUnkeptKeepsSlug(s);
      CollapseKeepsSlug(s, false);
      assert TrimStart(s, IsHyphen) == s;
    }
  }

  /** `slugify` is idempotent. */
  lemma SlugifyIdempotent(text: string)
    ensures Slugify(Slugify(text)) == Slugify(text)
  {
    SlugifyIsSlug(text);
    SlugifyFixesSlugs(Slugify(text));
  }
}
