/** The POSIX `os.path` functions the modelled code calls: basename, dirname, join, splitext. */
module Paths {
  import opened Text

  /** `str.rfind(c)`: the index of the last `c` in `s`, or -1. */
  function LastIndex(s: string, c: char): (i: int)
    ensures -1 <= i < |s|
    ensures i >= 0 ==> s[i] == c
    ensures forall k :: i < k < |s| ==> s[k] != c
    decreases |s|
  {
    if s == [] then -1
    else if s[|s| - 1] == c then |s| - 1
    else LastIndex(s[..|s| - 1], c)
  }

  /** `os.path.basename`: everything after the last slash. */
  function Basename(p: string): (name: string)
    ensures '/' !in name
  {
    p[LastIndex(p, '/') + 1..]
  }

  /** After a prefix that ends with `c`, a text without `c` leaves the last `c` where it is. */
  lemma {:induction false} LastIndexAfterPrefix(prefix: string, name: string, c: char)
    requires c !in name
    requires prefix == [] || prefix[|prefix| - 1] == c
    ensures LastIndex(prefix + name, c) == |prefix| - 1
    decreases |name|
  {
    if name == [] {
      assert prefix + name == prefix;
    } else {
      var init := name[..|name| - 1];
      assert name[|name| - 1] in name;
      assert (prefix + name)[..|prefix + name| - 1] == prefix + init;
      LastIndexAfterPrefix(prefix, init, c);
    }
  }

  /** A name without a slash joined to a folder is its own base name. */
  lemma BasenameOfJoin(a: string, name: string)
    requires '/' !in name && name != []
    ensures Basename(Join(a, name)) == name
  {
    assert name[0] in name;
    var prefix := if a == [] || EndsWith(a, "/") then a else a + "/";
    assert Join(a, name) == prefix + name;
    LastIndexAfterPrefix(prefix, name, '/');
    assert (prefix + name)[|prefix|..] == name;
  }

  predicate IsSlash(c: char) { c == '/' }

  /** `os.path.dirname`: everything before the last slash, trailing slashes removed unless
      nothing but slashes is left. */
  function Dirname(p: string): string {
    var head := p[..LastIndex(p, '/') + 1];
    if head != [] && exists k | 0 <= k < |head| :: head[k] != '/' then TrimEnd(head, IsSlash)
    else head
  }

  /** `os.path.join(a, b)` */
  function Join(a: string, b: string): string {
    if StartsWith(b, "/") then b
    else if a == [] || EndsWith(a, "/") then a + b
    else a + "/" + b
  }

  /** `os.path.splitext`: the extension is the text from the last dot of the last path
      component, provided that component has a character other than a dot before it. */
  function SplitExt(p: string): (parts: (string, string))
    ensures parts.0 + parts.1 == p
    ensures parts.1 == [] || (parts.1[0] == '.' && '/' !in parts.1)
  {
    var sepIndex := LastIndex(p, '/');
    var dotIndex := LastIndex(p, '.');
    if dotIndex > sepIndex && exists k | sepIndex < k < dotIndex :: p[k] != '.' then
      (p[..dotIndex], p[dotIndex..])
    else
      (p, [])
  }

  predicate NoDoubleSlash(p: string) {
    forall k :: 0 <= k < |p| - 1 ==> !(p[k] == '/' && p[k + 1] == '/')
  }

  /** `join(dirname(p), basename(p)) == p` for a path without doubled slashes. */
  lemma JoinDirnameBasename(p: string)
    requires NoDoubleSlash(p)
    ensures Join(Dirname(p), Basename(p)) == p
  {
    var l := LastIndex(p, '/');
    BasenameHasNoLeadingSlash(p);
    if l < 0 {
      JoinInCurrentDirectory(p);
    } else if l == 0 {
      DirnameOfRootChild(p);
      assert p == "/" + Basename(p);
    } else {
      DirnameBeforeSingleSlash(p, l);
      JoinBelowDirectory(p, l);
    }
  }

  lemma BasenameHasNoLeadingSlash(p: string)
    ensures !StartsWith(Basename(p), "/")
  {
    var name := Basename(p);
    if name != [] {
      assert name[0] in name;
      assert name[..1][0] != "/"[0];
    }
  }

  lemma JoinInCurrentDirectory(p: string)
    requires LastIndex(p, '/') < 0
    ensures Join(Dirname(p), Basename(p)) == p
  {
    DirnameWithoutSlash(p);
    assert Basename(p) == p;
    assert !StartsWith(p, "/") by {
      if p != [] {
        assert p[..1][0] != "/"[0];
      }
    }
  }

  lemma DirnameWithoutSlash(p: string)
    requires LastIndex(p, '/') < 0
    ensures Dirname(p) == []
  {
  }

  lemma JoinBelowDirectory(p: string, l: int)
    requires l == LastIndex(p, '/') && l > 0 && Dirname(p) == p[..l] && p[l - 1] != '/'
    requires !StartsWith(Basename(p), "/")
    ensures Join(Dirname(p), Basename(p)) == p
  {
    var dir := p[..l];
    assert !EndsWith(dir, "/") by {
      assert dir[l - 1..][0] != "/"[0];
    }
    assert p == dir + "/" + Basename(p);
  }

  lemma DirnameOfRootChild(p: string)
    requires LastIndex(p, '/') == 0
    ensures Dirname(p) == "/"
  {
    assert p[..1] == "/";
  }

  /** The directory part of a path whose last slash follows a character other than a slash. */
  lemma DirnameBeforeSingleSlash(p: string, l: int)
    requires l == LastIndex(p, '/') && l > 0 && p[l - 1] != '/'
    ensures Dirname(p) == p[..l]
  {
    var head := p[..l + 1];
    assert head[l - 1] != '/';
    assert head[..l] == p[..l];
    assert TrimEnd(head, IsSlash) == TrimEnd(p[..l], IsSlash) == p[..l];
  }
}
