/** A Python dict from a key to the list of paths filed under it, built by appending paths one
    at a time (`if k not in d: d[k] = []` then `d[k].append(p)`), as both organizers do.
    Dict iteration follows insertion order, so a dict is its key order plus a map. */
module Grouping {

  datatype Groups = Groups(order: seq<string>, members: map<string, seq<string>>)

  predicate Distinct(s: seq<string>) {
    forall i, j :: 0 <= i < j < |s| ==> s[i] != s[j]
  }

  /** The keys in `order` are those of `members`, each once. */
  predicate Valid(g: Groups) {
    && Distinct(g.order)
    && (forall k :: k in g.members ==> k in g.order)
    && (forall k :: k in g.order ==> k in g.members)
  }

  const Empty: Groups := Groups([], map[])

  /** `p` appended to the list under `k`, which is created (last in order) when missing. */
  function Add(g: Groups, k: string, p: string): (r: Groups)
    requires Valid(g)
    ensures Valid(r)
  {
    if k in g.members then Groups(g.order, g.members[k := g.members[k] + [p]])
    else Groups(g.order + [k], g.members[k := [p]])
  }

  /** The dict built from `paths`, each filed under `key` of it. */
  function Grouped(paths: seq<string>, key: string -> string): (g: Groups)
    ensures Valid(g)
    decreases |paths|
  {
    if paths == [] then Empty
    else
      var last := paths[|paths| - 1];
      Add(Grouped(paths[..|paths| - 1], key), key(last), last)
  }

  /** Filing one more path extends the dict built from the paths before it. */
  lemma GroupedSnoc(paths: seq<string>, key: string -> string)
    requires paths != []
    ensures Grouped(paths, key) == Add(Grouped(paths[..|paths| - 1], key), key(paths[|paths| - 1]), paths[|paths| - 1])
  {
  }

  lemma GroupedAppend(paths: seq<string>, p: string, key: string -> string)
    ensures Grouped(paths + [p], key) == Add(Grouped(paths, key), key(p), p)
  {
    assert (paths + [p])[..|paths|] == paths;
  }

  /** The two steps of the source: `if k not in d: d[k] = []`, then `d[k].append(p)`. */
  method AddPath(g: Groups, k: string, p: string) returns (r: Groups)
    requires Valid(g)
    ensures r == Add(g, k, p)
  {
    r := g;
    if k !in r.members {
      r := Groups(r.order + [k], r.members[k := []]);
    }
    r := r.(members := r.members[k := r.members[k] + [p]]);
    assert [] + [p] == [p];
  }

  /** The paths whose key is `k`, in their order in `paths`. */
  function Having(paths: seq<string>, key: string -> string, k: string): (r: seq<string>)
    ensures |r| <= |paths|
    decreases |paths|
  {
    if paths == [] then []
    else
      var last := paths[|paths| - 1];
      Having(paths[..|paths| - 1], key, k) + (if key(last) == k then [last] else [])
  }

  lemma {:induction false} HavingMembers(paths: seq<string>, key: string -> string, k: string, p: string)
    ensures p in Having(paths, key, k) <==> p in paths && key(p) == k
    decreases |paths|
  {
    if paths != [] {
      var init := paths[..|paths| - 1];
      HavingMembers(init, key, k, p);
      assert paths == init + [paths[|paths| - 1]];
    }
  }

  /** A key is present exactly when some path has it, and its list is `Having`: every path
      is filed under its own key and no other, and each list keeps the order of `paths`. */
  lemma {:induction false} GroupedAt(paths: seq<string>, key: string -> string, k: string)
    ensures k in Grouped(paths, key).members <==> Having(paths, key, k) != []
    ensures k in Grouped(paths, key).members ==> Grouped(paths, key).members[k] == Having(paths, key, k)
    decreases |paths|
  {
    if paths != [] {
      GroupedAt(paths[..|paths| - 1], key, k);
    }
  }

  /** The total length of the lists under the keys of `order`. */
  function Sum(order: seq<string>, members: map<string, seq<string>>): nat
    requires forall k :: k in order ==> k in members
    decreases |order|
  {
    if order == [] then 0
    else Sum(order[..|order| - 1], members) + |members[order[|order| - 1]]|
  }

  function TotalSize(g: Groups): nat
    requires Valid(g)
  {
    Sum(g.order, g.members)
  }

  lemma {:induction false} SumFrame(order: seq<string>, m1: map<string, seq<string>>, m2: map<string, seq<string>>)
    requires forall k :: k in order ==> k in m1 && k in m2 && m1[k] == m2[k]
    ensures Sum(order, m1) == Sum(order, m2)
    decreases |order|
  {
    if order != [] {
      SumFrame(order[..|order| - 1], m1, m2);
    }
  }

  /** One more path under a key listed once adds one to the total. */
  lemma {:induction false} SumBump(order: seq<string>, m: map<string, seq<string>>, k: string, p: string)
    requires Distinct(order) && k in order
    requires forall j :: j in order ==> j in m
    ensures Sum(order, m[k := m[k] + [p]]) == Sum(order, m) + 1
    decreases |order|
  {
    var init := order[..|order| - 1];
    var last := order[|order| - 1];
    assert order == init + [last];
    var m' := m[k := m[k] + [p]];
    if last == k {
      assert k !in init;
      SumFrame(init, m, m');
    } else {
      assert Distinct(init);
      SumBump(init, m, k, p);
    }
  }

  lemma AddTotal(g: Groups, k: string, p: string)
    requires Valid(g)
    ensures TotalSize(Add(g, k, p)) == TotalSize(g) + 1
  {
    if k in g.members {
      SumBump(g.order, g.members, k, p);
    } else {
      var r := Add(g, k, p);
      assert r.order[..|r.order| - 1] == g.order;
      SumFrame(g.order, g.members, r.members);
    }
  }

  /** Every path is filed once: the lists together hold as many paths as were given. */
  lemma {:induction false} GroupedTotal(paths: seq<string>, key: string -> string)
    ensures TotalSize(Grouped(paths, key)) == |paths|
    decreases |paths|
  {
    if paths != [] {
      var init := paths[..|paths| - 1];
      var last := paths[|paths| - 1];
      GroupedTotal(init, key);
      AddTotal(Grouped(init, key), key(last), last);
    }
  }
}
