/** The plugin manager's catalogue (src/plugins/plugin_manager.c).

    The manager keeps the scanned descriptors, the list of category names
    and the list of author names (each without duplicates) and a cache of
    LV2 URI nodes in a buffer that doubles when full.  Descriptors are
    ordered for display by `sort_plugin_func`, a case-insensitive order in
    which names that differ only in case put lower case first. */
module PluginManagers {
  import opened Wrappers
  import opened PluginDescriptors

  // ---------------------------------------------------------------------
  // Names: strcmp, strcasecmp and the descriptor order
  // ---------------------------------------------------------------------

  /** The sign of C's `strcmp`: characters compare by code, and a proper
      prefix sorts first. */
  function StrCmp(a: string, b: string): int
    decreases |a|
  {
    if a == [] && b == [] then 0
    else if a == [] then -1
    else if b == [] then 1
    else if a[0] < b[0] then -1
    else if b[0] < a[0] then 1
    else StrCmp(a[1..], b[1..])
  }

  /** `tolower` in the C locale. */
  function Lower(c: char): char
  {
    if 'A' <= c <= 'Z' then (c as int + 32) as char else c
  }

  function Folded(s: string): string
  {
    seq(|s|, i requires 0 <= i < |s| => Lower(s[i]))
  }

  /** The sign of `strcasecmp`: `strcmp` on the lower-cased names. */
  function StrCaseCmp(a: string, b: string): int
  {
    StrCmp(Folded(a), Folded(b))
  }

  /** `sort_plugin_func` on the names of two descriptors (NULL is None). */
  function SortPluginFunc(a: Option<string>, b: Option<string>): int
  {
    if a.None? || b.None? then -1
    else
      var r := StrCaseCmp(a.value, b.value);
      if r != 0 then r else -StrCmp(a.value, b.value)
  }

  /** `strcmp` reports equality exactly for identical strings. */
  lemma {:induction false} StrCmpZero(a: string, b: string)
    ensures StrCmp(a, b) == 0 <==> a == b
    decreases |a|
  {
    if a != [] && b != [] && a[0] == b[0] {
      StrCmpZero(a[1..], b[1..]);
      assert a == [a[0]] + a[1..] && b == [b[0]] + b[1..];
    }
  }

  /** Swapping the arguments of `strcmp` negates the result. */
  lemma {:induction false} StrCmpFlip(a: string, b: string)
    ensures StrCmp(b, a) == -StrCmp(a, b)
    decreases |a|
  {
    if a != [] && b != [] && a[0] == b[0] {
      StrCmpFlip(a[1..], b[1..]);
    }
  }

  /** `strcmp` orders strings transitively. */
  lemma {:induction false} StrCmpTrans(a: string, b: string, c: string)
    requires StrCmp(a, b) < 0 && StrCmp(b, c) < 0
    ensures StrCmp(a, c) < 0
    decreases |a|
  {
    if a != [] && b != [] && c != [] && a[0] == b[0] && b[0] == c[0] {
      StrCmpTrans(a[1..], b[1..], c[1..]);
    }
  }

  /** A common prefix does not change the outcome of `strcmp`. */
  lemma {:induction false} StrCmpPrefix(p: string, a: string, b: string)
    ensures StrCmp(p + a, p + b) == StrCmp(a, b)
    decreases |p|
  {
    if p != [] {
      var pa, pb := p + a, p + b;
      assert pa != [] && pb != [] && pa[0] == p[0] == pb[0];
      assert pa[1..] == p[1..] + a && pb[1..] == p[1..] + b;
      assert StrCmp(pa, pb) == StrCmp(pa[1..], pb[1..]);
      StrCmpPrefix(p[1..], a, b);
    } else {
      assert p + a == a && p + b == b;
    }
  }

  /** `sort_plugin_func` returns 0 only for identical names. */
  lemma SortPluginFuncZero(a: string, b: string)
    ensures SortPluginFunc(Some(a), Some(b)) == 0 <==> a == b
  {
    StrCmpZero(a, b);
    StrCmpZero(Folded(a), Folded(b));
  }

  /** `sort_plugin_func` is antisymmetric on named descriptors. */
  lemma SortPluginFuncFlip(a: string, b: string)
    ensures SortPluginFunc(Some(b), Some(a)) == -SortPluginFunc(Some(a), Some(b))
  {
    StrCmpFlip(Folded(a), Folded(b));
    StrCmpFlip(a, b);
  }

  /** `sort_plugin_func` is transitive, so with the two lemmas above it is
      a strict total order on names and `qsort` has a well-defined result. */
  lemma SortPluginFuncTrans(a: string, b: string, c: string)
    requires SortPluginFunc(Some(a), Some(b)) < 0 && SortPluginFunc(Some(b), Some(c)) < 0
    ensures SortPluginFunc(Some(a), Some(c)) < 0
  {
    var fa, fb, fc := Folded(a), Folded(b), Folded(c);
    var r1, r2 := StrCmp(fa, fb), StrCmp(fb, fc);
    StrCmpZero(fa, fb);
    StrCmpZero(fb, fc);
    if r1 < 0 && r2 < 0 {
      StrCmpTrans(fa, fb, fc);
    } else if r1 == 0 && r2 == 0 {
      StrCmpFlip(a, b);
      StrCmpFlip(b, c);
      StrCmpFlip(a, c);
      StrCmpTrans(c, b, a);
    }
  }

  /** Where two names first differ, in a lower-case letter of `a` against
      the same upper-case letter of `b`, and agree ignoring case after
      that, `a` sorts first. */
  lemma LowerBeforeUpper(p: string, x: char, y: char, s: string, t: string)
    requires 'A' <= y <= 'Z' && x == Lower(y)
    requires Folded(s) == Folded(t)
    ensures SortPluginFunc(Some(p + [x] + s), Some(p + [y] + t)) < 0
  {
    var a, b := p + [x] + s, p + [y] + t;
    assert Folded(a) == Folded(b) by {
      assert forall i :: 0 <= i < |a| ==> Folded(a)[i] == Folded(b)[i] by {
        forall i | 0 <= i < |a|
          ensures Folded(a)[i] == Folded(b)[i]
        {
          if |p| + 1 <= i {
            assert a[i] == s[i - |p| - 1] && b[i] == t[i - |p| - 1];
            assert Folded(s)[i - |p| - 1] == Folded(t)[i - |p| - 1];
          }
        }
      }
    }
    StrCmpZero(Folded(a), Folded(b));
    assert a == p + ([x] + s) && b == p + ([y] + t);
    StrCmpPrefix(p, [x] + s, [y] + t);
  }

  /** "a" sorts before "A". */
  lemma LowerCaseFirst()
    ensures SortPluginFunc(Some("a"), Some("A")) < 0
    ensures SortPluginFunc(Some("A"), Some("a")) > 0
  {
    LowerBeforeUpper([], 'a', 'A', [], []);
    assert [] + ['a'] + [] == "a" && [] + ['A'] + [] == "A";
    SortPluginFuncFlip("a", "A");
  }

  /** `string_is_ascii`. */
  predicate IsAscii(s: string)
  {
    forall i :: 0 <= i < |s| ==> s[i] < 128 as char
  }

  // ---------------------------------------------------------------------
  // Category and author lists
  // ---------------------------------------------------------------------

  /** `list` after appending `x` unless it is NULL or already listed. */
  function Added(list: seq<string>, x: Option<string>): (r: seq<string>)
    ensures list <= r && |r| <= |list| + 1
    ensures forall y :: y in r <==> y in list || (x.Some? && y == x.value)
  {
    if x.Some? && x.value !in list then list + [x.value] else list
  }

  /** Adding keeps a list free of duplicates. */
  lemma AddedNoDup(list: seq<string>, x: Option<string>)
    requires NoDup(list)
    ensures NoDup(Added(list, x))
  {
  }

  /** Adding a name already present, or NULL, changes nothing. */
  lemma AddedIdempotent(list: seq<string>, x: Option<string>)
    ensures Added(Added(list, x), x) == Added(list, x)
    ensures x.None? || x.value in list ==> Added(list, x) == list
  {
  }

  /** The `strcmp` scan of `add_category_and_author`. */
  method Listed(list: seq<string>, s: string) returns (found: bool)
    ensures found <==> s in list
  {
    var i := 0;
    while i < |list|
      invariant 0 <= i <= |list|
      invariant s !in list[..i]
    {
      StrCmpZero(list[i], s);
      if StrCmp(list[i], s) == 0 {
        return true;
      }
      i := i + 1;
    }
    return false;
  }

  // ---------------------------------------------------------------------
  // The catalogue as a value, and the cached-descriptor merge
  // ---------------------------------------------------------------------

  datatype Catalog = Catalog(descriptors: seq<Descriptor>, categories: seq<string>, authors: seq<string>)

  /** `add_category_and_author`: a NULL category stops it before the
      author is looked at. */
  function Register(c: Catalog, category: Option<string>, author: Option<string>): Catalog
  {
    if category.None? then c
    else Catalog(c.descriptors, Added(c.categories, category), Added(c.authors, author))
  }

  /** Some descriptor of `ds` is the same plugin as `d`, asked the way
      `g_ptr_array_find_with_equal_func` asks (element first). */
  predicate HasSame(ds: seq<Descriptor>, d: Descriptor, same: (Descriptor, Descriptor) -> bool)
  {
    exists k :: 0 <= k < |ds| && same(ds[k], d)
  }

  /** The cached-descriptor loop of `scan_carla_descriptors_from_paths`:
      each cached descriptor not already present as the same plugin is
      appended and registers its category and author. */
  function MergeCached(c: Catalog, cached: seq<Descriptor>, same: (Descriptor, Descriptor) -> bool): Catalog
    decreases |cached|
  {
    if cached == [] then c
    else
      var m := MergeCached(c, cached[..|cached| - 1], same);
      var d := cached[|cached| - 1];
      if HasSame(m.descriptors, d, same) then m
      else Register(Catalog(m.descriptors + [d], m.categories, m.authors), d.categoryStr, d.author)
  }

  /** No two descriptors of `ds` are the same plugin (earlier against later). */
  predicate NoSame(ds: seq<Descriptor>, same: (Descriptor, Descriptor) -> bool)
  {
    forall i, j :: 0 <= i < j < |ds| ==> !same(ds[i], ds[j])
  }

  /** The merge only appends: the old descriptors stay in front, every new
      one comes from the cache, every cached descriptor ends up present
      or represented by the same plugin, and the name lists only grow. */
  lemma {:induction false} MergeExtends(c: Catalog, cached: seq<Descriptor>, same: (Descriptor, Descriptor) -> bool)
    ensures var m := MergeCached(c, cached, same);
      c.descriptors <= m.descriptors && c.categories <= m.categories && c.authors <= m.authors
    ensures var m := MergeCached(c, cached, same);
      forall k :: |c.descriptors| <= k < |m.descriptors| ==> m.descriptors[k] in cached
    ensures var m := MergeCached(c, cached, same);
      forall d :: d in cached ==> d in m.descriptors || HasSame(m.descriptors, d, same)
    decreases |cached|
  {
    if cached != [] {
      var init := cached[..|cached| - 1];
      MergeExtends(c, init, same);
      var m0 := MergeCached(c, init, same);
      var m := MergeCached(c, cached, same);
      assert m0.descriptors <= m.descriptors;
      forall d | d in cached
        ensures d in m.descriptors || HasSame(m.descriptors, d, same)
      {
        if d in init {
          if !(d in m0.descriptors) {
            var k :| 0 <= k < |m0.descriptors| && same(m0.descriptors[k], d);
            assert m.descriptors[k] == m0.descriptors[k];
          }
        }
      }
    }
  }

  /** The merge never adds a plugin twice, and keeps the category and
      author lists free of duplicates. */
  lemma {:induction false} MergeKeepsDistinct(c: Catalog, cached: seq<Descriptor>, same: (Descriptor, Descriptor) -> bool)
    requires NoSame(c.descriptors, same) && NoDup(c.categories) && NoDup(c.authors)
    ensures var m := MergeCached(c, cached, same);
      NoSame(m.descriptors, same) && NoDup(m.categories) && NoDup(m.authors)
    decreases |cached|
  {
    if cached != [] {
      var init := cached[..|cached| - 1];
      MergeKeepsDistinct(c, init, same);
      var m0 := MergeCached(c, init, same);
      var d := cached[|cached| - 1];
      AddedNoDup(m0.categories, d.categoryStr);
      AddedNoDup(m0.authors, d.author);
    }
  }

  /** Every descriptor the merge adds has its category, when it has one,
      in the category list. */
  lemma {:induction false} MergeRegistersCategories(c: Catalog, cached: seq<Descriptor>, same: (Descriptor, Descriptor) -> bool)
    ensures var m := MergeCached(c, cached, same);
      forall k :: |c.descriptors| <= k < |m.descriptors| && m.descriptors[k].categoryStr.Some? ==>
        m.descriptors[k].categoryStr.value in m.categories
    decreases |cached|
  {
    if cached != [] {
      var init := cached[..|cached| - 1];
      MergeRegistersCategories(c, init, same);
      MergeExtends(c, init, same);
    }
  }

  /** The lookup `g_ptr_array_find_with_equal_func` performs. */
  method FindSame(ds: seq<Descriptor>, d: Descriptor, same: (Descriptor, Descriptor) -> bool) returns (found: bool)
    ensures found <==> HasSame(ds, d, same)
  {
    var i := 0;
    while i < |ds|
      invariant 0 <= i <= |ds|
      invariant forall k :: 0 <= k < i ==> !same(ds[k], d)
    {
      if same(ds[i], d) {
        return true;
      }
      i := i + 1;
    }
    return false;
  }

  // ---------------------------------------------------------------------
  // Protocol support
  // ---------------------------------------------------------------------

  /** What `plugin_manager_supports_protocol` answers, given whether the
      build has Carla and the features Carla reports. */
  predicate Supported(p: Protocol, haveCarla: bool, features: seq<string>)
  {
    match p
    case Dummy | Lv2 => true
    case Ladspa | Vst | Vst3 | Sfz | Jsfx | Clap => haveCarla
    case Dssi | Au | Sf2 => haveCarla && exists f :: f in features && Enables(f, p)
  }

  /** The `CHECK_FEATURE` table: which Carla feature string enables which
      protocol. */
  predicate Enables(feature: string, p: Protocol)
  {
    (feature == "sf2" && p == Sf2) || (feature == "osc" && p == Dssi) ||
    (feature == "vst3" && p == Vst3) || (feature == "au" && p == Au)
  }

  /** `plugin_manager_supports_protocol`, with the feature scan. */
  method SupportsProtocol(p: Protocol, haveCarla: bool, features: seq<string>) returns (r: bool)
    ensures r == Supported(p, haveCarla, features)
  {
    match p {
      case Dummy | Lv2 => return true;
      case Ladspa | Vst | Vst3 | Sfz | Jsfx | Clap => return haveCarla;
      case Dssi | Au | Sf2 =>
        if haveCarla {
          var i := 0;
          while i < |features|
            invariant 0 <= i <= |features|
            invariant forall k :: 0 <= k < i ==> !Enables(features[k], p)
          {
            var feature := features[i];
            assert feature in features;
            if feature == "sf2" && p == Sf2 { return true; }
            if feature == "osc" && p == Dssi { return true; }
            if feature == "vst3" && p == Vst3 { return true; }
            if feature == "au" && p == Au { return true; }
            i := i + 1;
          }
        }
        return false;
    }
  }

  /** DUMMY and LV2 are always supported; without Carla nothing else is. */
  lemma SupportedWithoutCarla(p: Protocol, features: seq<string>)
    ensures Supported(p, false, features) <==> p == Dummy || p == Lv2
    ensures Supported(Dummy, true, features) && Supported(Lv2, true, features)
  {
  }

  /** With Carla, the formats it bridges by feature need that feature;
      the others need only Carla. */
  lemma SupportedWithCarla(p: Protocol, features: seq<string>)
    ensures p in {Ladspa, Vst, Vst3, Sfz, Jsfx, Clap} ==> Supported(p, true, features)
    ensures Supported(Sf2, true, features) <==> "sf2" in features
    ensures Supported(Dssi, true, features) <==> "osc" in features
    ensures Supported(Au, true, features) <==> "au" in features
  {
  }

  // ---------------------------------------------------------------------
  // The manager
  // ---------------------------------------------------------------------

  class PluginManager {
    var descriptors: seq<Descriptor>
    var categories: seq<string>
    var authors: seq<string>
    /** The LV2 URI node cache: `nodes[..numNodes]` are in use. */
    var nodes: array<string>
    var numNodes: nat

    ghost predicate Valid()
      reads this
    {
      NoDup(categories) && NoDup(authors) && 0 < nodes.Length && numNodes <= nodes.Length
    }

    function Catalogue(): Catalog
      reads this
    {
      Catalog(descriptors, categories, authors)
    }

    function Nodes(): seq<string>
      reads this, nodes
      requires numNodes <= nodes.Length
    {
      nodes[..numNodes]
    }

    /** `plugin_manager_new`: empty lists, a node cache of size 1. */
    constructor ()
      ensures Valid() && fresh(nodes)
      ensures descriptors == [] && categories == [] && authors == []
      ensures nodes.Length == 1 && numNodes == 0
    {
      descriptors, categories, authors := [], [], [];
      nodes := new string[1];
      numNodes := 0;
    }

    /** `add_category_and_author`.  A non-ASCII category is warned about
        (`warned`) and added all the same. */
    method AddCategoryAndAuthor(category: Option<string>, author: Option<string>) returns (warned: bool)
      requires Valid()
      modifies this
      ensures Valid()
      ensures warned <==> category.Some? && !IsAscii(category.value)
      ensures Catalogue() == Register(old(Catalogue()), category, author)
      ensures nodes == old(nodes) && numNodes == old(numNodes)
    {
      warned := false;
      if category.None? {
        return;
      }
      warned := !IsAscii(category.value);
      var ignoreCategory := Listed(categories, category.value);
      if !ignoreCategory {
        categories := categories + [category.value];
      }
      if author.Some? {
        var ignoreAuthor := Listed(authors, author.value);
        if !ignoreAuthor {
          authors := authors + [author.value];
        }
      }
      AddedNoDup(old(categories), category);
      AddedNoDup(old(authors), author);
    }

    /** `plugin_manager_get_node`: the cached node for `uri`, created and
        appended (doubling the buffer when full) when there is none. */
    method GetNode(uri: string) returns (k: nat)
      requires Valid()
      modifies this, nodes
      ensures Valid()
      ensures k < numNodes <= nodes.Length && nodes[k] == uri
      ensures uri in old(Nodes()) ==>
        nodes == old(nodes) && Nodes() == old(Nodes()) && uri !in old(Nodes())[..k]
      ensures uri !in old(Nodes()) ==>
        Nodes() == old(Nodes()) + [uri] &&
        nodes.Length == (if old(numNodes) == old(nodes.Length) then 2 * old(nodes.Length) else old(nodes.Length))
      ensures descriptors == old(descriptors) && categories == old(categories) && authors == old(authors)
    {
      var i := 0;
      while i < numNodes
        invariant 0 <= i <= numNodes
        invariant uri !in nodes[..i]
      {
        if nodes[i] == uri {
          assert nodes[..numNodes][..i] == nodes[..i];
          return i;
        }
        i := i + 1;
      }
      assert nodes[..i] == Nodes();
      if numNodes == nodes.Length {
        var bigger := new string[2 * nodes.Length];
        forall j | 0 <= j < nodes.Length {
          bigger[j] := nodes[j];
        }
        nodes := bigger;
      }
      nodes[numNodes] := uri;
      numNodes := numNodes + 1;
      k := numNodes - 1;
    }

    /** `plugin_manager_find_plugin_from_uri`: the index of the first
        descriptor with that URI. */
    method FindPluginFromUri(uri: string) returns (r: Option<nat>)
      ensures r.Some? ==> r.value < |descriptors| && descriptors[r.value].uri == uri
      ensures r.Some? ==> forall j :: 0 <= j < r.value ==> descriptors[j].uri != uri
      ensures r.None? <==> forall j :: 0 <= j < |descriptors| ==> descriptors[j].uri != uri
    {
      var i := 0;
      while i < |descriptors|
        invariant 0 <= i <= |descriptors|
        invariant forall j :: 0 <= j < i ==> descriptors[j].uri != uri
      {
        if descriptors[i].uri == uri {
          return Some(i);
        }
        i := i + 1;
      }
      return None;
    }

    /** `plugin_manager_pick_instrument`: the index of the first
        instrument. */
    method PickInstrument() returns (r: Option<nat>)
      ensures r.Some? ==> r.value < |descriptors| && descriptors[r.value].instrument
      ensures r.Some? ==> forall j :: 0 <= j < r.value ==> !descriptors[j].instrument
      ensures r.None? <==> forall j :: 0 <= j < |descriptors| ==> !descriptors[j].instrument
    {
      var i := 0;
      while i < |descriptors|
        invariant 0 <= i <= |descriptors|
        invariant forall j :: 0 <= j < i ==> !descriptors[j].instrument
      {
        if descriptors[i].instrument {
          return Some(i);
        }
        i := i + 1;
      }
      return None;
    }

    /** `plugin_manager_clear_plugins`: descriptors and categories go,
        the authors stay. */
    method ClearPlugins()
      requires Valid()
      modifies this
      ensures Valid()
      ensures descriptors == [] && categories == [] && authors == old(authors)
      ensures nodes == old(nodes) && numNodes == old(numNodes)
    {
      descriptors := [];
      categories := [];
    }

    /** The cached-descriptor loop of `scan_carla_descriptors_from_paths`. */
    method AddCachedDescriptors(cached: seq<Descriptor>, same: (Descriptor, Descriptor) -> bool)
      requires Valid()
      modifies this
      ensures Valid()
      ensures Catalogue() == MergeCached(old(Catalogue()), cached, same)
      ensures nodes == old(nodes) && numNodes == old(numNodes)
    {
      var i := 0;
      while i < |cached|
        invariant 0 <= i <= |cached|
        invariant Valid() && nodes == old(nodes) && numNodes == old(numNodes)
        invariant Catalogue() == MergeCached(old(Catalogue()), cached[..i], same)
      {
        var d := cached[i];
        assert cached[..i + 1][..i] == cached[..i];
        var present := FindSame(descriptors, d, same);
        if !present {
          descriptors := descriptors + [d];
          var _ := AddCategoryAndAuthor(d.categoryStr, d.author);
        }
        i := i + 1;
      }
      assert cached[..i] == cached;
    }
  }
}
