/**
 * The gallery's assets (gallery/gallery-discovery.js): whatever order the files are enumerated in,
 * the same assets come out in the same order, or the same kind of clash is reported.
 */
module Gallery {
  import opened Basics
  import opened Strings
  import opened Words

  datatype Presentation = Presentation(alt: string, order: Option<real>)

  // `order` is `Some` when it is a finite number.
  datatype Asset = Asset(path: string, src: string, filename: string, normalizedFilename: string,
                         hasMetadata: bool, alt: string, order: Option<real>)

  // What the page is built from: metadata by file name, and the text derived from a file name.
  datatype Source = Source(metadata: map<string, Presentation>, derivedAlt: string -> string)

  datatype Found = Found(path: string, src: string)

  datatype Discovery = Assets(assets: seq<Asset>) | Duplicate(first: string, second: string)

  function AfterLast(s: string, separator: Class): string {
    if s == "" then ""
    else if exists i | 0 <= i < |s| :: separator(s[i]) then AfterLast(s[1..], separator)
    else s
  }

  function FilenameFromPath(path: string): string { AfterLast(path, c => c == '/' || c == '\\') }

  predicate IsSupported(path: string) {
    Lower(AfterLast(FilenameFromPath(path), c => c == '.')) in ["webp", "jpg", "jpeg", "png", "avif"]
  }

  function AssetOf(source: Source, found: Found): Asset {
    var filename := FilenameFromPath(found.path);
    var derived := source.derivedAlt(filename);
    if filename in source.metadata then
      var presentation := source.metadata[filename];
      Asset(found.path, found.src, filename, Lower(filename), true, if presentation.alt == "" then derived else presentation.alt, presentation.order)
    else Asset(found.path, found.src, filename, Lower(filename), false, derived, None)
  }

  // ----- the order -----

  function CompareStrings(left: string, right: string): real {
    if Less(left, right) then -1.0 else if Less(right, left) then 1.0 else 0.0
  }

  function CompareNames(left: Asset, right: Asset): real {
    var normalized := CompareStrings(left.normalizedFilename, right.normalizedFilename);
    if normalized != 0.0 then normalized else CompareStrings(left.filename, right.filename)
  }

  function CompareAssets(left: Asset, right: Asset): real {
    if left.hasMetadata != right.hasMetadata then (if left.hasMetadata then -1.0 else 1.0)
    else if left.hasMetadata && left.order.Some? != right.order.Some? then (if left.order.Some? then -1.0 else 1.0)
    else if left.hasMetadata && left.order.Some? && left.order != right.order then left.order.value - right.order.value
    else CompareNames(left, right)
  }

  predicate Precedes(left: Asset, right: Asset) { CompareAssets(left, right) < 0.0 }

  lemma CompareStringsIsTotal(s: string, t: string)
    ensures CompareStrings(s, t) == -CompareStrings(t, s)
    ensures CompareStrings(s, t) == 0.0 <==> s == t
  {
    LessTotal(s, t);
  }

  lemma CompareNamesIsTotal(a: Asset, b: Asset)
    ensures CompareNames(a, b) == -CompareNames(b, a)
    ensures a.normalizedFilename != b.normalizedFilename ==> CompareNames(a, b) != 0.0
  {
    CompareStringsIsTotal(a.normalizedFilename, b.normalizedFilename);
    CompareStringsIsTotal(a.filename, b.filename);
  }

  // Assets with different normalised names: one of them precedes, and only one.
  lemma OrderIsTotal(a: Asset, b: Asset)
    ensures !(Precedes(a, b) && Precedes(b, a))
    ensures a.normalizedFilename != b.normalizedFilename ==> Precedes(a, b) || Precedes(b, a)
  {
    CompareNamesIsTotal(a, b);
  }

  lemma StringsTransitive(s: string, t: string, u: string)
    requires CompareStrings(s, t) <= 0.0 && CompareStrings(t, u) <= 0.0
    ensures CompareStrings(s, u) <= 0.0
    ensures CompareStrings(s, t) < 0.0 || CompareStrings(t, u) < 0.0 ==> CompareStrings(s, u) < 0.0
  {
    CompareStringsIsTotal(s, t);
    CompareStringsIsTotal(t, u);
    LessTotal(s, u);
    if Less(s, t) && Less(t, u) { LessTransitive(s, t, u); }
  }

  lemma NamesTransitive(a: Asset, b: Asset, c: Asset)
    requires CompareNames(a, b) < 0.0 && CompareNames(b, c) < 0.0
    ensures CompareNames(a, c) < 0.0
  {
    StringsTransitive(a.normalizedFilename, b.normalizedFilename, c.normalizedFilename);
    if CompareStrings(a.normalizedFilename, b.normalizedFilename) == 0.0 && CompareStrings(b.normalizedFilename, c.normalizedFilename) == 0.0 {
      CompareStringsIsTotal(a.normalizedFilename, b.normalizedFilename);
      CompareStringsIsTotal(b.normalizedFilename, c.normalizedFilename);
      CompareStringsIsTotal(a.normalizedFilename, c.normalizedFilename);
      StringsTransitive(a.filename, b.filename, c.filename);
    }
  }

  lemma OrderIsTransitive(a: Asset, b: Asset, c: Asset)
    requires Precedes(a, b) && Precedes(b, c)
    ensures Precedes(a, c)
  {
    if CompareNames(a, b) < 0.0 && CompareNames(b, c) < 0.0 {
      NamesTransitive(a, b, c);
    }
  }

  // ----- sorting -----

  ghost predicate Sorted(assets: seq<Asset>) {
    forall i, j | 0 <= i < j < |assets| :: Precedes(assets[i], assets[j])
  }

  ghost predicate DistinctNames(assets: seq<Asset>) {
    forall i, j | 0 <= i < j < |assets| :: assets[i].normalizedFilename != assets[j].normalizedFilename
  }

  function Insert(a: Asset, sorted: seq<Asset>): seq<Asset> {
    if sorted == [] || Precedes(a, sorted[0]) then [a] + sorted else [sorted[0]] + Insert(a, sorted[1..])
  }

  function Sort(assets: seq<Asset>): seq<Asset> {
    if assets == [] then [] else Insert(assets[0], Sort(assets[1..]))
  }

  lemma {:induction false} InsertKeeps(a: Asset, sorted: seq<Asset>)
    requires Sorted(sorted) && forall b | b in sorted :: b.normalizedFilename != a.normalizedFilename
    ensures Sorted(Insert(a, sorted)) && multiset(Insert(a, sorted)) == multiset(sorted) + multiset{a}
    ensures forall b :: b in Insert(a, sorted) <==> b == a || b in sorted
  {
    if sorted == [] || Precedes(a, sorted[0]) {
      forall b | b in sorted ensures Precedes(a, b) {
        var j :| 0 <= j < |sorted| && sorted[j] == b;
        if j > 0 { OrderIsTransitive(a, sorted[0], b); }
      }
      PutFirst(a, sorted);
    } else {
      var first, rest := sorted[0], sorted[1..];
      assert sorted == [first] + rest;
      assert first in sorted;
      OrderIsTotal(a, first);
      InsertKeeps(a, rest);
      forall b | b in rest ensures Precedes(first, b) {
        var j :| 0 <= j < |rest| && rest[j] == b;
        assert sorted[j + 1] == b;
      }
      PutFirst(first, Insert(a, rest));
      assert multiset(sorted) == multiset(rest) + multiset{first};
    }
  }

  lemma PutFirst(first: Asset, sorted: seq<Asset>)
    requires Sorted(sorted) && forall b | b in sorted :: Precedes(first, b)
    ensures Sorted([first] + sorted) && multiset([first] + sorted) == multiset(sorted) + multiset{first}
    ensures forall b :: b in [first] + sorted <==> b == first || b in sorted
  {
  }

  lemma {:induction false} SortKeeps(assets: seq<Asset>)
    requires DistinctNames(assets)
    ensures Sorted(Sort(assets)) && multiset(Sort(assets)) == multiset(assets)
    ensures forall b :: b in Sort(assets) <==> b in assets
  {
    if assets != [] {
      SortKeeps(assets[1..]);
      assert assets == [assets[0]] + assets[1..];
      InsertKeeps(assets[0], Sort(assets[1..]));
    }
  }

  lemma FirstIsLeast(s: seq<Asset>, b: Asset)
    requires s != [] && Sorted(s) && b in multiset(s)
    ensures b == s[0] || Precedes(s[0], b)
  {
    var j :| 0 <= j < |s| && s[j] == b;
  }

  lemma SameTails(s: seq<Asset>, t: seq<Asset>)
    requires s != [] && t != [] && s[0] == t[0] && multiset(s) == multiset(t)
    ensures multiset(s[1..]) == multiset(t[1..])
  {
    assert s == [s[0]] + s[1..] && t == [t[0]] + t[1..];
    assert multiset(s[1..]) == multiset(s) - multiset{s[0]};
  }

  // There is only one sorted arrangement of given assets.
  lemma {:induction false} OneArrangement(s: seq<Asset>, t: seq<Asset>)
    requires Sorted(s) && Sorted(t) && multiset(s) == multiset(t)
    ensures s == t
  {
    assert |s| == |multiset(s)| == |t|;
    if s != [] {
      assert s[0] in multiset(s) && t[0] in multiset(t);
      FirstIsLeast(s, t[0]);
      FirstIsLeast(t, s[0]);
      OrderIsTotal(s[0], t[0]);
      SameTails(s, t);
      OneArrangement(s[1..], t[1..]);
      assert s == [s[0]] + s[1..] && t == [t[0]] + t[1..];
    }
  }

  // ----- discovery -----

  // The entry for a found file: none when its kind is not supported.
  function EntryOf(source: Source, found: Found): seq<Asset> {
    if IsSupported(found.path) then [AssetOf(source, found)] else []
  }

  function Collect(entry: Found -> seq<Asset>, found: seq<Found>): seq<Asset> {
    if found == [] then [] else entry(found[0]) + Collect(entry, found[1..])
  }

  function Entries(source: Source, found: seq<Found>): seq<Asset> {
    Collect(x => EntryOf(source, x), found)
  }

  ghost predicate Clashes(assets: seq<Asset>, first: string, second: string) {
    exists i, j | 0 <= i < j < |assets| ::
      && assets[i].normalizedFilename == assets[j].normalizedFilename
      && ((first, second) == (assets[i].filename, assets[j].filename) || (first, second) == (assets[j].filename, assets[i].filename))
  }

  ghost predicate Holds(seen: seq<Asset>, name: string, asset: Asset) { asset in seen && asset.normalizedFilename == name }

  lemma ClashFound(entries: seq<Asset>, i: nat, existing: Asset)
    requires i < |entries| && existing in entries[..i] && existing.normalizedFilename == entries[i].normalizedFilename
    ensures Clashes(entries, existing.filename, entries[i].filename) && Clashes(entries, entries[i].filename, existing.filename)
    ensures !DistinctNames(entries)
  {
    var j :| 0 <= j < i && entries[..i][j] == existing;
    assert entries[j].normalizedFilename == entries[i].normalizedFilename;
  }

  // The loop over the entries: the first entry whose normalised name was seen before, and the one it
  // was seen at.
  method FindDuplicate(entries: seq<Asset>) returns (clash: Option<(Asset, Asset)>)
    ensures clash.None? <==> DistinctNames(entries)
    ensures clash.Some? ==>
      Clashes(entries, clash.value.0.filename, clash.value.1.filename) && Clashes(entries, clash.value.1.filename, clash.value.0.filename)
  {
    var byNormalizedFilename: map<string, Asset> := map[];
    for i := 0 to |entries|
      invariant DistinctNames(entries[..i])
      invariant forall j | 0 <= j < i :: entries[j].normalizedFilename in byNormalizedFilename
      invariant forall name | name in byNormalizedFilename :: Holds(entries[..i], name, byNormalizedFilename[name])
    {
      var asset := entries[i];
      if asset.normalizedFilename in byNormalizedFilename {
        var existing := byNormalizedFilename[asset.normalizedFilename];
        ClashFound(entries, i, existing);
        return Some((existing, asset));
      }
      ghost var before := byNormalizedFilename;
      byNormalizedFilename := byNormalizedFilename[asset.normalizedFilename := asset];
      assert entries[..i + 1] == entries[..i] + [asset];
      forall name | name in byNormalizedFilename ensures Holds(entries[..i + 1], name, byNormalizedFilename[name]) {
        assert name == asset.normalizedFilename || Holds(entries[..i], name, before[name]);
      }
    }
    assert entries[..|entries|] == entries;
    return None;
  }

  // Throws exactly when two supported files share a normalised name, naming two such files in order;
  // otherwise the supported files come out sorted, each exactly once.
  method CreateGalleryAssets(source: Source, found: seq<Found>) returns (r: Discovery)
    ensures r.Assets? <==> DistinctNames(Entries(source, found))
    ensures r.Assets? ==> Sorted(r.assets) && multiset(r.assets) == multiset(Entries(source, found))
    ensures r.Duplicate? ==> Clashes(Entries(source, found), r.first, r.second) && !Less(r.second, r.first)
  {
    var entries := Entries(source, found);
    var clash := FindDuplicate(entries);
    if clash.Some? {
      var first, second := clash.value.0.filename, clash.value.1.filename;
      LessTotal(first, second);
      return if Less(second, first) then Duplicate(second, first) else Duplicate(first, second);
    }
    SortKeeps(entries);
    return Assets(Sort(entries));
  }

  lemma {:induction false} CollectSplit(entry: Found -> seq<Asset>, a: seq<Found>, b: seq<Found>)
    ensures Collect(entry, a + b) == Collect(entry, a) + Collect(entry, b)
  {
    if a != [] {
      CollectSplit(entry, a[1..], b);
      assert (a + b)[1..] == a[1..] + b;
    } else {
      assert a + b == b;
    }
  }

  lemma CollectMove(entry: Found -> seq<Asset>, before: seq<Found>, x: Found, after: seq<Found>)
    ensures multiset(Collect(entry, before + [x] + after)) == multiset(Collect(entry, [x] + (before + after)))
  {
    CollectSplit(entry, before + [x], after);
    CollectSplit(entry, before, [x]);
    CollectSplit(entry, [x], before + after);
    CollectSplit(entry, before, after);
  }

  lemma WithoutOne(b: seq<Found>, i: nat)
    requires i < |b|
    ensures b == b[..i] + [b[i]] + b[i + 1..] && multiset(b[..i] + b[i + 1..]) == multiset(b) - multiset{b[i]}
  {
    var before, after := b[..i], b[i + 1..];
    assert b == before + [b[i]] + after;
    assert multiset(b) == multiset(before) + multiset{b[i]} + multiset(after);
  }

  lemma Located(a: seq<Found>, b: seq<Found>) returns (i: nat)
    requires a != [] && multiset(a) == multiset(b)
    ensures i < |b| && b == b[..i] + [a[0]] + b[i + 1..] && multiset(a[1..]) == multiset(b[..i] + b[i + 1..])
  {
    assert a[0] in multiset(b);
    i :| 0 <= i < |b| && b[i] == a[0];
    WithoutOne(b, i);
    WithoutOne(a, 0);
    assert a[..0] + a[1..] == a[1..];
  }

  // Files enumerated in another order give the same entries in another order.
  lemma {:induction false} CollectPermute(entry: Found -> seq<Asset>, a: seq<Found>, b: seq<Found>)
    requires multiset(a) == multiset(b)
    ensures multiset(Collect(entry, a)) == multiset(Collect(entry, b))
  {
    if a == [] {
      assert |multiset(b)| == 0;
    } else {
      var i := Located(a, b);
      CollectPermute(entry, a[1..], b[..i] + b[i + 1..]);
      CollectMove(entry, b[..i], a[0], b[i + 1..]);
      CollectSplit(entry, [a[0]], a[1..]);
      CollectSplit(entry, [a[0]], b[..i] + b[i + 1..]);
      assert a == [a[0]] + a[1..];
    }
  }

  ghost predicate Answers(source: Source, found: seq<Found>, r: Discovery) {
    && (r.Assets? <==> DistinctNames(Entries(source, found)))
    && (r.Assets? ==> Sorted(r.assets) && multiset(r.assets) == multiset(Entries(source, found)))
    && (r.Duplicate? ==> Clashes(Entries(source, found), r.first, r.second))
  }

  // The gallery does not depend on the order in which the files are found.
  lemma EnumerationDoesNotMatter(source: Source, a: seq<Found>, b: seq<Found>, r: Discovery, r': Discovery)
    requires multiset(a) == multiset(b) && Answers(source, a, r) && Answers(source, b, r')
    ensures r.Assets? <==> r'.Assets?
    ensures r.Assets? ==> r == r'
  {
    CollectPermute(x => EntryOf(source, x), a, b);
    DistinctIsOfTheMultiset(Entries(source, a));
    DistinctIsOfTheMultiset(Entries(source, b));
    if r.Assets? {
      OneArrangement(r.assets, r'.assets);
    }
  }

  ghost predicate DistinctIn(assets: multiset<Asset>) {
    && (forall a, b | a in assets && b in assets && a.normalizedFilename == b.normalizedFilename :: a == b)
    && (forall a | a in assets :: assets[a] == 1)
  }

  lemma {:induction false} DistinctIsOfTheMultiset(s: seq<Asset>)
    ensures DistinctNames(s) <==> DistinctIn(multiset(s))
  {
    if s != [] {
      var x, rest := s[0], s[1..];
      assert s == [x] + rest;
      DistinctIsOfTheMultiset(rest);
      DistinctFirst(x, rest);
      DistinctInFirst(x, multiset(rest));
      assert multiset(s) == multiset(rest) + multiset{x};
    }
  }

  lemma DistinctFirst(x: Asset, rest: seq<Asset>)
    ensures DistinctNames([x] + rest) <==>
            DistinctNames(rest) && forall b | b in multiset(rest) :: b.normalizedFilename != x.normalizedFilename
  {
    if DistinctNames([x] + rest) {
      FirstDiffers(x, rest);
    }
  }

  lemma FirstDiffers(x: Asset, rest: seq<Asset>)
    requires DistinctNames([x] + rest)
    ensures DistinctNames(rest) && forall b | b in multiset(rest) :: b.normalizedFilename != x.normalizedFilename
  {
    var s := [x] + rest;
    forall b | b in multiset(rest) ensures b.normalizedFilename != x.normalizedFilename {
      var j :| 0 <= j < |rest| && rest[j] == b;
      assert s[0] == x && s[j + 1] == b;
    }
    forall i, j | 0 <= i < j < |rest| ensures rest[i].normalizedFilename != rest[j].normalizedFilename {
      assert s[i + 1] == rest[i] && s[j + 1] == rest[j];
    }
  }

  lemma DistinctInFirst(x: Asset, rest: multiset<Asset>)
    ensures DistinctIn(rest + multiset{x}) <==>
            DistinctIn(rest) && forall b | b in rest :: b.normalizedFilename != x.normalizedFilename
  {
    var all := rest + multiset{x};
    assert all[x] == rest[x] + 1;
    assert forall a :: a in all <==> a == x || a in rest;
    assert forall a | a != x :: all[a] == rest[a];
  }
}
