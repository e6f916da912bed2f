/**
 * The key-listing engine of `FileStoreController`: `collapseCommonPrefixes` groups the keys of a
 * listing into "common prefixes" (directory-like entries ending in the delimiter), and
 * `filterBucketContentsBy` drops every content that falls under one of them.
 */
module KeyListing {
  import opened Outcomes
  import opened Strings

  /** The owner attached to a listed content. */
  datatype Owner = Owner(id: int, displayName: string)

  /** One entry of a bucket listing (`dto.BucketContents`). */
  datatype BucketContents = BucketContents(
    key: string,
    lastModified: string,
    etag: string,
    size: string,
    storageClass: string,
    owner: Owner)

  /**
   * `p` has the shape of a common prefix: the query prefix, then a segment in which no delimiter
   * begins, then the delimiter itself.
   */
  predicate IsCommonPrefixFor(prefix: string, delimiter: string, p: string) {
    && delimiter != []
    && StartsWith(p, prefix)
    && |prefix| + |delimiter| <= |p|
    && OccursAt(p, delimiter, |p| - |delimiter|)
    && forall j :: |prefix| <= j < |p| - |delimiter| ==> !OccursAt(p, delimiter, j)
  }

  /**
   * The common prefix a single key contributes: the key up to and including the first delimiter
   * found after the query prefix. Keys outside the prefix, keys with no such delimiter, and every
   * key under an empty delimiter contribute nothing.
   */
  function GroupOf(prefix: string, delimiter: string, key: string): Option<string> {
    if delimiter == [] || !StartsWith(key, prefix) then None
    else match IndexOf(key, delimiter, |prefix|)
      case None => None
      case Some(i) => Some(key[..i + |delimiter|])
  }

  /**
   * A key has a group exactly when the delimiter is non-empty, the key starts with the prefix and
   * the delimiter occurs in it at or after the end of the prefix; the group is then a prefix of the
   * key with the shape of a common prefix.
   */
  lemma GroupOfMeaning(prefix: string, delimiter: string, key: string)
    ensures GroupOf(prefix, delimiter, key).Some? <==>
      delimiter != [] && StartsWith(key, prefix) && exists i :: |prefix| <= i && OccursAt(key, delimiter, i)
    ensures GroupOf(prefix, delimiter, key).Some? ==>
      StartsWith(key, GroupOf(prefix, delimiter, key).value) &&
      IsCommonPrefixFor(prefix, delimiter, GroupOf(prefix, delimiter, key).value)
  {
    if delimiter != [] && StartsWith(key, prefix) {
      IndexOfMeaning(key, delimiter, |prefix|);
      match IndexOf(key, delimiter, |prefix|)
      case None =>
      case Some(i) =>
        var g := key[..i + |delimiter|];
        StartsWithMeaning(key, g);
        StartsWithMeaning(key, prefix);
        StartsWithMeaning(g, prefix);
        OccursInsidePrefix(key, g, delimiter, i);
        forall j | |prefix| <= j < i ensures !OccursAt(g, delimiter, j) {
          OccursInsidePrefix(key, g, delimiter, j);
        }
    }
  }

  /** A key's group is exactly the unique prefix of the key that has the shape of a common prefix. */
  lemma GroupOfCharacterized(prefix: string, delimiter: string, key: string, p: string)
    ensures GroupOf(prefix, delimiter, key) == Some(p) <==>
      StartsWith(key, p) && IsCommonPrefixFor(prefix, delimiter, p)
  {
    GroupOfMeaning(prefix, delimiter, key);
    if StartsWith(key, p) && IsCommonPrefixFor(prefix, delimiter, p) {
      var at := |p| - |delimiter|;
      StartsWithTransitive(key, p, prefix);
      OccursInsidePrefix(key, p, delimiter, at);
      IndexOfMeaning(key, delimiter, |prefix|);
      var i := IndexOf(key, delimiter, |prefix|).value;
      if i < at {
        OccursInsidePrefix(key, p, delimiter, i);
        assert false;
      }
      StartsWithMeaning(key, p);
      assert key[..i + |delimiter|] == p;
    }
  }

  /**
   * A key that begins with the delimiter groups under the delimiter alone: with no prefix and `/`,
   * `/x` contributes the common prefix `/`.
   */
  lemma LeadingDelimiterGroups()
    ensures GroupOf("", "/", "/x") == Some("/")
  {
    assert "/x"[..1] == "/";
  }

  /**
   * The common prefixes of a listing, as the set `collapseCommonPrefixes` accumulates: one entry
   * per distinct group, so keys sharing a group collapse to one element.
   */
  function CommonPrefixes(prefix: string, delimiter: string, contents: seq<BucketContents>): set<string> {
    if contents == [] then {}
    else GroupSet(prefix, delimiter, contents[0].key) + CommonPrefixes(prefix, delimiter, contents[1..])
  }

  /** The group of one key as a set with at most one element. */
  function GroupSet(prefix: string, delimiter: string, key: string): set<string> {
    match GroupOf(prefix, delimiter, key)
    case None => {}
    case Some(g) => {g}
  }

  /** The common prefixes are exactly the groups of the listed keys. */
  lemma {:induction false} CommonPrefixesMembers(prefix: string, delimiter: string, contents: seq<BucketContents>, p: string)
    ensures p in CommonPrefixes(prefix, delimiter, contents) <==>
      exists i :: 0 <= i < |contents| && GroupOf(prefix, delimiter, contents[i].key) == Some(p)
  {
    if contents != [] {
      CommonPrefixesMembers(prefix, delimiter, contents[1..], p);
      if p in CommonPrefixes(prefix, delimiter, contents[1..]) {
        var i :| 0 <= i < |contents[1..]| && GroupOf(prefix, delimiter, contents[1..][i].key) == Some(p);
        assert contents[i + 1] == contents[1..][i];
      }
      if exists i :: 0 <= i < |contents| && GroupOf(prefix, delimiter, contents[i].key) == Some(p) {
        var i :| 0 <= i < |contents| && GroupOf(prefix, delimiter, contents[i].key) == Some(p);
        if i > 0 {
          assert contents[1..][i - 1] == contents[i];
        }
      }
    }
  }

  /**
   * Independent description of the common prefixes: exactly the strings of the form
   * prefix + segment + delimiter (no delimiter inside the segment) that some listed key starts with.
   */
  lemma CommonPrefixesCharacterized(prefix: string, delimiter: string, contents: seq<BucketContents>, p: string)
    ensures p in CommonPrefixes(prefix, delimiter, contents) <==>
      IsCommonPrefixFor(prefix, delimiter, p) && exists c :: c in contents && StartsWith(c.key, p)
  {
    CommonPrefixesMembers(prefix, delimiter, contents, p);
    if p in CommonPrefixes(prefix, delimiter, contents) {
      var i :| 0 <= i < |contents| && GroupOf(prefix, delimiter, contents[i].key) == Some(p);
      GroupOfMeaning(prefix, delimiter, contents[i].key);
      assert contents[i] in contents;
    }
    if IsCommonPrefixFor(prefix, delimiter, p) && exists c :: c in contents && StartsWith(c.key, p) {
      var c :| c in contents && StartsWith(c.key, p);
      var i :| 0 <= i < |contents| && contents[i] == c;
      GroupOfCharacterized(prefix, delimiter, c.key, p);
    }
  }

  /** An empty delimiter never groups, whatever the prefix. */
  lemma {:induction false} EmptyDelimiterNeverGroups(prefix: string, contents: seq<BucketContents>)
    ensures CommonPrefixes(prefix, [], contents) == {}
  {
    if contents != [] {
      EmptyDelimiterNeverGroups(prefix, contents[1..]);
    }
  }

  /**
   * Only the keys that start with the prefix matter: dropping or adding keys outside the prefix,
   * as the store's prefix query does, leaves the common prefixes unchanged.
   */
  lemma CommonPrefixesDependOnlyOnMatchingKeys(
    prefix: string, delimiter: string, all: seq<BucketContents>, matching: seq<BucketContents>)
    requires forall c :: c in matching ==> c in all
    requires forall c :: c in all && StartsWith(c.key, prefix) ==> c in matching
    ensures CommonPrefixes(prefix, delimiter, all) == CommonPrefixes(prefix, delimiter, matching)
  {
    forall p ensures p in CommonPrefixes(prefix, delimiter, all) <==> p in CommonPrefixes(prefix, delimiter, matching) {
      CommonPrefixesCharacterized(prefix, delimiter, all, p);
      CommonPrefixesCharacterized(prefix, delimiter, matching, p);
      if IsCommonPrefixFor(prefix, delimiter, p) && exists c :: c in all && StartsWith(c.key, p) {
        var c :| c in all && StartsWith(c.key, p);
        StartsWithTransitive(c.key, p, prefix);
        assert c in matching;
      }
    }
  }

  /**
   * `collapseCommonPrefixes(queryPrefix, delimiter, contents)`: a null prefix or delimiter is read
   * as the empty string; an empty delimiter returns the empty set at once; otherwise every key that
   * starts with the prefix adds its text up to and including the first delimiter after the prefix.
   */
  method CollapseCommonPrefixes(queryPrefix: Option<string>, delimiter: Option<string>, contents: seq<BucketContents>)
    returns (commonPrefixes: set<string>)
    ensures commonPrefixes == CommonPrefixes(OrEmpty(queryPrefix), OrEmpty(delimiter), contents)
  {
    commonPrefixes := {};
    var d := OrEmpty(delimiter);
    var prefix := OrEmpty(queryPrefix);
    if d == [] {
      EmptyDelimiterNeverGroups(prefix, contents);
      return;
    }
    for n := 0 to |contents|
      invariant commonPrefixes + CommonPrefixes(prefix, d, contents[n..]) == CommonPrefixes(prefix, d, contents)
    {
      var key := contents[n].key;
      assert contents[n..][1..] == contents[n + 1..];
      if StartsWith(key, prefix) {
        var delimiterIndex := IndexOf(key, d, |prefix|);
        if delimiterIndex.Some? {
          commonPrefixes := commonPrefixes + {key[..delimiterIndex.value + |d|]};
        }
      }
    }
  }

  /** The content's key falls under none of the given common prefixes. */
  predicate UnderNone(key: string, commonPrefixes: set<string>) {
    forall p :: p in commonPrefixes ==> !StartsWith(key, p)
  }

  /**
   * `filterBucketContentsBy(contents, commonPrefixes)`: the contents, in their order, whose key
   * does not start with any of the common prefixes.
   */
  function FilterBucketContentsBy(contents: seq<BucketContents>, commonPrefixes: set<string>): (r: seq<BucketContents>)
    ensures forall c :: c in r <==> c in contents && UnderNone(c.key, commonPrefixes)
    ensures multiset(r) <= multiset(contents)
    ensures forall c :: multiset(r)[c] == if UnderNone(c.key, commonPrefixes) then multiset(contents)[c] else 0
    ensures commonPrefixes == {} ==> r == contents
  {
    if contents == [] then []
    else
      var rest := FilterBucketContentsBy(contents[1..], commonPrefixes);
      assert contents == [contents[0]] + contents[1..];
      if UnderNone(contents[0].key, commonPrefixes) then [contents[0]] + rest else rest
  }

  /**
   * A key that is itself one of the common prefixes starts with it, so it is dropped as well: the
   * filter tests `startsWith`, not a strictly longer match.
   */
  lemma KeyEqualToCommonPrefixIsDropped(contents: seq<BucketContents>, commonPrefixes: set<string>, c: BucketContents)
    requires c.key in commonPrefixes
    ensures c !in FilterBucketContentsBy(contents, commonPrefixes)
  {
    StartsWithMeaning(c.key, c.key);
  }

  /** The contents, in their order, that contribute no common prefix. */
  function Ungrouped(prefix: string, delimiter: string, contents: seq<BucketContents>): seq<BucketContents> {
    if contents == [] then []
    else
      (if GroupOf(prefix, delimiter, contents[0].key).None? then [contents[0]] else [])
      + Ungrouped(prefix, delimiter, contents[1..])
  }

  /**
   * A listed content falls under none of the listing's common prefixes exactly when it contributes
   * none itself: another key's group never hides it. In particular `3330/` does not swallow `33309/0`.
   */
  lemma UnderNoneIffUngrouped(prefix: string, delimiter: string, contents: seq<BucketContents>, c: BucketContents)
    requires c in contents
    ensures UnderNone(c.key, CommonPrefixes(prefix, delimiter, contents)) <==>
      GroupOf(prefix, delimiter, c.key).None?
  {
    var cps := CommonPrefixes(prefix, delimiter, contents);
    var i :| 0 <= i < |contents| && contents[i] == c;
    GroupOfMeaning(prefix, delimiter, c.key);
    match GroupOf(prefix, delimiter, c.key)
    case Some(g) =>
      CommonPrefixesMembers(prefix, delimiter, contents, g);
      assert g in cps;
    case None =>
      forall p | p in cps ensures !StartsWith(c.key, p) {
        if StartsWith(c.key, p) {
          CommonPrefixesMembers(prefix, delimiter, contents, p);
          var j :| 0 <= j < |contents| && GroupOf(prefix, delimiter, contents[j].key) == Some(p);
          GroupOfMeaning(prefix, delimiter, contents[j].key);
          OccursInsidePrefix(c.key, p, delimiter, |p| - |delimiter|);
          StartsWithTransitive(c.key, p, prefix);
          assert false;
        }
      }
  }

  /**
   * Filtering (any part of) a listing by the listing's own common prefixes keeps, in order and with
   * repetitions, exactly the contents that contribute no common prefix.
   */
  lemma {:induction false} FilterByOwnPrefixes(
    prefix: string, delimiter: string, all: seq<BucketContents>, part: seq<BucketContents>)
    requires forall c :: c in part ==> c in all
    ensures FilterBucketContentsBy(part, CommonPrefixes(prefix, delimiter, all)) == Ungrouped(prefix, delimiter, part)
  {
    if part != [] {
      assert part[0] in part;
      UnderNoneIffUngrouped(prefix, delimiter, all, part[0]);
      assert forall c :: c in part[1..] ==> c in part;
      FilterByOwnPrefixes(prefix, delimiter, all, part[1..]);
    }
  }

  /**
   * A listing splits the contents in two: a content stays among the listed keys exactly when no
   * delimiter occurs in its key after the query prefix (or the key is outside the prefix, or the
   * delimiter is empty).
   */
  lemma ListingPartition(prefix: string, delimiter: string, contents: seq<BucketContents>, c: BucketContents)
    requires c in contents
    ensures c in FilterBucketContentsBy(contents, CommonPrefixes(prefix, delimiter, contents)) <==>
      !(delimiter != [] && StartsWith(c.key, prefix) && exists i :: |prefix| <= i && OccursAt(c.key, delimiter, i))
  {
    UnderNoneIffUngrouped(prefix, delimiter, contents, c);
    GroupOfMeaning(prefix, delimiter, c.key);
  }

  /** With no delimiter (null or empty) a listing reports no common prefixes and keeps every content. */
  lemma NoDelimiterKeepsEverything(queryPrefix: Option<string>, delimiter: Option<string>, contents: seq<BucketContents>)
    requires OrEmpty(delimiter) == []
    ensures CommonPrefixes(OrEmpty(queryPrefix), OrEmpty(delimiter), contents) == {}
    ensures FilterBucketContentsBy(contents, CommonPrefixes(OrEmpty(queryPrefix), OrEmpty(delimiter), contents)) == contents
  {
    EmptyDelimiterNeverGroups(OrEmpty(queryPrefix), contents);
  }
}
