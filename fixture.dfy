/**
 * The listing fixture of `FileStoreControllerTest`: the fourteen keys of `ALL_OBJECTS`, the builder
 * that turns them into bucket contents under a prefix, and the expected results of the
 * parameterised listing table.
 */
module ListingFixture {
  import opened Outcomes
  import opened Strings
  import opened KeyListing

  /**
   * The keys every listing case starts from, in the fixture's order; written as five runs of
   * neighbouring keys so that each run can be worked out on its own.
   */
  const ALL_OBJECTS: seq<string> := RUN_3 + RUN_B + RUN_C + RUN_D + RUN_E

  const RUN_3: seq<string> := ["3330/0", "33309/0", "a"]
  const RUN_B: seq<string> := ["b", "b/1", "b/1/1", "b/1/2", "b/2"]
  const RUN_C: seq<string> := ["c/1", "c/1/1"]
  const RUN_D: seq<string> := ["d:1", "d:1:1"]
  const RUN_E: seq<string> := ["eor.txt", "foo/eor.txt"]

  /** `createBucketContents(key)`: a content with the given key and fixed placeholder fields. */
  function CreateBucketContents(key: string): BucketContents {
    BucketContents(key, "lastModified", "etag", "size", "storageClass", Owner(0, "name"))
  }

  /** The contents built from a sequence of keys, one per key, in order. */
  function ContentsOf(keys: seq<string>): (cs: seq<BucketContents>)
  {
    if keys == [] then [] else [CreateBucketContents(keys[0])] + ContentsOf(keys[1..])
  }

  /** The keys of a sequence of contents, in order. */
  function KeysOf(contents: seq<BucketContents>): (keys: seq<string>)
    ensures |keys| == |contents|
    ensures forall i :: 0 <= i < |contents| ==> keys[i] == contents[i].key
  {
    if contents == [] then [] else [contents[0].key] + KeysOf(contents[1..])
  }

  /** The keys, in their order, that start with the prefix (an empty prefix keeps every key). */
  function KeysUnder(objects: seq<string>, prefix: string): (r: seq<string>)
  {
    if objects == [] then []
    else
      (if StartsWith(objects[0], prefix) then [objects[0]] else []) + KeysUnder(objects[1..], prefix)
  }

  /**
   * `createBucketContentsList(prefix)`: walks the fixture keys (`ALL_OBJECTS`, passed in as
   * `objects`) and adds a content for every key, skipping the keys that do not start with the
   * prefix when the prefix is neither null nor empty.
   */
  method CreateBucketContentsList(objects: seq<string>, prefix: Option<string>) returns (list: seq<BucketContents>)
    ensures list == ContentsOf(KeysUnder(objects, OrEmpty(prefix)))
  {
    var p := OrEmpty(prefix);
    list := [];
    for n := 0 to |objects|
      invariant list == ContentsOf(KeysUnder(objects[..n], p))
    {
      var key := objects[n];
      assert objects[..n + 1] == objects[..n] + [key];
      KeysUnderSnoc(objects[..n], key, p);
      ContentsOfAppend(KeysUnder(objects[..n], p), if StartsWith(key, p) then [key] else []);
      if p != [] && !StartsWith(key, p) {
        continue;
      }
      list := list + [CreateBucketContents(key)];
    }
    assert objects[..|objects|] == objects;
  }

  /** Filtering one more key appends it when it starts with the prefix. */
  lemma {:induction false} KeysUnderSnoc(objects: seq<string>, key: string, prefix: string)
    ensures KeysUnder(objects + [key], prefix) ==
      KeysUnder(objects, prefix) + (if StartsWith(key, prefix) then [key] else [])
  {
    if objects != [] {
      assert (objects + [key])[1..] == objects[1..] + [key];
      KeysUnderSnoc(objects[1..], key, prefix);
    }
  }

  /** Building contents distributes over concatenation of key sequences. */
  lemma {:induction false} ContentsOfAppend(a: seq<string>, b: seq<string>)
    ensures ContentsOf(a + b) == ContentsOf(a) + ContentsOf(b)
  {
    if a == [] {
      assert a + b == b;
    } else {
      assert (a + b)[1..] == a[1..] + b;
      ContentsOfAppend(a[1..], b);
    }
  }

  /** Reading the keys back from built contents gives the keys they were built from. */
  lemma {:induction false} KeysOfContentsOf(keys: seq<string>)
    ensures KeysOf(ContentsOf(keys)) == keys
  {
    if keys != [] {
      KeysOfContentsOf(keys[1..]);
    }
  }

  /** The prefix filter keeps exactly the keys that start with the prefix. */
  lemma {:induction false} KeysUnderMembers(objects: seq<string>, prefix: string, key: string)
    ensures key in KeysUnder(objects, prefix) <==> key in objects && StartsWith(key, prefix)
  {
    if objects != [] {
      KeysUnderMembers(objects[1..], prefix, key);
      assert objects == [objects[0]] + objects[1..];
    }
  }

  /** The prefix filter never adds or repeats a key: its result is a sub-multiset of its input. */
  lemma {:induction false} KeysUnderShrinks(objects: seq<string>, prefix: string)
    ensures multiset(KeysUnder(objects, prefix)) <= multiset(objects)
  {
    if objects != [] {
      KeysUnderShrinks(objects[1..], prefix);
      assert objects == [objects[0]] + objects[1..];
    }
  }

  /** With an empty (or null) prefix the builder keeps every key, in order. */
  lemma {:induction false} KeysUnderEmptyPrefix(objects: seq<string>)
    ensures KeysUnder(objects, []) == objects
  {
    if objects != [] {
      StartsWithMeaning(objects[0], []);
      KeysUnderEmptyPrefix(objects[1..]);
    }
  }

  /** The prefix filter distributes over concatenation. */
  lemma {:induction false} KeysUnderAppend(a: seq<string>, b: seq<string>, prefix: string)
    ensures KeysUnder(a + b, prefix) == KeysUnder(a, prefix) + KeysUnder(b, prefix)
  {
    if a == [] {
      assert a + b == b;
    } else {
      assert (a + b)[1..] == a[1..] + b;
      KeysUnderAppend(a[1..], b, prefix);
    }
  }

  /** The common prefixes of a sequence of keys: one entry per distinct group. */
  function Groups(prefix: string, delimiter: string, keys: seq<string>): set<string> {
    if keys == [] then {} else GroupSet(prefix, delimiter, keys[0]) + Groups(prefix, delimiter, keys[1..])
  }

  /** The keys, in their order, that contribute no common prefix. */
  function KeptKeys(prefix: string, delimiter: string, keys: seq<string>): seq<string> {
    if keys == [] then []
    else (if GroupOf(prefix, delimiter, keys[0]).None? then [keys[0]] else []) + KeptKeys(prefix, delimiter, keys[1..])
  }

  /** The common prefixes of built contents are the groups of the keys they were built from. */
  lemma {:induction false} CommonPrefixesOfKeys(prefix: string, delimiter: string, keys: seq<string>)
    ensures CommonPrefixes(prefix, delimiter, ContentsOf(keys)) == Groups(prefix, delimiter, keys)
  {
    if keys != [] {
      CommonPrefixesOfKeys(prefix, delimiter, keys[1..]);
    }
  }

  /** The ungrouped contents among built contents carry exactly the ungrouped keys. */
  lemma {:induction false} UngroupedOfKeys(prefix: string, delimiter: string, keys: seq<string>)
    ensures KeysOf(Ungrouped(prefix, delimiter, ContentsOf(keys))) == KeptKeys(prefix, delimiter, keys)
  {
    if keys != [] {
      var head := if GroupOf(prefix, delimiter, keys[0]).None? then [CreateBucketContents(keys[0])] else [];
      var tail := Ungrouped(prefix, delimiter, ContentsOf(keys[1..]));
      UngroupedOfKeys(prefix, delimiter, keys[1..]);
      KeysOfAppend(head, tail);
    }
  }

  /** Reading keys distributes over concatenation. */
  lemma {:induction false} KeysOfAppend(a: seq<BucketContents>, b: seq<BucketContents>)
    ensures KeysOf(a + b) == KeysOf(a) + KeysOf(b)
  {
    if a == [] {
      assert a + b == b;
    } else {
      assert (a + b)[1..] == a[1..] + b;
      KeysOfAppend(a[1..], b);
    }
  }

  /** Groups distribute over concatenation. */
  lemma {:induction false} GroupsAppend(prefix: string, delimiter: string, a: seq<string>, b: seq<string>)
    ensures Groups(prefix, delimiter, a + b) == Groups(prefix, delimiter, a) + Groups(prefix, delimiter, b)
  {
    if a == [] {
      assert a + b == b;
    } else {
      assert (a + b)[1..] == a[1..] + b;
      GroupsAppend(prefix, delimiter, a[1..], b);
    }
  }

  /** Kept keys distribute over concatenation. */
  lemma {:induction false} KeptKeysAppend(prefix: string, delimiter: string, a: seq<string>, b: seq<string>)
    ensures KeptKeys(prefix, delimiter, a + b) == KeptKeys(prefix, delimiter, a) + KeptKeys(prefix, delimiter, b)
  {
    if a == [] {
      assert a + b == b;
    } else {
      assert (a + b)[1..] == a[1..] + b;
      KeptKeysAppend(prefix, delimiter, a[1..], b);
    }
  }

  /** The contents a listing case under `prefix` works on. */
  function FixtureContents(prefix: Option<string>): seq<BucketContents> {
    ContentsOf(KeysUnder(ALL_OBJECTS, OrEmpty(prefix)))
  }

  /** The common prefixes a listing case reports. */
  function FixturePrefixes(prefix: Option<string>, delimiter: Option<string>): set<string> {
    CommonPrefixes(OrEmpty(prefix), OrEmpty(delimiter), FixtureContents(prefix))
  }

  /** The keys a listing case keeps after filtering by its common prefixes. */
  function FixtureKeys(prefix: Option<string>, delimiter: Option<string>): seq<string> {
    KeysOf(FilterBucketContentsBy(FixtureContents(prefix), FixturePrefixes(prefix, delimiter)))
  }

  /** A listing case computed on the fixture keys under its prefix. */
  lemma FixtureOnKeys(prefix: Option<string>, delimiter: Option<string>)
    ensures FixturePrefixes(prefix, delimiter) ==
      Groups(OrEmpty(prefix), OrEmpty(delimiter), KeysUnder(ALL_OBJECTS, OrEmpty(prefix)))
    ensures FixtureKeys(prefix, delimiter) ==
      KeptKeys(OrEmpty(prefix), OrEmpty(delimiter), KeysUnder(ALL_OBJECTS, OrEmpty(prefix)))
  {
    var p, d := OrEmpty(prefix), OrEmpty(delimiter);
    var keys := KeysUnder(ALL_OBJECTS, p);
    CommonPrefixesOfKeys(p, d, keys);
    FilterByOwnPrefixes(p, d, ContentsOf(keys), ContentsOf(keys));
    UngroupedOfKeys(p, d, keys);
  }

  /** The prefix filter over the fixture keys, run by run. */
  lemma KeysUnderRuns(prefix: string)
    ensures KeysUnder(ALL_OBJECTS, prefix) ==
      KeysUnder(RUN_3, prefix) + KeysUnder(RUN_B, prefix) + KeysUnder(RUN_C, prefix)
      + KeysUnder(RUN_D, prefix) + KeysUnder(RUN_E, prefix)
  {
    KeysUnderAppend(RUN_3 + RUN_B + RUN_C + RUN_D, RUN_E, prefix);
    KeysUnderAppend(RUN_3 + RUN_B + RUN_C, RUN_D, prefix);
    KeysUnderAppend(RUN_3 + RUN_B, RUN_C, prefix);
    KeysUnderAppend(RUN_3, RUN_B, prefix);
  }

  /** Groups over the fixture keys, run by run. */
  lemma GroupsRuns(prefix: string, delimiter: string)
    ensures Groups(prefix, delimiter, ALL_OBJECTS) ==
      Groups(prefix, delimiter, RUN_3) + Groups(prefix, delimiter, RUN_B) + Groups(prefix, delimiter, RUN_C)
      + Groups(prefix, delimiter, RUN_D) + Groups(prefix, delimiter, RUN_E)
  {
    GroupsAppend(prefix, delimiter, RUN_3 + RUN_B + RUN_C + RUN_D, RUN_E);
    GroupsAppend(prefix, delimiter, RUN_3 + RUN_B + RUN_C, RUN_D);
    GroupsAppend(prefix, delimiter, RUN_3 + RUN_B, RUN_C);
    GroupsAppend(prefix, delimiter, RUN_3, RUN_B);
  }

  /** Kept keys over the fixture keys, run by run. */
  lemma KeptKeysRuns(prefix: string, delimiter: string)
    ensures KeptKeys(prefix, delimiter, ALL_OBJECTS) ==
      KeptKeys(prefix, delimiter, RUN_3) + KeptKeys(prefix, delimiter, RUN_B) + KeptKeys(prefix, delimiter, RUN_C)
      + KeptKeys(prefix, delimiter, RUN_D) + KeptKeys(prefix, delimiter, RUN_E)
  {
    KeptKeysAppend(prefix, delimiter, RUN_3 + RUN_B + RUN_C + RUN_D, RUN_E);
    KeptKeysAppend(prefix, delimiter, RUN_3 + RUN_B + RUN_C, RUN_D);
    KeptKeysAppend(prefix, delimiter, RUN_3 + RUN_B, RUN_C);
    KeptKeysAppend(prefix, delimiter, RUN_3, RUN_B);
  }

  /** With no delimiter a listing case reports no common prefixes and keeps every key under its prefix. */
  lemma FixtureWithoutDelimiter(prefix: Option<string>, delimiter: Option<string>)
    requires OrEmpty(delimiter) == []
    ensures FixturePrefixes(prefix, delimiter) == {}
    ensures FixtureKeys(prefix, delimiter) == KeysUnder(ALL_OBJECTS, OrEmpty(prefix))
  {
    NoDelimiterKeepsEverything(prefix, delimiter, FixtureContents(prefix));
    KeysOfContentsOf(KeysUnder(ALL_OBJECTS, OrEmpty(prefix)));
  }

  /** Joins the prefix filter's results, run by run, into the result for all fixture keys. */
  lemma KeysUnderFromRuns(prefix: string, k3: seq<string>, kb: seq<string>, kc: seq<string>, kd: seq<string>, ke: seq<string>)
    requires KeysUnder(RUN_3, prefix) == k3 && KeysUnder(RUN_B, prefix) == kb && KeysUnder(RUN_C, prefix) == kc
    requires KeysUnder(RUN_D, prefix) == kd && KeysUnder(RUN_E, prefix) == ke
    ensures KeysUnder(ALL_OBJECTS, prefix) == k3 + kb + kc + kd + ke
  {
    KeysUnderRuns(prefix);
  }

  /** Joins a listing case's common prefixes, run by run, into its result for all fixture keys. */
  lemma GroupsFromRuns(prefix: string, delimiter: string,
    g3: set<string>, gb: set<string>, gc: set<string>, gd: set<string>, ge: set<string>)
    requires Groups(prefix, delimiter, RUN_3) == g3 && Groups(prefix, delimiter, RUN_B) == gb
    requires Groups(prefix, delimiter, RUN_C) == gc && Groups(prefix, delimiter, RUN_D) == gd
    requires Groups(prefix, delimiter, RUN_E) == ge
    ensures Groups(prefix, delimiter, ALL_OBJECTS) == g3 + gb + gc + gd + ge
  {
    GroupsRuns(prefix, delimiter);
  }

  /** Joins a listing case's kept keys, run by run, into its result for all fixture keys. */
  lemma KeptKeysFromRuns(prefix: string, delimiter: string,
    k3: seq<string>, kb: seq<string>, kc: seq<string>, kd: seq<string>, ke: seq<string>)
    requires KeptKeys(prefix, delimiter, RUN_3) == k3 && KeptKeys(prefix, delimiter, RUN_B) == kb
    requires KeptKeys(prefix, delimiter, RUN_C) == kc && KeptKeys(prefix, delimiter, RUN_D) == kd
    requires KeptKeys(prefix, delimiter, RUN_E) == ke
    ensures KeptKeys(prefix, delimiter, ALL_OBJECTS) == k3 + kb + kc + kd + ke
  {
    KeptKeysRuns(prefix, delimiter);
  }

  /** The fixture keys under each prefix of the listing table. */
  lemma FixtureKeysUnder()
    ensures KeysUnder(ALL_OBJECTS, "") == ALL_OBJECTS
    ensures KeysUnder(ALL_OBJECTS, "/") == []
    ensures KeysUnder(ALL_OBJECTS, "b") == ["b", "b/1", "b/1/1", "b/1/2", "b/2"]
    ensures KeysUnder(ALL_OBJECTS, "b/") == ["b/1", "b/1/1", "b/1/2", "b/2"]
    ensures KeysUnder(ALL_OBJECTS, "b/1") == ["b/1", "b/1/1", "b/1/2"]
    ensures KeysUnder(ALL_OBJECTS, "b/1/") == ["b/1/1", "b/1/2"]
    ensures KeysUnder(ALL_OBJECTS, "c") == ["c/1", "c/1/1"]
    ensures KeysUnder(ALL_OBJECTS, "c/") == ["c/1", "c/1/1"]
    ensures KeysUnder(ALL_OBJECTS, "eor") == ["eor.txt"]
  {
    KeysUnderEmptyPrefix(ALL_OBJECTS);
    KeysUnderSlash();
    KeysUnderB();
    KeysUnderBSlash();
    KeysUnderB1();
    KeysUnderB1Slash();
    KeysUnderC();
    KeysUnderCSlash();
    KeysUnderEor();
  }

  lemma KeysUnderSlash()
    ensures KeysUnder(ALL_OBJECTS, "/") == []
  {
    KeysUnderFromRuns("/", [], [], [], [], []);
  }

  lemma KeysUnderB()
    ensures KeysUnder(ALL_OBJECTS, "b") == RUN_B
  {
    RunBUnderB();
    KeysUnderFromRuns("b", [], RUN_B, [], [], []);
  }

  lemma RunBUnderB()
    ensures KeysUnder(RUN_B, "b") == RUN_B
  {
  }

  lemma KeysUnderBSlash()
    ensures KeysUnder(ALL_OBJECTS, "b/") == ["b/1", "b/1/1", "b/1/2", "b/2"]
  {
    RunBUnderBSlash();
    KeysUnderFromRuns("b/", [], ["b/1", "b/1/1", "b/1/2", "b/2"], [], [], []);
  }

  lemma RunBUnderBSlash()
    ensures KeysUnder(RUN_B, "b/") == ["b/1", "b/1/1", "b/1/2", "b/2"]
  {
  }

  lemma KeysUnderB1()
    ensures KeysUnder(ALL_OBJECTS, "b/1") == ["b/1", "b/1/1", "b/1/2"]
  {
    RunBUnderB1();
    KeysUnderFromRuns("b/1", [], ["b/1", "b/1/1", "b/1/2"], [], [], []);
  }

  lemma RunBUnderB1()
    ensures KeysUnder(RUN_B, "b/1") == ["b/1", "b/1/1", "b/1/2"]
  {
  }

  lemma KeysUnderB1Slash()
    ensures KeysUnder(ALL_OBJECTS, "b/1/") == ["b/1/1", "b/1/2"]
  {
    RunBUnderB1Slash();
    KeysUnderFromRuns("b/1/", [], ["b/1/1", "b/1/2"], [], [], []);
  }

  lemma RunBUnderB1Slash()
    ensures KeysUnder(RUN_B, "b/1/") == ["b/1/1", "b/1/2"]
  {
  }

  lemma KeysUnderC()
    ensures KeysUnder(ALL_OBJECTS, "c") == RUN_C
  {
    KeysUnderFromRuns("c", [], [], RUN_C, [], []);
  }

  lemma KeysUnderCSlash()
    ensures KeysUnder(ALL_OBJECTS, "c/") == RUN_C
  {
    KeysUnderFromRuns("c/", [], [], RUN_C, [], []);
  }

  lemma KeysUnderEor()
    ensures KeysUnder(ALL_OBJECTS, "eor") == ["eor.txt"]
  {
    KeysUnderFromRuns("eor", [], [], [], [], ["eor.txt"]);
  }

  /**
   * The rows of the listing table without a delimiter (null or empty): no common prefixes, and
   * every key under the prefix is listed.
   */
  lemma DataWithoutDelimiter()
    ensures FixturePrefixes(None, None) == {} && FixtureKeys(None, None) == ALL_OBJECTS
    ensures FixturePrefixes(Some(""), None) == {} && FixtureKeys(Some(""), None) == ALL_OBJECTS
    ensures FixturePrefixes(None, Some("")) == {} && FixtureKeys(None, Some("")) == ALL_OBJECTS
    ensures FixturePrefixes(Some(""), Some("")) == {} && FixtureKeys(Some(""), Some("")) == ALL_OBJECTS
    ensures FixturePrefixes(Some("/"), None) == {} && FixtureKeys(Some("/"), None) == []
    ensures FixturePrefixes(Some("b"), None) == {}
    ensures FixtureKeys(Some("b"), None) == ["b", "b/1", "b/1/1", "b/1/2", "b/2"]
    ensures FixturePrefixes(Some("b/"), None) == {}
    ensures FixtureKeys(Some("b/"), None) == ["b/1", "b/1/1", "b/1/2", "b/2"]
    ensures FixturePrefixes(Some("b"), Some("")) == {}
    ensures FixtureKeys(Some("b"), Some("")) == ["b", "b/1", "b/1/1", "b/1/2", "b/2"]
  {
    FixtureKeysUnder();
    FixtureWithoutDelimiter(None, None);
    FixtureWithoutDelimiter(Some(""), None);
    FixtureWithoutDelimiter(None, Some(""));
    FixtureWithoutDelimiter(Some(""), Some(""));
    FixtureWithoutDelimiter(Some("/"), None);
    FixtureWithoutDelimiter(Some("b"), None);
    FixtureWithoutDelimiter(Some("b/"), None);
    FixtureWithoutDelimiter(Some("b"), Some(""));
  }

  /** Under no prefix and `/`, the first run groups both `3330/0` and `33309/0` and keeps `a`. */
  lemma Run3NoPrefixSlash()
    ensures Groups("", "/", RUN_3) == {"3330/", "33309/"} && KeptKeys("", "/", RUN_3) == ["a"]
  {
    assert "3330/0"[..5] == "3330/";
    assert "33309/0"[..6] == "33309/";
  }

  /** Under no prefix and `/`, every `b` key but `b` itself collapses into `b/`. */
  lemma RunBNoPrefixSlash()
    ensures Groups("", "/", RUN_B) == {"b/"} && KeptKeys("", "/", RUN_B) == ["b"]
  {
    assert "b/1"[..2] == "b/" && "b/1/1"[..2] == "b/" && "b/1/2"[..2] == "b/" && "b/2"[..2] == "b/";
  }

  /** Under no prefix and `/`, both `c` keys collapse into `c/`. */
  lemma RunCNoPrefixSlash()
    ensures Groups("", "/", RUN_C) == {"c/"} && KeptKeys("", "/", RUN_C) == []
  {
    assert "c/1"[..2] == "c/" && "c/1/1"[..2] == "c/";
  }

  /** Under no prefix and `/`, keys built with `:` are never grouped. */
  lemma RunDNoPrefixSlash()
    ensures Groups("", "/", RUN_D) == {} && KeptKeys("", "/", RUN_D) == RUN_D
  {
  }

  /** Under no prefix and `/`, `foo/eor.txt` collapses into `foo/` and `eor.txt` is kept. */
  lemma RunENoPrefixSlash()
    ensures Groups("", "/", RUN_E) == {"foo/"} && KeptKeys("", "/", RUN_E) == ["eor.txt"]
  {
    assert "foo/eor.txt"[..4] == "foo/";
  }

  /** The runs' results under no prefix and `/`, added up. */
  lemma NoPrefixSlashTotals()
    ensures {"3330/", "33309/"} + {"b/"} + {"c/"} + {} + {"foo/"} == {"3330/", "foo/", "c/", "b/", "33309/"}
    ensures ["a"] + ["b"] + [] + RUN_D + ["eor.txt"] == ["a", "b", "d:1", "d:1:1", "eor.txt"]
  {
  }

  /**
   * Row `(null, "/")` of the listing table: five common prefixes, and of the fourteen keys only
   * those without a `/` remain; `:` is never mistaken for the delimiter.
   */
  lemma DataNoPrefixSlash()
    ensures FixturePrefixes(None, Some("/")) == {"3330/", "foo/", "c/", "b/", "33309/"}
    ensures FixtureKeys(None, Some("/")) == ["a", "b", "d:1", "d:1:1", "eor.txt"]
  {
    FixtureOnKeys(None, Some("/"));
    KeysUnderEmptyPrefix(ALL_OBJECTS);
    Run3NoPrefixSlash();
    RunBNoPrefixSlash();
    RunCNoPrefixSlash();
    RunDNoPrefixSlash();
    RunENoPrefixSlash();
    GroupsFromRuns("", "/", {"3330/", "33309/"}, {"b/"}, {"c/"}, {}, {"foo/"});
    KeptKeysFromRuns("", "/", ["a"], ["b"], [], RUN_D, ["eor.txt"]);
    NoPrefixSlashTotals();
  }

  /** Row `("b", "/")`: `b` is kept and everything below it collapses into `b/`. */
  lemma DataBSlash()
    ensures FixturePrefixes(Some("b"), Some("/")) == {"b/"}
    ensures FixtureKeys(Some("b"), Some("/")) == ["b"]
  {
    FixtureOnKeys(Some("b"), Some("/"));
    KeysUnderB();
    ListingBSlash();
  }

  /** Under `b` and `/`, `b` has no delimiter after the prefix and every other key groups as `b/`. */
  lemma ListingBSlash()
    ensures Groups("b", "/", RUN_B) == {"b/"} && KeptKeys("b", "/", RUN_B) == ["b"]
  {
    assert "b/1"[..2] == "b/" && "b/1/1"[..2] == "b/" && "b/1/2"[..2] == "b/" && "b/2"[..2] == "b/";
  }

  /** Row `("b/", "/")`: `b/1` and `b/2` are kept, and `b/1/1`, `b/1/2` collapse into `b/1/`. */
  lemma DataBSlashSlash()
    ensures FixturePrefixes(Some("b/"), Some("/")) == {"b/1/"}
    ensures FixtureKeys(Some("b/"), Some("/")) == ["b/1", "b/2"]
  {
    FixtureOnKeys(Some("b/"), Some("/"));
    KeysUnderBSlash();
    ListingBSlashSlash();
  }

  /** Under `b/` and `/`, only `b/1/1` and `b/1/2` have a delimiter after the prefix. */
  lemma ListingBSlashSlash()
    ensures Groups("b/", "/", ["b/1", "b/1/1", "b/1/2", "b/2"]) == {"b/1/"} && KeptKeys("b/", "/", ["b/1", "b/1/1", "b/1/2", "b/2"]) == ["b/1", "b/2"]
  {
    assert "b/1/1"[..4] == "b/1/" && "b/1/2"[..4] == "b/1/";
  }

  /** Row `("b/1", "/")`: `b/1` is kept although `b/1/` is reported. */
  lemma DataB1Slash()
    ensures FixturePrefixes(Some("b/1"), Some("/")) == {"b/1/"}
    ensures FixtureKeys(Some("b/1"), Some("/")) == ["b/1"]
  {
    FixtureOnKeys(Some("b/1"), Some("/"));
    KeysUnderB1();
    ListingB1Slash();
  }

  /** Under `b/1` and `/`, `b/1` has no delimiter after the prefix; the two keys below it do. */
  lemma ListingB1Slash()
    ensures Groups("b/1", "/", ["b/1", "b/1/1", "b/1/2"]) == {"b/1/"} && KeptKeys("b/1", "/", ["b/1", "b/1/1", "b/1/2"]) == ["b/1"]
  {
    assert "b/1/1"[..4] == "b/1/" && "b/1/2"[..4] == "b/1/";
  }

  /** Row `("b/1/", "/")`: no delimiter after the prefix, so nothing collapses. */
  lemma DataB1SlashSlash()
    ensures FixturePrefixes(Some("b/1/"), Some("/")) == {}
    ensures FixtureKeys(Some("b/1/"), Some("/")) == ["b/1/1", "b/1/2"]
  {
    FixtureOnKeys(Some("b/1/"), Some("/"));
    KeysUnderB1Slash();
    ListingB1SlashSlash();
  }

  /** Under `b/1/` and `/`, no key has a delimiter after the prefix. */
  lemma ListingB1SlashSlash()
    ensures Groups("b/1/", "/", ["b/1/1", "b/1/2"]) == {} && KeptKeys("b/1/", "/", ["b/1/1", "b/1/2"]) == ["b/1/1", "b/1/2"]
  {
  }

  /** Row `("c", "/")`: both `c` keys collapse into `c/` and none is listed. */
  lemma DataCSlash()
    ensures FixturePrefixes(Some("c"), Some("/")) == {"c/"}
    ensures FixtureKeys(Some("c"), Some("/")) == []
  {
    FixtureOnKeys(Some("c"), Some("/"));
    KeysUnderC();
    ListingCSlash();
  }

  /** Under `c` and `/`, both `c` keys group as `c/`. */
  lemma ListingCSlash()
    ensures Groups("c", "/", RUN_C) == {"c/"} && KeptKeys("c", "/", RUN_C) == []
  {
    assert "c/1"[..2] == "c/" && "c/1/1"[..2] == "c/";
  }

  /** Row `("c/", "/")`: `c/1` is kept and `c/1/1` collapses into `c/1/`. */
  lemma DataCSlashSlash()
    ensures FixturePrefixes(Some("c/"), Some("/")) == {"c/1/"}
    ensures FixtureKeys(Some("c/"), Some("/")) == ["c/1"]
  {
    FixtureOnKeys(Some("c/"), Some("/"));
    KeysUnderCSlash();
    ListingCSlashSlash();
  }

  /** Under `c/` and `/`, `c/1` has no delimiter after the prefix and `c/1/1` groups as `c/1/`. */
  lemma ListingCSlashSlash()
    ensures Groups("c/", "/", RUN_C) == {"c/1/"} && KeptKeys("c/", "/", RUN_C) == ["c/1"]
  {
    assert "c/1/1"[..4] == "c/1/";
  }

  /** Row `("eor", "/")`: `eor.txt` is kept; `foo/eor.txt` is outside the prefix. */
  lemma DataEorSlash()
    ensures FixturePrefixes(Some("eor"), Some("/")) == {}
    ensures FixtureKeys(Some("eor"), Some("/")) == ["eor.txt"]
  {
    FixtureOnKeys(Some("eor"), Some("/"));
    KeysUnderEor();
    ListingEorSlash();
  }

  /** Under `eor` and `/`, `eor.txt` has no delimiter. */
  lemma ListingEorSlash()
    ensures Groups("eor", "/", ["eor.txt"]) == {} && KeptKeys("eor", "/", ["eor.txt"]) == ["eor.txt"]
  {
  }

  /** Under prefix `3330` and `/`, only the first run reports anything. */
  lemma Runs3330Slash()
    ensures Groups("3330", "/", RUN_3) == {"3330/", "33309/"}
    ensures Groups("3330", "/", RUN_B) == {} && Groups("3330", "/", RUN_C) == {}
    ensures Groups("3330", "/", RUN_D) == {} && Groups("3330", "/", RUN_E) == {}
  {
    assert "3330/0"[..5] == "3330/";
    assert "33309/0"[..6] == "33309/";
  }

  /**
   * The direct common-prefix cases, on the contents of all fourteen keys: no delimiter gives none
   * whatever the prefix (`""` or `prefixa`); `/` without a prefix gives five; prefix `3330` with `/`
   * gives exactly `3330/` and `33309/`.
   */
  lemma CommonPrefixesOfFixture()
    ensures CommonPrefixes("", "", FixtureContents(None)) == {}
    ensures CommonPrefixes("prefixa", "", FixtureContents(None)) == {}
    ensures CommonPrefixes("", "/", FixtureContents(None)) == {"3330/", "foo/", "c/", "b/", "33309/"}
    ensures CommonPrefixes("3330", "/", FixtureContents(None)) == {"3330/", "33309/"}
  {
    EmptyDelimiterNeverGroups("", FixtureContents(None));
    EmptyDelimiterNeverGroups("prefixa", FixtureContents(None));
    DataNoPrefixSlash();
    KeysUnderEmptyPrefix(ALL_OBJECTS);
    CommonPrefixesOfKeys("3330", "/", ALL_OBJECTS);
    Runs3330Slash();
    GroupsFromRuns("3330", "/", {"3330/", "33309/"}, {}, {}, {}, {});
  }
}
