/**
 * The expectation documents of `to-run.yaml` and their validation (`checkToRun`
 * in tests/wpt-jsdom/run-wpts.js).
 *
 * Glob matching and the file system are not modelled: `matches(glob, path)`
 * stands for `new Minimatch(glob).match(path)` and `dirExists(dir)` for the
 * existence check of the directory under the test root.
 */
module Expectations {
  import opened Wrappers
  import opened Text

  type GlobMatch = (string, string) -> bool

  /** The closed vocabulary of reasons an expectation may give. */
  const ValidReasons: set<string> :=
    {"fail", "fail-slow", "timeout", "flaky", "mutates-globals",
     "needs-node10", "needs-node11", "needs-node12"}

  /** One `pattern: [reason, ...]` entry of a document. */
  datatype Expectation = Expectation(pattern: string, reasons: seq<string>)

  /** One YAML document: its `DIR` key first, then the pattern keys in document order. */
  datatype Doc = Doc(dir: string, expectations: seq<Expectation>)

  /** A compiled glob, built from (and cached under) the key `DIR/pattern`. */
  datatype Matcher = Matcher(glob: string)

  datatype CheckError =
    | DirStartsWithSlash(dir: string)
    | DirEndsWithSlash(dir: string)
    | MissingDirectory(dir: string)
    | BadDirOrder(dir: string, lastDir: string)
    | PatternStartsWithSlash(pattern: string)
    | BadPatternOrder(pattern: string, lastPattern: string)
    | BadReason(reason: Option<string>, pattern: string)
    | NoMatchingFile(pattern: string)

  /** `Object.keys(doc)`: the `DIR` key, then every pattern. */
  function Keys(doc: Doc): seq<string> {
    ["DIR"] + seq(|doc.expectations|, i requires 0 <= i < |doc.expectations| => doc.expectations[i].pattern)
  }

  /** The keys of the document with the first one (`DIR`) shifted off. */
  function ExpectationsInDoc(doc: Doc): (patterns: seq<string>)
    ensures |patterns| == |Keys(doc)| - 1
    ensures forall i :: 0 <= i < |patterns| ==> patterns[i] == Keys(doc)[i + 1]
    ensures |patterns| == |doc.expectations|
    ensures forall i :: 0 <= i < |patterns| ==> patterns[i] == doc.expectations[i].pattern
  {
    Keys(doc)[1..]
  }

  /** `doc[pattern][0]`: `undefined` for an empty list. */
  function FirstReason(reasons: seq<string>): Option<string> {
    if |reasons| == 0 then None else Some(reasons[0])
  }

  predicate IsValidReason(reason: Option<string>) {
    reason.Some? && reason.value in ValidReasons
  }

  /** The key a matcher is built from and cached under. */
  function Key(dir: string, pattern: string): string {
    dir + "/" + pattern
  }

  /** `possibleTestFilePaths.some((filename) => matcher.match(filename))`. */
  predicate MatchesAny(glob: string, paths: seq<string>, matches: GlobMatch) {
    exists p :: p in paths && matches(glob, p)
  }

  // ---------------------------------------------------------------------------
  // Reference definition of the walk: the first error in walk order, or the
  // matcher cache built by a walk that finds none.
  // ---------------------------------------------------------------------------

  function CheckPatterns(dir: string, es: seq<Expectation>, lastPattern: string,
                         acc: map<string, Matcher>, paths: seq<string>, matches: GlobMatch)
    : Result<map<string, Matcher>, CheckError>
    decreases |es|
  {
    if es == [] then Ok(acc)
    else
      var pattern := es[0].pattern;
      var reason := FirstReason(es[0].reasons);
      if StartsWith(pattern, "/") then Err(PatternStartsWithSlash(pattern))
      else if Less(pattern, lastPattern) then Err(BadPatternOrder(pattern, lastPattern))
      else if !IsValidReason(reason) then Err(BadReason(reason, pattern))
      else if !MatchesAny(Key(dir, pattern), paths, matches) then Err(NoMatchingFile(pattern))
      else CheckPatterns(dir, es[1..], pattern, acc[Key(dir, pattern) := Matcher(Key(dir, pattern))], paths, matches)
  }

  function CheckDocs(docs: seq<Doc>, lastDir: string, acc: map<string, Matcher>,
                     paths: seq<string>, dirExists: string -> bool, matches: GlobMatch)
    : Result<map<string, Matcher>, CheckError>
    decreases |docs|
  {
    if docs == [] then Ok(acc)
    else
      var dir := docs[0].dir;
      if StartsWith(dir, "/") then Err(DirStartsWithSlash(dir))
      else if EndsWith(dir, "/") then Err(DirEndsWithSlash(dir))
      else if !dirExists(dir) then Err(MissingDirectory(dir))
      else if Less(dir, lastDir) then Err(BadDirOrder(dir, lastDir))
      else match CheckPatterns(dir, docs[0].expectations, "", acc, paths, matches)
        case Err(e) => Err(e)
        case Ok(acc') => CheckDocs(docs[1..], dir, acc', paths, dirExists, matches)
  }

  function Validate(docs: seq<Doc>, paths: seq<string>, dirExists: string -> bool, matches: GlobMatch)
    : Result<map<string, Matcher>, CheckError>
  {
    CheckDocs(docs, "", map[], paths, dirExists, matches)
  }

  // ---------------------------------------------------------------------------
  // The walk as the harness performs it.
  // ---------------------------------------------------------------------------

  /**
   * Walks the documents in order, throwing (here: returning `Err`) at the first
   * broken rule, and fills the matcher cache with one matcher per `DIR/pattern`.
   */
  method CheckToRun(docs: seq<Doc>, paths: seq<string>, dirExists: string -> bool, matches: GlobMatch)
    returns (res: Result<map<string, Matcher>, CheckError>)
    ensures res == Validate(docs, paths, dirExists, matches)
  {
    var minimatchers: map<string, Matcher> := map[];
    var lastDir := "";
    var i := 0;
    while i < |docs|
      invariant 0 <= i <= |docs|
      invariant Validate(docs, paths, dirExists, matches)
             == CheckDocs(docs[i..], lastDir, minimatchers, paths, dirExists, matches)
    {
      var doc := docs[i];
      assert docs[i..][0] == doc && docs[i..][1..] == docs[i + 1..];
      if StartsWith(doc.dir, "/") {
        return Err(DirStartsWithSlash(doc.dir));
      }
      if EndsWith(doc.dir, "/") {
        return Err(DirEndsWithSlash(doc.dir));
      }
      if !dirExists(doc.dir) {
        return Err(MissingDirectory(doc.dir));
      }
      if Less(doc.dir, lastDir) {
        return Err(BadDirOrder(doc.dir, lastDir));
      }
      lastDir := doc.dir;

      ghost var before := minimatchers;
      var lastPattern := "";
      var patterns := ExpectationsInDoc(doc);
      var j := 0;
      while j < |patterns|
        invariant 0 <= j <= |patterns|
        invariant CheckPatterns(doc.dir, doc.expectations, "", before, paths, matches)
               == CheckPatterns(doc.dir, doc.expectations[j..], lastPattern, minimatchers, paths, matches)
      {
        var pattern := patterns[j];
        assert doc.expectations[j..][0].pattern == pattern;
        assert doc.expectations[j..][1..] == doc.expectations[j + 1..];
        if StartsWith(pattern, "/") {
          return Err(PatternStartsWithSlash(pattern));
        }
        if Less(pattern, lastPattern) {
          return Err(BadPatternOrder(pattern, lastPattern));
        }
        lastPattern := pattern;

        var reason := FirstReason(doc.expectations[j].reasons);
        if !IsValidReason(reason) {
          return Err(BadReason(reason, pattern));
        }

        var matcher := Matcher(Key(doc.dir, pattern));
        if !MatchesAny(matcher.glob, paths, matches) {
          return Err(NoMatchingFile(pattern));
        }
        minimatchers := minimatchers[Key(doc.dir, pattern) := matcher];
        j := j + 1;
      }
      assert doc.expectations[j..] == [];
      i := i + 1;
    }
    assert docs[i..] == [];
    res := Ok(minimatchers);
  }

  // ---------------------------------------------------------------------------
  // What a successful validation guarantees.
  // ---------------------------------------------------------------------------

  predicate EntryValid(dir: string, e: Expectation, paths: seq<string>, matches: GlobMatch) {
    && !StartsWith(e.pattern, "/")
    && IsValidReason(FirstReason(e.reasons))
    && MatchesAny(Key(dir, e.pattern), paths, matches)
  }

  /** Every pattern is no smaller than the one before it in the same document. */
  predicate PatternsSorted(es: seq<Expectation>) {
    forall j :: 0 < j < |es| ==> !Less(es[j].pattern, es[j - 1].pattern)
  }

  predicate DocValid(d: Doc, paths: seq<string>, dirExists: string -> bool, matches: GlobMatch) {
    && !StartsWith(d.dir, "/")
    && !EndsWith(d.dir, "/")
    && dirExists(d.dir)
    && (forall e :: e in d.expectations ==> EntryValid(d.dir, e, paths, matches))
    && PatternsSorted(d.expectations)
  }

  /** Every `DIR` is no smaller than the one of the document before it. */
  predicate DirsSorted(docs: seq<Doc>) {
    forall i :: 0 < i < |docs| ==> !Less(docs[i].dir, docs[i - 1].dir)
  }

  predicate WellFormed(docs: seq<Doc>, paths: seq<string>, dirExists: string -> bool, matches: GlobMatch) {
    (forall d :: d in docs ==> DocValid(d, paths, dirExists, matches)) && DirsSorted(docs)
  }

  /** Every `DIR/pattern` key of the documents. */
  function AllKeys(docs: seq<Doc>): set<string> {
    set d, e | d in docs && e in d.expectations :: Key(d.dir, e.pattern)
  }

  function DocKeys(dir: string, es: seq<Expectation>): set<string> {
    set e | e in es :: Key(dir, e.pattern)
  }

  /** Every cached matcher was built from the key it is cached under. */
  predicate Coherent(m: map<string, Matcher>) {
    forall k :: k in m ==> m[k] == Matcher(k)
  }

  lemma {:induction false} CheckPatternsOkIff(dir: string, es: seq<Expectation>, lastPattern: string,
                                              acc: map<string, Matcher>, paths: seq<string>, matches: GlobMatch)
    ensures CheckPatterns(dir, es, lastPattern, acc, paths, matches).Ok?
        <==> ((es != [] ==> !Less(es[0].pattern, lastPattern))
              && (forall e :: e in es ==> EntryValid(dir, e, paths, matches))
              && PatternsSorted(es))
    decreases |es|
  {
    if es != [] {
      var k := Key(dir, es[0].pattern);
      CheckPatternsOkIff(dir, es[1..], es[0].pattern, acc[k := Matcher(k)], paths, matches);
      assert es == [es[0]] + es[1..];
      assert es[1..] != [] ==> es[1..][0] == es[1];
      assert (forall e :: e in es ==> EntryValid(dir, e, paths, matches))
         <==> EntryValid(dir, es[0], paths, matches) && (forall e :: e in es[1..] ==> EntryValid(dir, e, paths, matches));
      assert PatternsSorted(es) <==> PatternsSorted(es[1..]) && (|es| > 1 ==> !Less(es[1].pattern, es[0].pattern)) by {
        if PatternsSorted(es[1..]) && (|es| > 1 ==> !Less(es[1].pattern, es[0].pattern)) {
          forall j | 0 < j < |es| ensures !Less(es[j].pattern, es[j - 1].pattern) {
            if j > 1 {
              assert es[1..][j - 1] == es[j] && es[1..][j - 2] == es[j - 1];
            }
          }
        }
        if PatternsSorted(es) {
          forall j | 0 < j < |es[1..]| ensures !Less(es[1..][j].pattern, es[1..][j - 1].pattern) {
            assert es[1..][j] == es[j + 1] && es[1..][j - 1] == es[j];
          }
        }
      }
    }
  }

  lemma {:induction false} CheckPatternsCache(dir: string, es: seq<Expectation>, lastPattern: string,
                                              acc: map<string, Matcher>, paths: seq<string>, matches: GlobMatch)
    requires Coherent(acc)
    requires CheckPatterns(dir, es, lastPattern, acc, paths, matches).Ok?
    ensures var m := CheckPatterns(dir, es, lastPattern, acc, paths, matches).value;
            Coherent(m) && m.Keys == acc.Keys + DocKeys(dir, es)
    decreases |es|
  {
    if es != [] {
      var k := Key(dir, es[0].pattern);
      CheckPatternsCache(dir, es[1..], es[0].pattern, acc[k := Matcher(k)], paths, matches);
      assert DocKeys(dir, es) == {k} + DocKeys(dir, es[1..]) by {
        assert es == [es[0]] + es[1..];
      }
    }
  }

  lemma {:induction false} CheckDocsOkIff(docs: seq<Doc>, lastDir: string, acc: map<string, Matcher>,
                                          paths: seq<string>, dirExists: string -> bool, matches: GlobMatch)
    ensures CheckDocs(docs, lastDir, acc, paths, dirExists, matches).Ok?
        <==> ((docs != [] ==> !Less(docs[0].dir, lastDir))
              && WellFormed(docs, paths, dirExists, matches))
    decreases |docs|
  {
    if docs != [] {
      var d := docs[0];
      CheckPatternsOkIff(d.dir, d.expectations, "", acc, paths, matches);
      if d.expectations != [] {
        LessEmptyNever(d.expectations[0].pattern);
      }
      assert docs == [d] + docs[1..];
      assert docs[1..] != [] ==> docs[1..][0] == docs[1];
      assert (forall d' :: d' in docs ==> DocValid(d', paths, dirExists, matches))
         <==> DocValid(d, paths, dirExists, matches) && (forall d' :: d' in docs[1..] ==> DocValid(d', paths, dirExists, matches));
      assert DirsSorted(docs) <==> DirsSorted(docs[1..]) && (|docs| > 1 ==> !Less(docs[1].dir, d.dir)) by {
        if DirsSorted(docs[1..]) && (|docs| > 1 ==> !Less(docs[1].dir, d.dir)) {
          forall i | 0 < i < |docs| ensures !Less(docs[i].dir, docs[i - 1].dir) {
            if i > 1 {
              assert docs[1..][i - 1] == docs[i] && docs[1..][i - 2] == docs[i - 1];
            }
          }
        }
        if DirsSorted(docs) {
          forall i | 0 < i < |docs[1..]| ensures !Less(docs[1..][i].dir, docs[1..][i - 1].dir) {
            assert docs[1..][i] == docs[i + 1] && docs[1..][i - 1] == docs[i];
          }
        }
      }
      match CheckPatterns(d.dir, d.expectations, "", acc, paths, matches)
      case Err(_) =>
      case Ok(acc') =>
        CheckDocsOkIff(docs[1..], d.dir, acc', paths, dirExists, matches);
    }
  }

  lemma LessEmptyNever(s: string)
    ensures !Less(s, "")
  {
  }

  lemma {:induction false} CheckDocsCache(docs: seq<Doc>, lastDir: string, acc: map<string, Matcher>,
                                          paths: seq<string>, dirExists: string -> bool, matches: GlobMatch)
    requires Coherent(acc)
    requires CheckDocs(docs, lastDir, acc, paths, dirExists, matches).Ok?
    ensures var m := CheckDocs(docs, lastDir, acc, paths, dirExists, matches).value;
            Coherent(m) && m.Keys == acc.Keys + AllKeys(docs)
    decreases |docs|
  {
    if docs != [] {
      var d := docs[0];
      CheckPatternsCache(d.dir, d.expectations, "", acc, paths, matches);
      var acc' := CheckPatterns(d.dir, d.expectations, "", acc, paths, matches).value;
      CheckDocsCache(docs[1..], d.dir, acc', paths, dirExists, matches);
      assert AllKeys(docs) == DocKeys(d.dir, d.expectations) + AllKeys(docs[1..]) by {
        assert docs == [d] + docs[1..];
        forall k | k in AllKeys(docs) ensures k in DocKeys(d.dir, d.expectations) + AllKeys(docs[1..]) {
          var d', e :| d' in docs && e in d'.expectations && k == Key(d'.dir, e.pattern);
          if d' != d {
            assert d' in docs[1..];
          }
        }
      }
    }
  }

  /** Validation succeeds exactly when every rule holds of every document and every pattern. */
  lemma ValidateOkIff(docs: seq<Doc>, paths: seq<string>, dirExists: string -> bool, matches: GlobMatch)
    ensures Validate(docs, paths, dirExists, matches).Ok? <==> WellFormed(docs, paths, dirExists, matches)
  {
    CheckDocsOkIff(docs, "", map[], paths, dirExists, matches);
    if docs != [] {
      LessEmptyNever(docs[0].dir);
    }
  }

  /** A successful validation caches exactly one matcher per `DIR/pattern`, built from that key. */
  lemma ValidateCache(docs: seq<Doc>, paths: seq<string>, dirExists: string -> bool, matches: GlobMatch)
    requires Validate(docs, paths, dirExists, matches).Ok?
    ensures var m := Validate(docs, paths, dirExists, matches).value;
            m.Keys == AllKeys(docs) && forall k :: k in m ==> m[k] == Matcher(k)
  {
    CheckDocsCache(docs, "", map[], paths, dirExists, matches);
  }

  /** A `DIR` beginning or ending with a slash anywhere in the documents makes validation fail. */
  lemma SlashedDirRejected(docs: seq<Doc>, i: nat, paths: seq<string>, dirExists: string -> bool, matches: GlobMatch)
    requires i < |docs|
    requires StartsWith(docs[i].dir, "/") || EndsWith(docs[i].dir, "/")
    ensures Validate(docs, paths, dirExists, matches).Err?
  {
    ValidateOkIff(docs, paths, dirExists, matches);
    assert docs[i] in docs;
  }

  /** A `DIR` naming a directory that does not exist makes validation fail. */
  lemma MissingDirRejected(docs: seq<Doc>, i: nat, paths: seq<string>, dirExists: string -> bool, matches: GlobMatch)
    requires i < |docs| && !dirExists(docs[i].dir)
    ensures Validate(docs, paths, dirExists, matches).Err?
  {
    ValidateOkIff(docs, paths, dirExists, matches);
    assert docs[i] in docs;
  }

  /** After a successful validation the `DIR`s are in non-decreasing order (equal ones allowed). */
  lemma {:induction false} ValidatedDirsOrdered(docs: seq<Doc>, paths: seq<string>, dirExists: string -> bool, matches: GlobMatch)
    requires Validate(docs, paths, dirExists, matches).Ok?
    ensures forall i, j :: 0 <= i < j < |docs| ==> !Less(docs[j].dir, docs[i].dir)
  {
    ValidateOkIff(docs, paths, dirExists, matches);
    forall i, j | 0 <= i < j < |docs| ensures !Less(docs[j].dir, docs[i].dir) {
      NeighboursToPairs(docs, i, j);
    }
  }

  lemma {:induction false} NeighboursToPairs(docs: seq<Doc>, i: nat, j: nat)
    requires DirsSorted(docs) && i < j < |docs|
    ensures !Less(docs[j].dir, docs[i].dir)
    decreases j - i
  {
    if j > i + 1 {
      NeighboursToPairs(docs, i, j - 1);
      NotLessTransitive(docs[i].dir, docs[j - 1].dir, docs[j].dir);
    }
  }

  /**
   * After a successful validation the patterns of each document are in
   * non-decreasing order; the order restarts with every document.
   */
  lemma ValidatedPatternsOrdered(docs: seq<Doc>, paths: seq<string>, dirExists: string -> bool, matches: GlobMatch,
                                 d: Doc, i: nat, j: nat)
    requires Validate(docs, paths, dirExists, matches).Ok?
    requires d in docs && i < j < |d.expectations|
    ensures !Less(d.expectations[j].pattern, d.expectations[i].pattern)
  {
    ValidateOkIff(docs, paths, dirExists, matches);
    PatternNeighboursToPairs(d.expectations, i, j);
  }

  lemma {:induction false} PatternNeighboursToPairs(es: seq<Expectation>, i: nat, j: nat)
    requires PatternsSorted(es) && i < j < |es|
    ensures !Less(es[j].pattern, es[i].pattern)
    decreases j - i
  {
    if j > i + 1 {
      PatternNeighboursToPairs(es, i, j - 1);
      NotLessTransitive(es[i].pattern, es[j - 1].pattern, es[j].pattern);
    }
  }

  /**
   * After a successful validation every pattern has a valid first reason, does
   * not start with a slash, and its `DIR/pattern` glob matches some test file.
   */
  lemma ValidatedEntries(docs: seq<Doc>, paths: seq<string>, dirExists: string -> bool, matches: GlobMatch,
                         d: Doc, e: Expectation)
    requires Validate(docs, paths, dirExists, matches).Ok?
    requires d in docs && e in d.expectations
    ensures FirstReason(e.reasons).Some? && FirstReason(e.reasons).value in ValidReasons
    ensures !StartsWith(e.pattern, "/")
    ensures exists p :: p in paths && matches(Key(d.dir, e.pattern), p)
  {
    ValidateOkIff(docs, paths, dirExists, matches);
  }
}
