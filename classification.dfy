/**
 * The per-file decision of the `describe` loop in tests/wpt-jsdom/run-wpts.js:
 * which test files a document covers, which of its patterns applies to a file,
 * and whether the file is skipped, run expecting failure, or run normally.
 */
module Classification {
  import opened Wrappers
  import opened Text
  import opened Expectations

  datatype Disposition = Skip(reason: string) | ExpectFail | Run

  /** One registered test: its file path, its name below `DIR/`, and its fate. */
  datatype Planned = Planned(path: string, testFile: string, disposition: Disposition) {
    /** The title under which the test is reported: the file, labelled unless the test runs normally. */
    function Title(): (t: string)
      ensures EndsWith(t, testFile)
      ensures t == testFile <==> disposition.Run?
      ensures !disposition.Run? ==> t[0] == '['
    {
      var tag := (match disposition
        case Skip(reason) => "[" + reason + "] "
        case ExpectFail => "[expected fail] "
        case Run => "");
      var t := tag + testFile;
      assert t[|t| - |testFile|..] == testFile;
      t
    }

    /** The `expectFail` flag handed to the single-test runner. */
    predicate ExpectsFailure() {
      disposition == ExpectFail
    }
  }

  /** Reasons that skip the test whatever the Node version. */
  const SkipReasons: seq<string> := ["fail-slow", "timeout", "flaky", "mutates-globals"]

  /** Reasons that depend on the Node version. */
  const NeedsNodeReasons: set<Option<string>> := {Some("needs-node10"), Some("needs-node11"), Some("needs-node12")}

  /** `hasNodeN`: the running Node's major version is at least `n`. */
  predicate HasNode(nodeMajor: nat, n: nat) {
    nodeMajor >= n
  }

  /** Every pattern of the document has its matcher in the cache (what validation builds). */
  predicate Covers(doc: Doc, matchers: map<string, Matcher>) {
    forall p :: p in ExpectationsInDoc(doc) ==> Key(doc.dir, p) in matchers
  }

  /** The cached matcher for pattern `p` of the document accepts `path`. */
  predicate Hit(dir: string, p: string, path: string, matchers: map<string, Matcher>, matches: GlobMatch)
    requires Key(dir, p) in matchers
  {
    matches(matchers[Key(dir, p)].glob, path)
  }

  /** `patterns.find(...)` from position `from` on: the index of the first pattern whose matcher accepts `path`. */
  function FindFrom(dir: string, patterns: seq<string>, from: nat, path: string,
                    matchers: map<string, Matcher>, matches: GlobMatch): (r: Option<nat>)
    requires from <= |patterns|
    requires forall p :: p in patterns ==> Key(dir, p) in matchers
    ensures r.Some? ==> from <= r.value < |patterns| && Hit(dir, patterns[r.value], path, matchers, matches)
    ensures r.Some? ==> forall j :: from <= j < r.value ==> !Hit(dir, patterns[j], path, matchers, matches)
    ensures r.None? ==> forall j :: from <= j < |patterns| ==> !Hit(dir, patterns[j], path, matchers, matches)
    decreases |patterns| - from
  {
    if from == |patterns| then None
    else if Hit(dir, patterns[from], path, matchers, matches) then Some(from)
    else FindFrom(dir, patterns, from + 1, path, matchers, matches)
  }

  /**
   * `reason = matchingPattern && toRunDoc[matchingPattern][0]`: no match gives
   * `undefined`, a match on the empty pattern gives that (falsy) pattern itself.
   */
  function MatchedReason(doc: Doc, found: Option<nat>): (reason: Option<string>)
    requires found.Some? ==> found.value < |doc.expectations|
    ensures found.None? ==> reason.None?
    ensures found.Some? && doc.expectations[found.value].pattern == "" ==> reason == Some("")
    ensures found.Some? && doc.expectations[found.value].pattern != ""
            ==> reason == FirstReason(doc.expectations[found.value].reasons)
  {
    match found
    case None => None
    case Some(j) =>
      if doc.expectations[j].pattern == "" then Some("")
      else FirstReason(doc.expectations[j].reasons)
  }

  /** The decision table of the `describe` loop. */
  function Decide(reason: Option<string>, nodeMajor: nat): (d: Disposition)
    ensures reason.None? ==> d == Run
    ensures reason.Some? && reason.value in SkipReasons ==> d == Skip(reason.value)
    ensures reason == Some("fail") ==> d == ExpectFail
    ensures reason == Some("needs-node10") ==> (d == ExpectFail <==> nodeMajor < 10) && (d == Run <==> nodeMajor >= 10)
    ensures reason == Some("needs-node11") ==> (d == ExpectFail <==> nodeMajor < 11) && (d == Run <==> nodeMajor >= 11)
    ensures reason == Some("needs-node12") ==> (d == ExpectFail <==> nodeMajor < 12) && (d == Run <==> nodeMajor >= 12)
    ensures reason.Some? && reason.value !in ValidReasons ==> d == Run
  {
    var shouldSkip := reason.Some? && reason.value in SkipReasons;
    var expectFail :=
      || reason == Some("fail")
      || (reason == Some("needs-node10") && !HasNode(nodeMajor, 10))
      || (reason == Some("needs-node11") && !HasNode(nodeMajor, 11))
      || (reason == Some("needs-node12") && !HasNode(nodeMajor, 12));
    if shouldSkip then Skip(reason.value)
    else if expectFail then ExpectFail
    else Run
  }

  /** The fate of one test file under one document; `None` when the file is not below `DIR/`. */
  function Classify(doc: Doc, path: string, matchers: map<string, Matcher>, matches: GlobMatch, nodeMajor: nat)
    : (r: Option<Planned>)
    requires Covers(doc, matchers)
    ensures r.Some? <==> StartsWith(path, doc.dir + "/")
    ensures r.Some? ==> r.value.path == path && (doc.dir + "/") + r.value.testFile == path
  {
    var prefix := doc.dir + "/";
    if !StartsWith(path, prefix) then None
    else
      var found := FindFrom(doc.dir, ExpectationsInDoc(doc), 0, path, matchers, matches);
      var testFile := path[|prefix|..];
      assert prefix + testFile == path;
      Some(Planned(path, testFile, Decide(MatchedReason(doc, found), nodeMajor)))
  }

  /** The test files below `DIR/`, in the order of `paths`. */
  function UnderDir(dir: string, paths: seq<string>): (r: seq<string>)
    ensures |r| <= |paths|
    ensures forall p :: p in r <==> p in paths && StartsWith(p, dir + "/")
    ensures forall p :: multiset(r)[p] == if StartsWith(p, dir + "/") then multiset(paths)[p] else 0
  {
    if paths == [] then []
    else
      assert paths == [paths[0]] + paths[1..];
      (if StartsWith(paths[0], dir + "/") then [paths[0]] else []) + UnderDir(dir, paths[1..])
  }

  /** Filtering keeps the order of the candidates: it distributes over concatenation. */
  lemma {:induction false} UnderDirAppend(dir: string, a: seq<string>, b: seq<string>)
    ensures UnderDir(dir, a + b) == UnderDir(dir, a) + UnderDir(dir, b)
  {
    if a == [] {
      assert a + b == b;
    } else {
      assert (a + b)[0] == a[0] && (a + b)[1..] == a[1..] + b;
      UnderDirAppend(dir, a[1..], b);
    }
  }

  /** The tests registered for one document: one per test file below its `DIR/`. */
  function PlanDoc(doc: Doc, paths: seq<string>, matchers: map<string, Matcher>, matches: GlobMatch, nodeMajor: nat)
    : (r: seq<Planned>)
    requires Covers(doc, matchers)
    ensures |r| == |UnderDir(doc.dir, paths)|
    ensures forall i :: 0 <= i < |r| ==>
              r[i].path == UnderDir(doc.dir, paths)[i]
              && Classify(doc, r[i].path, matchers, matches, nodeMajor) == Some(r[i])
  {
    var files := UnderDir(doc.dir, paths);
    seq(|files|, i requires 0 <= i < |files| => Classify(doc, files[i], matchers, matches, nodeMajor).value)
  }

  /** The whole run: the documents in order, each with its own tests. */
  function Plan(docs: seq<Doc>, paths: seq<string>, matchers: map<string, Matcher>, matches: GlobMatch, nodeMajor: nat)
    : (r: seq<Planned>)
    requires forall d :: d in docs ==> Covers(d, matchers)
    ensures forall q :: q in r ==> q.path in paths
    ensures forall q :: q in r ==> exists d :: d in docs && Classify(d, q.path, matchers, matches, nodeMajor) == Some(q)
    ensures forall d, p :: d in docs && p in paths && StartsWith(p, d.dir + "/")
              ==> Classify(d, p, matchers, matches, nodeMajor).value in r
  {
    if docs == [] then []
    else PlanDoc(docs[0], paths, matchers, matches, nodeMajor) + Plan(docs[1..], paths, matchers, matches, nodeMajor)
  }

  /**
   * The documents' tests follow one another in document order; a file covered
   * by several documents (two documents may share a `DIR`) is registered once
   * per document.
   */
  lemma {:induction false} PlanAppend(a: seq<Doc>, b: seq<Doc>, paths: seq<string>, matchers: map<string, Matcher>,
                                       matches: GlobMatch, nodeMajor: nat)
    requires forall d :: d in a + b ==> Covers(d, matchers)
    ensures Plan(a + b, paths, matchers, matches, nodeMajor)
            == Plan(a, paths, matchers, matches, nodeMajor) + Plan(b, paths, matchers, matches, nodeMajor)
  {
    if a == [] {
      assert a + b == b;
    } else {
      assert (a + b)[0] == a[0] && (a + b)[1..] == a[1..] + b;
      forall d | d in a[1..] + b ensures Covers(d, matchers) {
        assert d in a + b;
      }
      PlanAppend(a[1..], b, paths, matchers, matches, nodeMajor);
      var first := PlanDoc(a[0], paths, matchers, matches, nodeMajor);
      var left := Plan(a[1..], paths, matchers, matches, nodeMajor);
      var right := Plan(b, paths, matchers, matches, nodeMajor);
      assert Plan(a + b, paths, matchers, matches, nodeMajor) == first + (left + right);
      assert first + (left + right) == (first + left) + right;
    }
  }

  // ---------------------------------------------------------------------------
  // Properties of the decision.
  // ---------------------------------------------------------------------------

  /** A successful validation leaves a matcher in the cache for every pattern of every document. */
  lemma ValidatedCacheCovers(docs: seq<Doc>, paths: seq<string>, dirExists: string -> bool, matches: GlobMatch)
    requires Validate(docs, paths, dirExists, matches).Ok?
    ensures forall d :: d in docs ==> Covers(d, Validate(docs, paths, dirExists, matches).value)
  {
    var m := Validate(docs, paths, dirExists, matches).value;
    ValidateCache(docs, paths, dirExists, matches);
    forall d, p | d in docs && p in ExpectationsInDoc(d) ensures Key(d.dir, p) in m {
      var j :| 0 <= j < |ExpectationsInDoc(d)| && ExpectationsInDoc(d)[j] == p;
      assert d.expectations[j] in d.expectations;
    }
  }

  /**
   * With a cache as validation builds it, the pattern that decides a file is
   * the first one, in document order, whose glob accepts it.
   */
  lemma FirstMatchDecides(doc: Doc, path: string, m: map<string, Matcher>, matches: GlobMatch, nodeMajor: nat, j: nat)
    requires Covers(doc, m) && Coherent(m)
    requires StartsWith(path, doc.dir + "/")
    requires j < |doc.expectations| && doc.expectations[j].pattern != ""
    requires matches(Key(doc.dir, doc.expectations[j].pattern), path)
    requires forall k :: 0 <= k < j ==> !matches(Key(doc.dir, doc.expectations[k].pattern), path)
    ensures Classify(doc, path, m, matches, nodeMajor).value.disposition
              == Decide(FirstReason(doc.expectations[j].reasons), nodeMajor)
  {
    FirstMatchFound(doc, path, m, matches, j);
  }

  lemma FirstMatchFound(doc: Doc, path: string, m: map<string, Matcher>, matches: GlobMatch, j: nat)
    requires Covers(doc, m) && Coherent(m)
    requires j < |doc.expectations|
    requires matches(Key(doc.dir, doc.expectations[j].pattern), path)
    requires forall k :: 0 <= k < j ==> !matches(Key(doc.dir, doc.expectations[k].pattern), path)
    ensures FindFrom(doc.dir, ExpectationsInDoc(doc), 0, path, m, matches) == Some(j)
  {
    var ps := ExpectationsInDoc(doc);
    assert Hit(doc.dir, ps[j], path, m, matches);
    forall k | 0 <= k < j ensures !Hit(doc.dir, ps[k], path, m, matches) {
      assert m[Key(doc.dir, ps[k])] == Matcher(Key(doc.dir, ps[k]));
    }
  }

  /**
   * With a cache as validation builds it, a file whose first accepting pattern
   * is the empty one runs normally: `matchingPattern && ...` yields the falsy
   * pattern itself, which is no reason at all.
   */
  lemma EmptyPatternRuns(doc: Doc, path: string, m: map<string, Matcher>, matches: GlobMatch, nodeMajor: nat, j: nat)
    requires Covers(doc, m) && Coherent(m)
    requires StartsWith(path, doc.dir + "/")
    requires j < |doc.expectations| && doc.expectations[j].pattern == ""
    requires matches(Key(doc.dir, doc.expectations[j].pattern), path)
    requires forall k :: 0 <= k < j ==> !matches(Key(doc.dir, doc.expectations[k].pattern), path)
    ensures Classify(doc, path, m, matches, nodeMajor).value.disposition == Run
  {
    var found := FindFrom(doc.dir, ExpectationsInDoc(doc), 0, path, m, matches);
    assert found == Some(j) by {
      FirstMatchFound(doc, path, m, matches, j);
    }
    assert MatchedReason(doc, found) == Some("");
    EmptyReasonRuns(nodeMajor);
  }

  /** The empty string is no reason to skip or to expect failure. */
  lemma EmptyReasonRuns(nodeMajor: nat)
    ensures Decide(Some(""), nodeMajor) == Run
  {
  }

  /** With a cache as validation builds it, a file below `DIR/` that no pattern accepts runs normally. */
  lemma NoMatchRuns(doc: Doc, path: string, m: map<string, Matcher>, matches: GlobMatch, nodeMajor: nat)
    requires Covers(doc, m) && Coherent(m)
    requires StartsWith(path, doc.dir + "/")
    requires forall e :: e in doc.expectations ==> !matches(Key(doc.dir, e.pattern), path)
    ensures Classify(doc, path, m, matches, nodeMajor).value.disposition == Run
  {
    var ps := ExpectationsInDoc(doc);
    var found := FindFrom(doc.dir, ps, 0, path, m, matches);
    if found.Some? {
      assert false;
    }
  }

  /**
   * Only the `needs-nodeN` reasons make the decision depend on the Node
   * version, and upgrading Node never turns a normal run into an expected
   * failure.
   */
  lemma VersionDependence(reason: Option<string>, older: nat, newer: nat)
    requires older <= newer
    ensures Decide(reason, older) != Decide(reason, newer) ==> reason in NeedsNodeReasons
    ensures Decide(reason, older) == Run ==> Decide(reason, newer) == Run
    ensures Decide(reason, newer) == ExpectFail ==> Decide(reason, older) == ExpectFail
  {
  }

  /** A test expected to fail is reported with the `[expected fail]` label; a skipped one with its reason. */
  lemma TitleLabels(q: Planned)
    ensures q.ExpectsFailure() ==> q.Title() == "[expected fail] " + q.testFile
    ensures q.disposition.Skip? ==> q.Title() == "[" + q.disposition.reason + "] " + q.testFile
  {
  }
}
