# Web Platform Tests selection for dom-accessibility-api, in Dafny

This project models the test-selection logic that runs the accessible-name
tests of the Web Platform Tests suite against the library, plus the library's
`Array.from` polyfill, and proves properties of the model.

- **Expectations** (`tests/wpt-jsdom/run-wpts.js`, `checkToRun` and
  `expectationsInDoc`): the expectation documents of `to-run.yaml`, each a
  `DIR` followed by `pattern: [reason, ...]` entries, and their validation.
  `CheckToRun` is the imperative walk. It keeps `lastDir` and `lastPattern`
  and fills the matcher cache. It is proved equal to a functional reference,
  `Validate`. The lemmas about `Validate` state what a successful validation
  guarantees: slash rules, existing directories, non-decreasing `DIR`s, patterns
  non-decreasing within each document, valid reasons, every glob matching a
  file, and one cached matcher per `DIR/pattern`.
- **Classification** (the `describe` loop of the same file): which test files
  a document covers, the first pattern whose matcher accepts a file, and the
  decision table (skip, run expecting failure gated on the Node major version,
  or run normally), with the reported title.
- **Manifest** (`tests/wpt-jsdom/wpt-manifest-utils.js`): the version gate of
  `readManifest`, and the depth-first walk of `getPossibleTestFilePaths`. The
  walk is a `PathCollector` class whose `allPaths` field `AddTests` appends to
  in place. It is proved equal to the functional `Walk`. `Walk` is in turn
  proved equal to an independent definition: list every array with its key
  path, then read each array.
- **ArrayFrom** (`sources/polyfills/array.from.ts`): ToInteger and ToLength
  (sections 7.1.4 and 7.1.15 of ECMA-262 6th edition) and the array-like path of
  `Array.from` (section 22.1.2.1): the two TypeErrors, the RangeError of an
  array length above 2^32 - 1, and the copy/map loop
  into a fresh array.

Collaborators the code only calls are parameters. Glob matching (minimatch) is
`matches: (string, string) -> bool`. The directory-existence check is
`dirExists: string -> bool`. The Node major version is `nodeMajor: nat`.

Three behaviours of the harness are easy to miss, and the model keeps them:

- A matched reason outside the closed set runs the test normally; `Decide`
  states this. Validation already rejects such reasons.
- A test run expecting failure is titled `[expected fail] <file>`, without its
  reason.
- The reason is `matchingPattern && ...`, so a match on the empty pattern
  yields the empty string and the file runs normally (`MatchedReason`,
  `EmptyPatternRuns`).

## Model

| member | source | states |
|---|---|---|
| Expectations.ExpectationsInDoc | tests/wpt-jsdom/run-wpts.js:156-160 | the document's keys minus exactly the first (`DIR`), in order: one pattern per entry, in document order |
| Expectations.CheckToRun | tests/wpt-jsdom/run-wpts.js:97-154 | the imperative walk returns exactly what the reference `Validate` returns: the first broken rule in walk order, or the filled matcher cache |
| Expectations.CheckPatternsOkIff | tests/wpt-jsdom/run-wpts.js:122-152 | the pattern loop of one document succeeds iff the first pattern is not below the last one seen, every entry is valid, and the patterns are non-decreasing |
| Expectations.CheckDocsOkIff | tests/wpt-jsdom/run-wpts.js:99-153 | the document loop succeeds iff the first `DIR` is not below the last one seen and every document, with its neighbours, is well formed |
| Expectations.CheckPatternsCache | tests/wpt-jsdom/run-wpts.js:145-151 | a successful pattern loop adds exactly the document's `DIR/pattern` keys to the cache, each with the matcher built from that key |
| Expectations.CheckDocsCache | tests/wpt-jsdom/run-wpts.js:97-154 | a successful walk adds exactly every `DIR/pattern` key of the documents to the cache, each with its own matcher |
| Expectations.ValidateOkIff | tests/wpt-jsdom/run-wpts.js:97-154 | validation succeeds iff every `DIR` has no leading or trailing slash and exists, the `DIR`s are non-decreasing, and in each document the patterns are non-decreasing, start with no slash, have a valid first reason and match some test file |
| Expectations.ValidateCache | tests/wpt-jsdom/run-wpts.js:145-151 | after success the cache holds exactly one entry per `DIR + "/" + pattern`, built from that key |
| Expectations.SlashedDirRejected | tests/wpt-jsdom/run-wpts.js:100-109 | any `DIR` starting or ending with `/` makes validation fail |
| Expectations.MissingDirRejected | tests/wpt-jsdom/run-wpts.js:111-113 | any `DIR` whose directory does not exist makes validation fail |
| Expectations.ValidatedDirsOrdered | tests/wpt-jsdom/run-wpts.js:115-120 | after success no later `DIR` is below an earlier one (all pairs, equal ones allowed) |
| Expectations.ValidatedPatternsOrdered | tests/wpt-jsdom/run-wpts.js:122-138 | after success, within each document no later pattern is below an earlier one; the order restarts per document |
| Expectations.ValidatedEntries | tests/wpt-jsdom/run-wpts.js:124-150 | after success every pattern's first reason is one of the eight, no pattern starts with `/`, and every `DIR/pattern` glob matches some test file |
| Text.NotLessTransitive | tests/wpt-jsdom/run-wpts.js:115 | "not below" under JavaScript string `<` is transitive, so checking neighbours orders all pairs |
| Classification.Planned.Title | tests/wpt-jsdom/run-wpts.js:80-90 | every reported title ends with the file name, and it is the bare file name exactly when the test runs normally; otherwise it starts with a `[` label |
| Classification.FindFrom | tests/wpt-jsdom/run-wpts.js:59-64 | `find` yields the first pattern in document order whose cached matcher accepts the path, or nothing when none does |
| Classification.MatchedReason | tests/wpt-jsdom/run-wpts.js:67 | no match gives no reason; a match on the empty pattern gives the empty string; a match on any other pattern gives that pattern's first reason |
| Classification.Decide | tests/wpt-jsdom/run-wpts.js:24-90 | the decision table: no reason and unknown reasons run; `fail-slow`, `timeout`, `flaky` and `mutates-globals` skip; `fail` expects failure; `needs-nodeN` (the `hasNodeN` gate) expects failure iff the major version is below N, else runs |
| Classification.Classify | tests/wpt-jsdom/run-wpts.js:58-66 | a path is classified iff it starts with `DIR + "/"`; its displayed name is the path with that prefix removed |
| Classification.UnderDir | tests/wpt-jsdom/run-wpts.js:57-58 | the files a document covers are exactly the candidate paths starting with `DIR + "/"`, each as many times as it occurs among the candidates |
| Classification.UnderDirAppend | tests/wpt-jsdom/run-wpts.js:57-58 | the covered files keep the candidates' order: selecting from a concatenation concatenates the selections |
| Classification.PlanDoc | tests/wpt-jsdom/run-wpts.js:56-92 | one registered test per covered file, in candidate order, each classified by `Classify` |
| Classification.Plan | tests/wpt-jsdom/run-wpts.js:54-95 | every registered test is a candidate file classified by `Classify` under some document; and every candidate file below some document's `DIR/` is registered with that document's classification |
| Classification.PlanAppend | tests/wpt-jsdom/run-wpts.js:54-95 | the registered tests are those of each document in document order, so a file covered by two documents with the same `DIR` is registered twice |
| Classification.ValidatedCacheCovers | tests/wpt-jsdom/run-wpts.js:59-63 | after successful validation the cache has a matcher for every pattern of every document, so every lookup succeeds |
| Classification.FirstMatchFound | tests/wpt-jsdom/run-wpts.js:59-64 | with a validated cache, the pattern found is the first one whose `DIR/pattern` glob accepts the path |
| Classification.FirstMatchDecides | tests/wpt-jsdom/run-wpts.js:59-90 | with a validated cache, a file's fate is decided by the first reason of the first pattern that accepts it |
| Classification.EmptyPatternRuns | tests/wpt-jsdom/run-wpts.js:59-90 | with a validated cache, a file whose first accepting pattern is the empty one runs normally |
| Classification.NoMatchRuns | tests/wpt-jsdom/run-wpts.js:59-90 | with a validated cache, a file no pattern accepts runs normally |
| Classification.VersionDependence | tests/wpt-jsdom/run-wpts.js:68-78 | only a `needs-nodeN` reason makes the decision differ between two Node versions, and a newer version never turns a normal run into an expected failure |
| Classification.TitleLabels | tests/wpt-jsdom/run-wpts.js:80-90 | a skipped test is titled `[reason] file` and an expected failure `[expected fail] file` |
| Manifest.ReadManifest | tests/wpt-jsdom/wpt-manifest-utils.js:38-42 | a manifest is accepted iff its version is 8; otherwise the error names 8 and the version seen |
| Manifest.JoinPath | tests/wpt-jsdom/wpt-manifest-utils.js:14-24 | below the root a key path is the parent path, a `/`, then the key; at the root it is the key alone |
| Manifest.EntryPath | tests/wpt-jsdom/wpt-manifest-utils.js:17 | an entry stands for its own path, or for the key path when its path is `null` |
| Manifest.PathCollector.constructor | tests/wpt-jsdom/wpt-manifest-utils.js:10 | the accumulator starts empty |
| Manifest.PathCollector.AddTests | tests/wpt-jsdom/wpt-manifest-utils.js:11-28 | `addTests` appends to `allPaths` exactly the walk of the subtree below the given key path |
| Manifest.PathCollector.AddLeaf | tests/wpt-jsdom/wpt-manifest-utils.js:13-22 | the array branch appends the kept paths of every entry but the first |
| Manifest.GetPossibleTestFilePaths | tests/wpt-jsdom/wpt-manifest-utils.js:6-32 | returns exactly the walk of the manual items from the empty path: a pure function of the manifest |
| Manifest.KeptPathsMembers | tests/wpt-jsdom/wpt-manifest-utils.js:16-22 | a run of entries yields exactly the "accname" paths among their own paths, plus the key path when some entry is `null` |
| Manifest.KeptPathsBound | tests/wpt-jsdom/wpt-manifest-utils.js:16-22 | a run of entries yields at most one path per entry |
| Manifest.FirstEntryIgnored | tests/wpt-jsdom/wpt-manifest-utils.js:16 | the first entry of an array never contributes: replacing it changes nothing, and n entries yield at most n - 1 paths |
| Manifest.LeafPathsMembers | tests/wpt-jsdom/wpt-manifest-utils.js:14-22 | an array yields a path iff it starts with "accname" and it is the path of a non-first entry, or the key path when such an entry's path is `null` |
| Manifest.WalkFromKept | tests/wpt-jsdom/wpt-manifest-utils.js:11-28 | every path the walk of any subtree yields starts with "accname" |
| Manifest.PossiblePathsKept | tests/wpt-jsdom/wpt-manifest-utils.js:19-21 | every returned path starts with "accname" |
| Manifest.WalkFromIsCollect | tests/wpt-jsdom/wpt-manifest-utils.js:11-28 | the walk equals the paths of every array in depth-first key order, each `null` path replaced by the keys leading to that array folded with `JoinPath` |
| Manifest.PossiblePathsByLeaves | tests/wpt-jsdom/wpt-manifest-utils.js:6-32 | the returned paths are those of the arrays of the manual items in depth-first key order, read one by one |
| ArrayFrom.ToInteger | sources/polyfills/array.from.ts:9-18 | NaN gives 0, infinities pass through, and a finite number gives the integer of the same sign nearest zero within distance 1 (truncation) |
| ArrayFrom.ToLength | sources/polyfills/array.from.ts:19-23 | the result lies in [0, 2^53 - 1]; non-positive values and negative infinity give 0, positive infinity gives 2^53 - 1, values in range truncate |
| ArrayFrom.ArrayFrom | sources/polyfills/array.from.ts:35-93 | `null`/`undefined` raises a TypeError, then a supplied non-callable `mapFn` does, then a length above 2^32 - 1 raises the RangeError of `new Array(len)`; otherwise a fresh array of length ToLength(length) holding `items[k]`, or `mapFn(items[k], k)`, at every index k |
| ArrayFrom.ToIntegerOnIntegers | sources/polyfills/array.from.ts:9-18 | ToInteger leaves integers unchanged |

## Left out

- Reading files, `JSON.parse` and the YAML `loadAll`: the model takes already-parsed manifests and documents.
- minimatch glob semantics, `fs.existsSync` and the parsing of `process.versions.node`: they are the parameters `matches`, `dirExists` and `nodeMajor`.
- Mocha's `describe`/`specify`/`before`/`after`, starting and killing the fixture server, and `runSingleWPT`: the model stops at the decision each test receives (skip with its title, or run with the expected-failure flag). Inverting the assertion for expected failures happens in the runner and is not modelled.
- JavaScript object key order: `Object.keys` puts integer-like keys first. The model takes the document order with `DIR` first, and reads each pattern's reasons by position; that matches `doc[pattern]` because YAML mapping keys are unique.
- Malformed documents: a missing or non-string `DIR` raises a runtime TypeError in the harness; a reason value that is not a list is not representable here. Of those, `null` (an empty YAML entry) raises a TypeError, and a string or a number is rejected as a bad reason, because its `[0]` is a character or `undefined`. An empty list is modelled: its first reason is missing and it is rejected the same way.
- String order: JavaScript compares UTF-16 code units. The model compares characters, which differs only for characters outside the Basic Multilingual Plane.
- Malformed manifests: a missing `items.manual`, array entries that are not arrays, or non-string paths. The version is an integer, so a non-number version (the string `"8"`, or a missing field reported as "got undefined") is not modelled; the source refuses it by the same `!==` test.
- Floating point in the polyfill: `Number()` coercion, rounding and negative zero. Numbers are NaN, a signed infinity, or an exact real.
- The iterator path of `Array.from` (steps 6-9 of section 22.1.2.1), `thisArg`, the `typeof`/`toString` reflection of `isCallable` (a callability tag here), `Object()` boxing and the `IsConstructor(C)` branch.
- ArrayFrom.ArrayFrom: does not state that `mapFn` is called for k = 0, 1, ... in increasing order. The mapping function is a pure function here, so the order of calls cannot be observed. The final `A.length = len` is a no-op, since the array is created with that length.
