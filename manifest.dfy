/**
 * The test manifest (tests/wpt-jsdom/wpt-manifest-utils.js): its version gate
 * and the depth-first walk that lists the candidate test file paths.
 *
 * Reading and parsing the JSON file are not modelled; a manifest arrives
 * already parsed. A node of `items.manual` is either an object (its keys in
 * order) or an array whose entries each begin with a path or `null`.
 */
module Manifest {
  import opened Wrappers
  import opened Text

  const ExpectedManifestVersion: int := 8

  datatype Node =
    | Branch(children: seq<(string, Node)>)
    | Leaf(entries: seq<Option<string>>)

  datatype Manifest = Manifest(version: int, manual: seq<(string, Node)>)

  datatype ManifestError = FormatMismatch(expected: int, got: int)

  /** The version gate of `readManifest`: any version other than 8 is refused, naming both versions. */
  function ReadManifest(m: Manifest): (r: Result<Manifest, ManifestError>)
    ensures r.Ok? <==> m.version == 8
    ensures r.Ok? ==> r.value == m
    ensures r.Err? ==> r.error.expected == 8 && r.error.got == m.version
  {
    if m.version != ExpectedManifestVersion then Err(FormatMismatch(ExpectedManifestVersion, m.version))
    else Ok(m)
  }

  /** Extends a key path by one key; a key at the root has no leading slash. */
  function JoinPath(path: string, key: string): (p: string)
    ensures path == "" ==> p == key
    ensures path != "" ==> StartsWith(p, path + "/") && EndsWith(p, key) && |p| == |path| + 1 + |key|
  {
    if path == "" then key
    else
      var p := path + "/" + key;
      assert p[..|path| + 1] == path + "/" && p[|p| - |key|..] == key;
      p
  }

  /** The path an entry stands for: its own path, or the key path when that is `null`. */
  function EntryPath(entry: Option<string>, fallback: string): (p: string)
    ensures entry == Some(p) || (entry == None && p == fallback)
  {
    match entry
    case Some(p) => p
    case None => fallback
  }

  predicate Kept(path: string) {
    StartsWith(path, "accname")
  }

  /** The kept paths of a run of entries, in order. */
  function KeptPaths(entries: seq<Option<string>>, fallback: string): seq<string> {
    if entries == [] then []
    else
      var p := EntryPath(entries[0], fallback);
      (if Kept(p) then [p] else []) + KeptPaths(entries[1..], fallback)
  }

  /** The paths an array contributes: every entry but the first. */
  function LeafPaths(entries: seq<Option<string>>, fallback: string): seq<string> {
    if entries == [] then [] else KeptPaths(entries[1..], fallback)
  }

  /** The paths `addTests(children, path)` pushes, from the key at position `from` on. */
  function WalkFrom(children: seq<(string, Node)>, path: string, from: nat): seq<string>
    requires from <= |children|
    decreases Branch(children), |children| - from, 1
  {
    if from == |children| then []
    else ChildPaths(children, path, from) + WalkFrom(children, path, from + 1)
  }

  /** The paths pushed for the key at position `from`: an array's own, or a recursive walk one segment down. */
  function ChildPaths(children: seq<(string, Node)>, path: string, from: nat): seq<string>
    requires from < |children|
    decreases Branch(children), |children| - from, 0
  {
    var sub := JoinPath(path, children[from].0);
    assert children[from] in children;
    match children[from].1
    case Leaf(entries) => LeafPaths(entries, sub)
    case Branch(grandchildren) => WalkFrom(grandchildren, sub, 0)
  }

  function Walk(children: seq<(string, Node)>, path: string): seq<string> {
    WalkFrom(children, path, 0)
  }

  /** The accumulator of the walk, which `addTests` pushes into in place. */
  class PathCollector {
    var allPaths: seq<string>

    constructor ()
      ensures allPaths == []
    {
      allPaths := [];
    }

    /** `addTests(test, path)`: appends the walk of `test` below `path`. */
    method AddTests(test: seq<(string, Node)>, path: string)
      modifies this
      ensures allPaths == old(allPaths) + Walk(test, path)
      decreases Branch(test)
    {
      var i := 0;
      while i < |test|
        invariant 0 <= i <= |test|
        invariant old(allPaths) + Walk(test, path) == allPaths + WalkFrom(test, path, i)
      {
        var key := test[i].0;
        assert test[i] in test;
        match test[i].1 {
          case Leaf(entries) =>
            var fallbackPath := JoinPath(path, key);
            assert ChildPaths(test, path, i) == LeafPaths(entries, fallbackPath);
            AddLeaf(entries, fallbackPath);
          case Branch(grandchildren) =>
            var curPath := JoinPath(path, key);
            assert ChildPaths(test, path, i) == Walk(grandchildren, curPath);
            AddTests(grandchildren, curPath);
        }
        i := i + 1;
      }
    }

    /** The array branch of `addTests`: pushes the kept path of every entry but the first. */
    method AddLeaf(entries: seq<Option<string>>, fallbackPath: string)
      modifies this
      ensures allPaths == old(allPaths) + LeafPaths(entries, fallbackPath)
    {
      if entries == [] {
        return;
      }
      ghost var target := old(allPaths) + LeafPaths(entries, fallbackPath);
      var j := 1;
      while j < |entries|
        invariant 1 <= j <= |entries|
        invariant target == allPaths + KeptPaths(entries[j..], fallbackPath)
      {
        var testPath := EntryPath(entries[j], fallbackPath);
        ghost var rest := KeptPaths(entries[j + 1..], fallbackPath);
        assert entries[j..][0] == entries[j] && entries[j..][1..] == entries[j + 1..];
        assert KeptPaths(entries[j..], fallbackPath) == (if Kept(testPath) then [testPath] else []) + rest;
        if StartsWith(testPath, "accname") {
          assert allPaths + ([testPath] + rest) == (allPaths + [testPath]) + rest;
          allPaths := allPaths + [testPath];
        } else {
          assert [] + rest == rest;
        }
        j := j + 1;
      }
      assert entries[j..] == [];
    }
  }

  /** `getPossibleTestFilePaths`: the candidate test files of the manifest, in walk order. */
  function PossibleTestFilePaths(m: Manifest): seq<string> {
    Walk(m.manual, "")
  }

  method GetPossibleTestFilePaths(m: Manifest) returns (paths: seq<string>)
    ensures paths == PossibleTestFilePaths(m)
  {
    var collector := new PathCollector();
    collector.AddTests(m.manual, "");
    paths := collector.allPaths;
  }

  // ---------------------------------------------------------------------------
  // Properties of the walk.
  // ---------------------------------------------------------------------------

  /** Which paths a run of entries yields: exactly the kept ones among their own paths and the fallback. */
  lemma {:induction false} KeptPathsMembers(entries: seq<Option<string>>, fallback: string, p: string)
    ensures p in KeptPaths(entries, fallback)
        <==> Kept(p) && (Some(p) in entries || (None in entries && p == fallback))
  {
    if entries != [] {
      KeptPathsMembers(entries[1..], fallback, p);
      assert entries == [entries[0]] + entries[1..];
    }
  }

  lemma {:induction false} KeptPathsBound(entries: seq<Option<string>>, fallback: string)
    ensures |KeptPaths(entries, fallback)| <= |entries|
  {
    if entries != [] {
      KeptPathsBound(entries[1..], fallback);
    }
  }

  /**
   * The first entry of an array never contributes: replacing it changes
   * nothing, and an array of n entries yields at most n - 1 paths.
   */
  lemma FirstEntryIgnored(entries: seq<Option<string>>, other: Option<string>, fallback: string)
    requires entries != []
    ensures LeafPaths(entries, fallback) == LeafPaths([other] + entries[1..], fallback)
    ensures |LeafPaths(entries, fallback)| <= |entries| - 1
  {
    assert ([other] + entries[1..])[1..] == entries[1..];
    KeptPathsBound(entries[1..], fallback);
  }

  /** Which paths an array yields: its non-first entries' paths, `null` ones replaced by the key path. */
  lemma LeafPathsMembers(entries: seq<Option<string>>, fallback: string, p: string)
    requires entries != []
    ensures p in LeafPaths(entries, fallback)
        <==> Kept(p) && (Some(p) in entries[1..] || (None in entries[1..] && p == fallback))
  {
    KeptPathsMembers(entries[1..], fallback, p);
  }

  /** Every path the walk yields starts with "accname". */
  lemma {:induction false} WalkFromKept(children: seq<(string, Node)>, path: string, from: nat)
    requires from <= |children|
    ensures forall p :: p in WalkFrom(children, path, from) ==> Kept(p)
    decreases Branch(children), |children| - from
  {
    if from < |children| {
      var sub := JoinPath(path, children[from].0);
      assert children[from] in children;
      match children[from].1 {
        case Leaf(entries) =>
          forall p | p in LeafPaths(entries, sub) ensures Kept(p) {
            LeafPathsMembers(entries, sub, p);
          }
        case Branch(grandchildren) =>
          WalkFromKept(grandchildren, sub, 0);
      }
      WalkFromKept(children, path, from + 1);
    }
  }

  lemma PossiblePathsKept(m: Manifest)
    ensures forall p :: p in PossibleTestFilePaths(m) ==> StartsWith(p, "accname")
  {
    WalkFromKept(m.manual, "", 0);
  }

  // ---------------------------------------------------------------------------
  // A reference definition: list the arrays with their key paths in depth-first
  // key order, then read each array on its own.
  // ---------------------------------------------------------------------------

  /** The keys joined with "/", as the walk builds them one segment at a time. */
  function KeyPath(keys: seq<string>): string {
    if keys == [] then "" else JoinPath(KeyPath(keys[..|keys| - 1]), keys[|keys| - 1])
  }

  /** Every array below `children`, with the keys that lead to it, in depth-first key order. */
  function LeavesFrom(children: seq<(string, Node)>, keys: seq<string>, from: nat)
    : seq<(seq<string>, seq<Option<string>>)>
    requires from <= |children|
    decreases Branch(children), |children| - from
  {
    if from == |children| then []
    else
      var sub := keys + [children[from].0];
      assert children[from] in children;
      (match children[from].1
       case Leaf(entries) => [(sub, entries)]
       case Branch(grandchildren) => LeavesFrom(grandchildren, sub, 0))
      + LeavesFrom(children, keys, from + 1)
  }

  function Collect(leaves: seq<(seq<string>, seq<Option<string>>)>): seq<string> {
    if leaves == [] then [] else LeafPaths(leaves[0].1, KeyPath(leaves[0].0)) + Collect(leaves[1..])
  }

  lemma {:induction false} CollectAppend(a: seq<(seq<string>, seq<Option<string>>)>, b: seq<(seq<string>, seq<Option<string>>)>)
    ensures Collect(a + b) == Collect(a) + Collect(b)
  {
    if a != [] {
      assert (a + b)[1..] == a[1..] + b;
      CollectAppend(a[1..], b);
    } else {
      assert a + b == b;
    }
  }

  /**
   * The walk yields, in depth-first key order, the paths of every array, each
   * `null` path replaced by the "/"-joined keys leading to that array.
   */
  lemma {:induction false} WalkFromIsCollect(children: seq<(string, Node)>, keys: seq<string>, from: nat)
    requires from <= |children|
    ensures WalkFrom(children, KeyPath(keys), from) == Collect(LeavesFrom(children, keys, from))
    decreases Branch(children), |children| - from
  {
    if from < |children| {
      var sub := keys + [children[from].0];
      assert sub[..|sub| - 1] == keys;
      assert KeyPath(sub) == JoinPath(KeyPath(keys), children[from].0);
      assert children[from] in children;
      WalkFromIsCollect(children, keys, from + 1);
      match children[from].1
      case Leaf(entries) =>
        CollectAppend([(sub, entries)], LeavesFrom(children, keys, from + 1));
      case Branch(grandchildren) =>
        WalkFromIsCollect(grandchildren, sub, 0);
        CollectAppend(LeavesFrom(grandchildren, sub, 0), LeavesFrom(children, keys, from + 1));
    }
  }

  lemma PossiblePathsByLeaves(m: Manifest)
    ensures PossibleTestFilePaths(m) == Collect(LeavesFrom(m.manual, [], 0))
  {
    WalkFromIsCollect(m.manual, [], 0);
  }
}
