/**
 Validating a worker's output tree: the manifest check, the source snapshots,
 the copy of the declared tree and the validation of the prepared copy, ending
 in one reference per declared artifact.

 A path is its list of components, already parsed. A file's content is its size,
 its digest and the object a strict JSON parse gives, if it gives one.
 */
module ArtifactTrees {
  import opened Wrappers

  type Path = seq<string>

  datatype Scalar = Text(text: string) | Number(number: int)

  datatype Content = Content(size: nat, digest: string, json: Option<map<string, Scalar>>)

  datatype Node = File(content: Content) | Dir(entries: seq<Entry>) | Symlink | Special

  /** A directory entry with the identity its status shows. */
  datatype Entry = Entry(name: string, stamp: nat, node: Node)

  datatype WorkerArtifact = WorkerArtifact(role: string, path: Path, digest: string, size: int, media: string)

  datatype Expected = Expected(role: string, path: Path, media: string, objectRequired: bool, values: seq<Required>)

  datatype Required = Required(key: string, value: Scalar)

  datatype Ref = Ref(role: string, path: Path, digest: string, size: nat, media: string)

  // ----------------------------------------------------------- manifests

  predicate TextOk(s: string) {
    s != "" && forall i :: 0 <= i < |s| ==> ' ' <= s[i] && s[i] as int != 127
  }

  predicate ComponentOk(s: string) {
    s != "" && s != "." && s != ".." && '/' !in s && '\\' !in s
  }

  predicate PathOk(p: Path) {
    p != [] && forall i :: 0 <= i < |p| ==> ComponentOk(p[i])
  }

  predicate HexDigit(c: char) {
    '0' <= c <= '9' || 'a' <= c <= 'f'
  }

  predicate DigestOk(s: string) {
    |s| == 64 && forall i :: 0 <= i < |s| ==> HexDigit(s[i])
  }

  predicate WorkerOk(a: WorkerArtifact) {
    TextOk(a.role) && PathOk(a.path) && TextOk(a.media) && a.size >= 0 && DigestOk(a.digest)
  }

  predicate ExpectedOk(e: Expected) {
    && TextOk(e.role) && PathOk(e.path) && TextOk(e.media)
    && (forall i :: 0 <= i < |e.values| ==> e.values[i].key != "")
    && (forall i, j :: 0 <= i < j < |e.values| ==> e.values[i].key != e.values[j].key)
    && (e.values != [] ==> e.objectRequired)
  }

  datatype Descriptor = Descriptor(role: string, path: Path, media: string)

  /** No two artifacts share a role or a path. */
  predicate WorkersDistinct(artifacts: seq<WorkerArtifact>) {
    forall i, j :: 0 <= i < j < |artifacts| ==> artifacts[i].role != artifacts[j].role && artifacts[i].path != artifacts[j].path
  }

  predicate ExpectedDistinct(expected: seq<Expected>) {
    forall i, j :: 0 <= i < j < |expected| ==> expected[i].role != expected[j].role && expected[i].path != expected[j].path
  }

  function WorkerDescriptors(artifacts: seq<WorkerArtifact>): set<Descriptor> {
    set a | a in artifacts :: Descriptor(a.role, a.path, a.media)
  }

  function ExpectedDescriptors(expected: seq<Expected>): set<Descriptor> {
    set e | e in expected :: Descriptor(e.role, e.path, e.media)
  }

  ghost predicate ManifestsAgree(artifacts: seq<WorkerArtifact>, expected: seq<Expected>) {
    && WorkersOk(artifacts) && AllExpectedOk(expected)
    && WorkerDescriptors(artifacts) == ExpectedDescriptors(expected)
  }

  datatype Manifest = Manifest(workers: map<Path, WorkerArtifact>, expected: map<Path, Expected>, directories: set<Path>)

  /** A directory is allowed exactly when some declared path lies under it. */
  predicate ParentOf(d: Path, p: Path) {
    0 < |d| < |p| && d == p[..|d|]
  }

  ghost predicate IndexesWorkers(index: map<Path, WorkerArtifact>, artifacts: seq<WorkerArtifact>) {
    && (forall a :: a in artifacts ==> a.path in index && index[a.path] == a)
    && (forall p :: p in index ==> index[p] in artifacts && index[p].path == p)
  }

  ghost predicate IndexesExpected(index: map<Path, Expected>, expected: seq<Expected>) {
    && (forall e :: e in expected ==> e.path in index && index[e.path] == e)
    && (forall p :: p in index ==> index[p] in expected && index[p].path == p)
  }

  /** The manifest of agreeing declarations, by path. */
  ghost predicate ManifestOf(m: Manifest, artifacts: seq<WorkerArtifact>, expected: seq<Expected>) {
    && IndexesWorkers(m.workers, artifacts) && IndexesExpected(m.expected, expected)
    && (forall d :: d in m.directories <==> exists p :: p in m.workers && ParentOf(d, p))
  }

  ghost predicate WorkersOk(artifacts: seq<WorkerArtifact>) {
    (forall i :: 0 <= i < |artifacts| ==> WorkerOk(artifacts[i])) && WorkersDistinct(artifacts)
  }

  ghost predicate AllExpectedOk(expected: seq<Expected>) {
    (forall i :: 0 <= i < |expected| ==> ExpectedOk(expected[i])) && ExpectedDistinct(expected)
  }

  /** One more declaration: acceptable exactly when it is well formed and its role and path are new. */
  lemma OneMoreWorker(artifacts: seq<WorkerArtifact>, a: WorkerArtifact, index: map<Path, WorkerArtifact>)
    requires WorkersOk(artifacts) && IndexesWorkers(index, artifacts)
    ensures WorkersOk(artifacts + [a]) <==>
              WorkerOk(a) && a.path !in index && a.role !in (set b | b in artifacts :: b.role)
  {
    var more := artifacts + [a];
    assert forall i :: 0 <= i < |artifacts| ==> more[i] == artifacts[i];
    assert more[|artifacts|] == a;
    if WorkersOk(more) {
      assert WorkerOk(more[|artifacts|]);
      forall b | b in artifacts ensures b.path != a.path && b.role != a.role {
        var i :| 0 <= i < |artifacts| && artifacts[i] == b;
        assert more[i] == b;
      }
    }
  }

  lemma OneMoreExpected(expected: seq<Expected>, e: Expected, index: map<Path, Expected>)
    requires AllExpectedOk(expected) && IndexesExpected(index, expected)
    ensures AllExpectedOk(expected + [e]) <==>
              ExpectedOk(e) && e.path !in index && e.role !in (set b | b in expected :: b.role)
  {
    var more := expected + [e];
    assert forall i :: 0 <= i < |expected| ==> more[i] == expected[i];
    assert more[|expected|] == e;
    if AllExpectedOk(more) {
      assert ExpectedOk(more[|expected|]);
      forall b | b in expected ensures b.path != e.path && b.role != e.role {
        var i :| 0 <= i < |expected| && expected[i] == b;
        assert more[i] == b;
      }
    }
  }

  lemma IndexOneMoreWorker(artifacts: seq<WorkerArtifact>, a: WorkerArtifact, index: map<Path, WorkerArtifact>)
    requires IndexesWorkers(index, artifacts)
    ensures WorkerDescriptors(artifacts + [a]) == WorkerDescriptors(artifacts) + {Descriptor(a.role, a.path, a.media)}
    ensures (set b | b in artifacts + [a] :: b.role) == (set b | b in artifacts :: b.role) + {a.role}
    ensures a.path !in index ==> IndexesWorkers(index[a.path := a], artifacts + [a])
  {
    assert forall i :: 0 <= i < |artifacts| ==> (artifacts + [a])[i] == artifacts[i];
  }

  lemma IndexOneMoreExpected(expected: seq<Expected>, e: Expected, index: map<Path, Expected>)
    requires IndexesExpected(index, expected)
    ensures ExpectedDescriptors(expected + [e]) == ExpectedDescriptors(expected) + {Descriptor(e.role, e.path, e.media)}
    ensures (set b | b in expected + [e] :: b.role) == (set b | b in expected :: b.role) + {e.role}
    ensures e.path !in index ==> IndexesExpected(index[e.path := e], expected + [e])
  {
    assert forall i :: 0 <= i < |expected| ==> (expected + [e])[i] == expected[i];
  }

  /** A list with an unacceptable beginning is unacceptable. */
  lemma WorkersOkPrefix(artifacts: seq<WorkerArtifact>, n: nat)
    requires n <= |artifacts| && WorkersOk(artifacts)
    ensures WorkersOk(artifacts[..n])
  {
  }

  lemma ExpectedOkPrefix(expected: seq<Expected>, n: nat)
    requires n <= |expected| && AllExpectedOk(expected)
    ensures AllExpectedOk(expected[..n])
  {
  }

  /** The first loop: every worker declaration checked, and indexed by path. */
  method IndexWorkers(artifacts: seq<WorkerArtifact>) returns (index: Option<map<Path, WorkerArtifact>>, descriptors: set<Descriptor>)
    ensures index.Some? <==> WorkersOk(artifacts)
    ensures index.Some? ==> IndexesWorkers(index.value, artifacts) && descriptors == WorkerDescriptors(artifacts)
  {
    var roles: set<string>, paths: map<Path, WorkerArtifact> := {}, map[];
    descriptors := {};
    for n := 0 to |artifacts|
      invariant WorkersOk(artifacts[..n]) && IndexesWorkers(paths, artifacts[..n])
      invariant roles == set b | b in artifacts[..n] :: b.role
      invariant descriptors == WorkerDescriptors(artifacts[..n])
    {
      var a := artifacts[n];
      assert artifacts[..n + 1] == artifacts[..n] + [a];
      OneMoreWorker(artifacts[..n], a, paths);
      IndexOneMoreWorker(artifacts[..n], a, paths);
      if !WorkerOk(a) || a.role in roles || a.path in paths {
        if WorkersOk(artifacts) {
          WorkersOkPrefix(artifacts, n + 1);
        }
        return None, descriptors;
      }
      roles := roles + {a.role};
      paths := paths[a.path := a];
      descriptors := descriptors + {Descriptor(a.role, a.path, a.media)};
    }
    assert artifacts[..|artifacts|] == artifacts;
    index := Some(paths);
  }

  /** The second loop, over what the caller expects. */
  method IndexExpected(expected: seq<Expected>) returns (index: Option<map<Path, Expected>>, descriptors: set<Descriptor>)
    ensures index.Some? <==> AllExpectedOk(expected)
    ensures index.Some? ==> IndexesExpected(index.value, expected) && descriptors == ExpectedDescriptors(expected)
  {
    var roles: set<string>, paths: map<Path, Expected> := {}, map[];
    descriptors := {};
    for n := 0 to |expected|
      invariant AllExpectedOk(expected[..n]) && IndexesExpected(paths, expected[..n])
      invariant roles == set b | b in expected[..n] :: b.role
      invariant descriptors == ExpectedDescriptors(expected[..n])
    {
      var e := expected[n];
      assert expected[..n + 1] == expected[..n] + [e];
      OneMoreExpected(expected[..n], e, paths);
      IndexOneMoreExpected(expected[..n], e, paths);
      if !ExpectedOk(e) || e.role in roles || e.path in paths {
        if AllExpectedOk(expected) {
          ExpectedOkPrefix(expected, n + 1);
        }
        return None, descriptors;
      }
      roles := roles + {e.role};
      paths := paths[e.path := e];
      descriptors := descriptors + {Descriptor(e.role, e.path, e.media)};
    }
    assert expected[..|expected|] == expected;
    index := Some(paths);
  }

  /** The proper parents of one path, collected upwards. */
  method Parents(path: Path) returns (parents: set<Path>)
    ensures forall d :: d in parents <==> ParentOf(d, path)
  {
    parents := {};
    var k := |path| - 1;
    while k > 0
      invariant k <= |path| - 1
      invariant forall d :: d in parents <==> ParentOf(d, path) && |d| > k
    {
      parents := parents + {path[..k]};
      assert |path[..k]| == k;
      k := k - 1;
    }
  }

  /** All proper parents of the declared paths. */
  method ParentDirectories(artifacts: seq<WorkerArtifact>) returns (directories: set<Path>)
    ensures forall d :: d in directories <==> exists i :: 0 <= i < |artifacts| && ParentOf(d, artifacts[i].path)
  {
    directories := {};
    for n := 0 to |artifacts|
      invariant forall d :: d in directories <==> exists i :: 0 <= i < n && ParentOf(d, artifacts[i].path)
    {
      var parents := Parents(artifacts[n].path);
      directories := directories + parents;
    }
  }

  method ValidateManifests(artifacts: seq<WorkerArtifact>, expected: seq<Expected>) returns (manifest: Option<Manifest>)
    ensures manifest.Some? <==> ManifestsAgree(artifacts, expected)
    ensures manifest.Some? ==> ManifestOf(manifest.value, artifacts, expected)
  {
    var workers, declared := IndexWorkers(artifacts);
    if workers.None? {
      return None;
    }
    var expectations, wanted := IndexExpected(expected);
    if expectations.None? {
      return None;
    }
    if declared != wanted {
      return None;
    }
    var directories := ParentDirectories(artifacts);
    forall d ensures d in directories <==> exists p :: p in workers.value && ParentOf(d, p) {
      if d in directories {
        var i :| 0 <= i < |artifacts| && ParentOf(d, artifacts[i].path);
        assert artifacts[i] in artifacts;
      }
    }
    manifest := Some(Manifest(workers.value, expectations.value, directories));
  }

  /** Agreeing manifests declare the same paths, with the same role and media type. */
  lemma DeclaredIsExpected(m: Manifest, artifacts: seq<WorkerArtifact>, expected: seq<Expected>)
    requires ManifestsAgree(artifacts, expected) && ManifestOf(m, artifacts, expected)
    ensures m.workers.Keys == m.expected.Keys
    ensures forall p :: p in m.workers ==> m.workers[p].role == m.expected[p].role && m.workers[p].media == m.expected[p].media
  {
    forall p | p in m.workers
      ensures p in m.expected && m.workers[p].role == m.expected[p].role && m.workers[p].media == m.expected[p].media
    {
      var a := m.workers[p];
      assert Descriptor(a.role, a.path, a.media) in WorkerDescriptors(artifacts);
      assert Descriptor(a.role, a.path, a.media) in ExpectedDescriptors(expected);
    }
    forall p | p in m.expected ensures p in m.workers {
      var e := m.expected[p];
      assert Descriptor(e.role, e.path, e.media) in ExpectedDescriptors(expected);
      assert Descriptor(e.role, e.path, e.media) in WorkerDescriptors(artifacts);
    }
  }
}
