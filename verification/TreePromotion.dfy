/**
 The tree visits of a promotion and what a successful one publishes: exactly the
 declared files, each with its declared size and digest, and one reference each.

 The worker's tree is read three times: a snapshot, the copy, and a second
 snapshot. Each read may find something else; only what was copied is published.
 */
module TreePromotion {
  import opened Wrappers
  import opened ArtifactTrees

  // ---------------------------------------------------- what a tree holds

  /** The regular files of a directory, by path. */
  function Files(entries: seq<Entry>, prefix: Path): map<Path, Content>
    decreases entries
  {
    if entries == [] then map[]
    else
      var last := entries[|entries| - 1];
      Files(entries[..|entries| - 1], prefix) + NodeFiles(last.node, prefix + [last.name])
  }

  function NodeFiles(node: Node, path: Path): map<Path, Content>
    decreases node
  {
    match node
    case File(content) => map[path := content]
    case Dir(entries) => Files(entries, path)
    case _ => map[]
  }

  /** The identities of files and directories, by path. */
  function Stamps(entries: seq<Entry>, prefix: Path): map<Path, nat>
    decreases entries
  {
    if entries == [] then map[]
    else
      var last := entries[|entries| - 1];
      Stamps(entries[..|entries| - 1], prefix) + NodeStamps(last, prefix + [last.name])
  }

  function NodeStamps(entry: Entry, path: Path): map<Path, nat>
    decreases entry
  {
    match entry.node
    case File(_) => map[path := entry.stamp]
    case Dir(entries) => map[path := entry.stamp] + Stamps(entries, path)
    case _ => map[]
  }

  /** Only declared files with their declared bytes, and only directories on the way to them. */
  predicate CopyOk(entries: seq<Entry>, prefix: Path, m: Manifest)
    decreases entries
  {
    entries == [] || (
      var last := entries[|entries| - 1];
      CopyOk(entries[..|entries| - 1], prefix, m) && NodeCopyOk(last.node, prefix + [last.name], m))
  }

  predicate NodeCopyOk(node: Node, path: Path, m: Manifest)
    decreases node
  {
    match node
    case File(content) => path in m.workers && content.size == m.workers[path].size && content.digest == m.workers[path].digest
    case Dir(entries) => path in m.directories && CopyOk(entries, path, m)
    case _ => false
  }

  predicate SnapshotOk(entries: seq<Entry>, prefix: Path, m: Manifest)
    decreases entries
  {
    entries == [] || (
      var last := entries[|entries| - 1];
      SnapshotOk(entries[..|entries| - 1], prefix, m) && NodeSnapshotOk(last.node, prefix + [last.name], m))
  }

  predicate NodeSnapshotOk(node: Node, path: Path, m: Manifest)
    decreases node
  {
    match node
    case File(_) => path in m.workers
    case Dir(entries) => path in m.directories && SnapshotOk(entries, path, m)
    case _ => false
  }

  predicate JsonOk(e: Expected, content: Content) {
    e.objectRequired ==>
      && content.json.Some?
      && forall i :: 0 <= i < |e.values| ==>
           e.values[i].key in content.json.value && content.json.value[e.values[i].key] == e.values[i].value
  }

  predicate PreparedOk(entries: seq<Entry>, prefix: Path, m: Manifest)
    decreases entries
  {
    entries == [] || (
      var last := entries[|entries| - 1];
      PreparedOk(entries[..|entries| - 1], prefix, m) && NodePreparedOk(last.node, prefix + [last.name], m))
  }

  predicate NodePreparedOk(node: Node, path: Path, m: Manifest)
    decreases node
  {
    match node
    case File(content) => path in m.expected && JsonOk(m.expected[path], content)
    case Dir(entries) => path in m.directories && PreparedOk(entries, path, m)
    case _ => false
  }

  function RefFor(e: Expected, content: Content): Ref {
    Ref(e.role, e.path, content.digest, content.size, e.media)
  }

  // ------------------------------------------------------------ the visits

  class TreeVisit {
    var seen: set<Path>
    var stamps: map<Path, nat>
    var found: map<Path, Ref>

    constructor ()
      ensures seen == {} && stamps == map[] && found == map[]
    {
      seen, stamps, found := {}, map[], map[];
    }

    /** Copies one entry; a copied file is compared with its declaration. */
    method CopyEntry(entry: Entry, path: Path, m: Manifest) returns (copy: Option<Entry>)
      modifies this`seen
      ensures copy.Some? <==> NodeCopyOk(entry.node, path, m)
      ensures copy.Some? ==> copy.value.name == entry.name && NodeCopyOk(copy.value.node, path, m)
      ensures copy.Some? ==> NodeFiles(copy.value.node, path) == NodeFiles(entry.node, path)
      ensures copy.Some? ==> (NodePreparedOk(copy.value.node, path, m) <==> NodePreparedOk(entry.node, path, m))
      ensures copy.Some? ==> seen == old(seen) + NodeFiles(entry.node, path).Keys
      decreases entry
    {
      match entry.node {
        case Symlink => return None;
        case Special => return None;
        case Dir(entries) =>
          if path !in m.directories {
            return None;
          }
          var child := Copy(entries, path, m);
          return if child.None? then None else Some(Entry(entry.name, 0, Dir(child.value)));
        case File(content) =>
          if path !in m.workers || content.size != m.workers[path].size || content.digest != m.workers[path].digest {
            return None;
          }
          seen := seen + {path};
          return Some(Entry(entry.name, 0, entry.node));
      }
    }

    /** Copies a directory, entry by entry. */
    method Copy(source: seq<Entry>, prefix: Path, m: Manifest) returns (copy: Option<seq<Entry>>)
      modifies this`seen
      ensures copy.Some? <==> CopyOk(source, prefix, m)
      ensures copy.Some? ==> Files(copy.value, prefix) == Files(source, prefix) && CopyOk(copy.value, prefix, m)
      ensures copy.Some? ==> (PreparedOk(copy.value, prefix, m) <==> PreparedOk(source, prefix, m))
      ensures copy.Some? ==> seen == old(seen) + Files(source, prefix).Keys
      decreases source
    {
      var made: seq<Entry> := [];
      CopiedNothing(prefix, m, seen);
      for i := 0 to |source|
        invariant Copied(source[..i], made, prefix, m, old(seen), seen)
      {
        ghost var before := seen;
        var entry := CopyEntry(source[i], prefix + [source[i].name], m);
        assert source[..i + 1] == source[..i] + [source[i]];
        if entry.None? {
          RefusedEntry(source, i, prefix, m);
          return None;
        }
        CopiedOneMore(source[..i], source[i], made, entry.value, prefix, m, old(seen), before, seen);
        made := made + [entry.value];
      }
      assert source[..|source|] == source;
      copy := Some(made);
    }

    method SnapshotEntry(entry: Entry, path: Path, m: Manifest) returns (ok: bool)
      modifies this`stamps
      ensures ok <==> NodeSnapshotOk(entry.node, path, m)
      ensures ok ==> stamps == old(stamps) + NodeStamps(entry, path)
      decreases entry
    {
      match entry.node {
        case Symlink => return false;
        case Special => return false;
        case Dir(entries) =>
          if path !in m.directories {
            return false;
          }
          stamps := stamps + map[path := entry.stamp];
          ok := Snapshot(entries, path, m);
          SumOfThree(old(stamps), map[path := entry.stamp], Stamps(entries, path));
        case File(_) =>
          if path !in m.workers {
            return false;
          }
          stamps := stamps + map[path := entry.stamp];
          ok := true;
      }
    }

    /** Records the identity of every entry of the worker's tree. */
    method Snapshot(entries: seq<Entry>, prefix: Path, m: Manifest) returns (ok: bool)
      modifies this`stamps
      ensures ok <==> SnapshotOk(entries, prefix, m)
      ensures ok ==> stamps == old(stamps) + Stamps(entries, prefix)
      decreases entries
    {
      for i := 0 to |entries|
        invariant SnapshotOk(entries[..i], prefix, m)
        invariant stamps == old(stamps) + Stamps(entries[..i], prefix)
      {
        var path := prefix + [entries[i].name];
        var inside := SnapshotEntry(entries[i], path, m);
        assert entries[..i + 1] == entries[..i] + [entries[i]];
        OneMoreStamp(entries[..i], entries[i], prefix, m);
        if !inside {
          SnapshotOkPrefix(entries, prefix, m, i + 1);
          return false;
        }
        SumOfThree(old(stamps), Stamps(entries[..i], prefix), NodeStamps(entries[i], path));
      }
      assert entries[..|entries|] == entries;
      return true;
    }

    method ValidateEntry(entry: Entry, path: Path, m: Manifest) returns (ok: bool)
      modifies this`found
      ensures ok <==> NodePreparedOk(entry.node, path, m)
      ensures ok ==> RefsAdded(old(found), found, NodeFiles(entry.node, path), m)
      decreases entry
    {
      match entry.node {
        case Symlink => return false;
        case Special => return false;
        case Dir(entries) =>
          if path !in m.directories {
            return false;
          }
          ok := Validate(entries, path, m);
        case File(content) =>
          if path !in m.expected || !JsonOk(m.expected[path], content) {
            return false;
          }
          found := found[path := RefFor(m.expected[path], content)];
          ok := true;
      }
    }

    /** Reads the prepared copy back and builds one reference per file. */
    method Validate(entries: seq<Entry>, prefix: Path, m: Manifest) returns (ok: bool)
      modifies this`found
      ensures ok <==> PreparedOk(entries, prefix, m)
      ensures ok ==> RefsAdded(old(found), found, Files(entries, prefix), m)
      decreases entries
    {
      for i := 0 to |entries|
        invariant PreparedOk(entries[..i], prefix, m)
        invariant RefsAdded(old(found), found, Files(entries[..i], prefix), m)
      {
        assert entries[..i + 1][..i] == entries[..i];
        ghost var before := found;
        var inside := ValidateEntry(entries[i], prefix + [entries[i].name], m);
        if !inside {
          PreparedOkPrefix(entries, prefix, m, i + 1);
          return false;
        }
        RefsAddedTwice(old(found), before, found, Files(entries[..i], prefix),
                       NodeFiles(entries[i].node, prefix + [entries[i].name]), m);
      }
      assert entries[..|entries|] == entries;
      return true;
    }
  }

  /** How far a copy has come: `made` is an accepted copy of `done`, and its files were recorded. */
  ghost predicate Copied(done: seq<Entry>, made: seq<Entry>, prefix: Path, m: Manifest, before: set<Path>, seen: set<Path>) {
    && CopyOk(done, prefix, m) && CopyOk(made, prefix, m)
    && Files(made, prefix) == Files(done, prefix)
    && (PreparedOk(made, prefix, m) <==> PreparedOk(done, prefix, m))
    && seen == before + Files(done, prefix).Keys
  }

  lemma CopiedNothing(prefix: Path, m: Manifest, seen: set<Path>)
    ensures Copied([], [], prefix, m, seen, seen)
  {
  }

  lemma CopiedOneMore(done: seq<Entry>, entry: Entry, made: seq<Entry>, copy: Entry, prefix: Path, m: Manifest,
                      before: set<Path>, seen: set<Path>, seen': set<Path>)
    requires Copied(done, made, prefix, m, before, seen)
    requires var path := prefix + [entry.name];
             && copy.name == entry.name && NodeCopyOk(entry.node, path, m) && NodeCopyOk(copy.node, path, m)
             && NodeFiles(copy.node, path) == NodeFiles(entry.node, path)
             && (NodePreparedOk(copy.node, path, m) <==> NodePreparedOk(entry.node, path, m))
             && seen' == seen + NodeFiles(entry.node, path).Keys
    ensures Copied(done + [entry], made + [copy], prefix, m, before, seen')
  {
    OneMoreEntry(done, entry, prefix, m);
    OneMoreEntry(made, copy, prefix, m);
    KeysOfSum(before, Files(done, prefix), NodeFiles(entry.node, prefix + [entry.name]));
  }

  lemma RefusedEntry(source: seq<Entry>, i: nat, prefix: Path, m: Manifest)
    requires i < |source| && !NodeCopyOk(source[i].node, prefix + [source[i].name], m)
    ensures !CopyOk(source, prefix, m)
  {
    assert source[..i + 1] == source[..i] + [source[i]];
    OneMoreEntry(source[..i], source[i], prefix, m);
    CopyOkPrefix(source, prefix, m, i + 1);
  }

  lemma OneMoreEntry(entries: seq<Entry>, entry: Entry, prefix: Path, m: Manifest)
    ensures Files(entries + [entry], prefix) == Files(entries, prefix) + NodeFiles(entry.node, prefix + [entry.name])
    ensures CopyOk(entries + [entry], prefix, m) <==> CopyOk(entries, prefix, m) && NodeCopyOk(entry.node, prefix + [entry.name], m)
    ensures PreparedOk(entries + [entry], prefix, m) <==> PreparedOk(entries, prefix, m) && NodePreparedOk(entry.node, prefix + [entry.name], m)
  {
    assert (entries + [entry])[..|entries|] == entries;
  }

  lemma OneMoreStamp(entries: seq<Entry>, entry: Entry, prefix: Path, m: Manifest)
    ensures Stamps(entries + [entry], prefix) == Stamps(entries, prefix) + NodeStamps(entry, prefix + [entry.name])
    ensures SnapshotOk(entries + [entry], prefix, m) <==> SnapshotOk(entries, prefix, m) && NodeSnapshotOk(entry.node, prefix + [entry.name], m)
  {
    assert (entries + [entry])[..|entries|] == entries;
  }

  lemma KeysOfSum(seen: set<Path>, a: map<Path, Content>, b: map<Path, Content>)
    ensures (seen + a.Keys) + b.Keys == seen + (a + b).Keys
  {
  }

  lemma SumOfThree(a: map<Path, nat>, b: map<Path, nat>, c: map<Path, nat>)
    ensures (a + b) + c == a + (b + c)
  {
  }

  /** `after` is `before` with one reference for each of `files`. */
  ghost predicate RefsAdded(before: map<Path, Ref>, after: map<Path, Ref>, files: map<Path, Content>, m: Manifest) {
    && after.Keys == before.Keys + files.Keys
    && (forall p :: p in files ==> p in m.expected && after[p] == RefFor(m.expected[p], files[p]))
    && (forall p :: p in before && p !in files ==> after[p] == before[p])
  }

  lemma RefsAddedTwice(r0: map<Path, Ref>, r1: map<Path, Ref>, r2: map<Path, Ref>,
                       first: map<Path, Content>, second: map<Path, Content>, m: Manifest)
    requires RefsAdded(r0, r1, first, m) && RefsAdded(r1, r2, second, m)
    ensures RefsAdded(r0, r2, first + second, m)
  {
  }

  lemma {:induction false} CopyOkPrefix(entries: seq<Entry>, prefix: Path, m: Manifest, n: nat)
    requires n <= |entries|
    ensures CopyOk(entries, prefix, m) ==> CopyOk(entries[..n], prefix, m)
    decreases |entries|
  {
    if n == |entries| {
      assert entries[..n] == entries;
    } else {
      assert entries[..|entries| - 1][..n] == entries[..n];
      CopyOkPrefix(entries[..|entries| - 1], prefix, m, n);
    }
  }

  lemma {:induction false} SnapshotOkPrefix(entries: seq<Entry>, prefix: Path, m: Manifest, n: nat)
    requires n <= |entries|
    ensures SnapshotOk(entries, prefix, m) ==> SnapshotOk(entries[..n], prefix, m)
    decreases |entries|
  {
    if n == |entries| {
      assert entries[..n] == entries;
    } else {
      assert entries[..|entries| - 1][..n] == entries[..n];
      SnapshotOkPrefix(entries[..|entries| - 1], prefix, m, n);
    }
  }

  lemma {:induction false} PreparedOkPrefix(entries: seq<Entry>, prefix: Path, m: Manifest, n: nat)
    requires n <= |entries|
    ensures PreparedOk(entries, prefix, m) ==> PreparedOk(entries[..n], prefix, m)
    decreases |entries|
  {
    if n == |entries| {
      assert entries[..n] == entries;
    } else {
      assert entries[..|entries| - 1][..n] == entries[..n];
      PreparedOkPrefix(entries[..|entries| - 1], prefix, m, n);
    }
  }

  // ------------------------------------------------------------- theorems

  /** A file has the size and digest its declaration gives. */
  predicate AsDeclared(a: WorkerArtifact, content: Content) {
    content.size == a.size && content.digest == a.digest
  }

  /** Every file of an accepted tree is declared and has the declared bytes. */
  lemma {:induction false} CopiedAsDeclared(entries: seq<Entry>, prefix: Path, m: Manifest)
    requires CopyOk(entries, prefix, m)
    ensures forall p :: p in Files(entries, prefix) ==> p in m.workers && AsDeclared(m.workers[p], Files(entries, prefix)[p])
    decreases entries
  {
    if entries != [] {
      var last := entries[|entries| - 1];
      CopiedAsDeclared(entries[..|entries| - 1], prefix, m);
      if last.node.Dir? {
        CopiedAsDeclared(last.node.entries, prefix + [last.name], m);
      }
    }
  }

  /** In an accepted copy the JSON contract holds of every file of it. */
  lemma {:induction false} PreparedMeetsJson(entries: seq<Entry>, prefix: Path, m: Manifest)
    requires PreparedOk(entries, prefix, m)
    ensures forall p :: p in Files(entries, prefix) ==> p in m.expected && JsonOk(m.expected[p], Files(entries, prefix)[p])
    decreases entries
  {
    if entries != [] {
      var last := entries[|entries| - 1];
      PreparedMeetsJson(entries[..|entries| - 1], prefix, m);
      if last.node.Dir? {
        PreparedMeetsJson(last.node.entries, prefix + [last.name], m);
      }
    }
  }

  /** The files of a tree are exactly the declared ones, with their declared bytes and JSON values. */
  ghost predicate HoldsExactly(files: map<Path, Content>, artifacts: seq<WorkerArtifact>, expected: seq<Expected>) {
    && (forall a :: a in artifacts ==> a.path in files && AsDeclared(a, files[a.path]))
    && (forall p :: p in files ==> exists a :: a in artifacts && a.path == p)
    && (forall e :: e in expected ==> e.path in files && JsonOk(e, files[e.path]))
  }

  /** One reference per declared artifact, and no other. */
  ghost predicate OneRefEach(refs: map<Path, Ref>, artifacts: seq<WorkerArtifact>) {
    && (forall a :: a in artifacts ==> a.size >= 0 && a.path in refs && refs[a.path] == Ref(a.role, a.path, a.digest, a.size, a.media))
    && (forall p :: p in refs ==> exists a :: a in artifacts && a.path == p)
  }

  datatype Published = Published(tree: seq<Entry>, refs: map<Path, Ref>)

  /** One snapshot of the worker's tree; every declared path and directory must be there. */
  method TakeSnapshot(entries: seq<Entry>, m: Manifest) returns (stamps: Option<map<Path, nat>>)
    ensures stamps.Some? <==> SnapshotOk(entries, [], m) && m.workers.Keys + m.directories <= Stamps(entries, []).Keys
    ensures stamps.Some? ==> stamps.value == Stamps(entries, [])
  {
    var visit := new TreeVisit();
    var ok := visit.Snapshot(entries, [], m);
    assert ok ==> visit.stamps == Stamps(entries, []);
    return if ok && m.workers.Keys + m.directories <= visit.stamps.Keys then Some(visit.stamps) else None;
  }

  /** The copy of the declared tree; nothing declared may be missing. */
  method CopyDeclared(source: seq<Entry>, m: Manifest) returns (copy: Option<seq<Entry>>)
    ensures copy.Some? <==> CopyOk(source, [], m) && m.workers.Keys <= Files(source, []).Keys
    ensures copy.Some? ==> CopyOk(copy.value, [], m) && Files(copy.value, []) == Files(source, [])
    ensures copy.Some? ==> (PreparedOk(copy.value, [], m) <==> PreparedOk(source, [], m))
  {
    var visit := new TreeVisit();
    copy := visit.Copy(source, [], m);
    assert copy.Some? ==> visit.seen == Files(source, []).Keys;
    if copy.Some? && !(m.workers.Keys <= visit.seen) {
      copy := None;
    }
  }

  /** The references of a prepared tree; nothing expected may be missing. */
  method ValidatePrepared(tree: seq<Entry>, m: Manifest) returns (refs: Option<map<Path, Ref>>)
    ensures refs.Some? <==> PreparedOk(tree, [], m) && m.expected.Keys <= Files(tree, []).Keys
    ensures refs.Some? ==> RefsAdded(map[], refs.value, Files(tree, []), m)
  {
    var visit := new TreeVisit();
    var ok := visit.Validate(tree, [], m);
    assert ok ==> visit.found.Keys == Files(tree, []).Keys;
    return if ok && m.expected.Keys <= visit.found.Keys then Some(visit.found) else None;
  }

  /** What the three reads must find for the manifest. */
  ghost predicate Promotable(before: seq<Entry>, source: seq<Entry>, after: seq<Entry>, m: Manifest) {
    && SnapshotOk(before, [], m) && SnapshotOk(after, [], m) && Stamps(before, []) == Stamps(after, [])
    && m.workers.Keys + m.directories <= Stamps(before, []).Keys
    && CopyOk(source, [], m) && PreparedOk(source, [], m)
    && m.workers.Keys <= Files(source, []).Keys && m.expected.Keys <= Files(source, []).Keys
  }

  /** Snapshot, copy, snapshot again, validate; `before`, `source` and `after` are what the three reads find. */
  method PrepareTree(before: seq<Entry>, source: seq<Entry>, after: seq<Entry>,
                     artifacts: seq<WorkerArtifact>, expected: seq<Expected>) returns (r: Option<Published>)
    ensures r.Some? ==> ManifestsAgree(artifacts, expected)
    ensures r.Some? ==> Files(r.value.tree, []) == Files(source, [])
    ensures r.Some? ==> HoldsExactly(Files(r.value.tree, []), artifacts, expected)
    ensures r.Some? ==> OneRefEach(r.value.refs, artifacts)
    ensures ManifestsAgree(artifacts, expected) ==>
              exists m :: ManifestOf(m, artifacts, expected) && (r.Some? <==> Promotable(before, source, after, m))
  {
    var manifest := ValidateManifests(artifacts, expected);
    if manifest.None? {
      return None;
    }
    var first := TakeSnapshot(before, manifest.value);
    if first.None? {
      return None;
    }
    var copy := CopyDeclared(source, manifest.value);
    if copy.None? {
      return None;
    }
    var second := TakeSnapshot(after, manifest.value);
    if second.None? || second.value != first.value {
      return None;
    }
    var refs := ValidatePrepared(copy.value, manifest.value);
    if refs.None? {
      return None;
    }
    SuccessHoldsExactly(manifest.value, artifacts, expected, copy.value, refs.value);
    return Some(Published(copy.value, refs.value));
  }

  lemma SuccessHoldsExactly(m: Manifest, artifacts: seq<WorkerArtifact>, expected: seq<Expected>, copy: seq<Entry>, found: map<Path, Ref>)
    requires ManifestsAgree(artifacts, expected) && ManifestOf(m, artifacts, expected)
    requires CopyOk(copy, [], m) && PreparedOk(copy, [], m)
    requires m.workers.Keys <= Files(copy, []).Keys && RefsAdded(map[], found, Files(copy, []), m)
    ensures HoldsExactly(Files(copy, []), artifacts, expected) && OneRefEach(found, artifacts)
  {
    CopiedAsDeclared(copy, [], m);
    PreparedMeetsJson(copy, [], m);
    DeclaredIsExpected(m, artifacts, expected);
    forall a | a in artifacts ensures a.size >= 0 {
      var i :| 0 <= i < |artifacts| && artifacts[i] == a;
      assert WorkerOk(artifacts[i]);
    }
  }
}
