/** What a sandbox command changed in its output directory (packages/common/sandbox/executor.go). */
module WorkspaceDiff {
  import opened Common
  import opened Paths

  datatype Artifact = Artifact(id: string, path: string, size: nat, sha256: string)

  datatype Snapshot = Snapshot(artifact: Artifact, size: nat, sha256: string)

  datatype Diff = Diff(created: seq<string>, updated: seq<string>, deleted: seq<string>)

  // ---- scanning ----

  /** What the directory walk meets; `Broken` is an entry that cannot be inspected or hashed. */
  datatype Kind = Directory | Special | Link | Broken | Regular(size: nat, sha256: string, id: string)

  datatype Entry = Entry(path: string, kind: Kind)

  datatype Limits = Limits(count: nat, bytes: nat, total: nat)

  function Counts(): Entry -> int {
    (e: Entry) => if e.kind.Regular? then 1 else 0
  }

  function Bytes(): Entry -> int {
    (e: Entry) => if e.kind.Regular? then e.kind.size else 0
  }

  /** A scan succeeds within all limits, and when the walk meets neither a link nor an unreadable entry. */
  predicate Scannable(walk: seq<Entry>, limits: Limits) {
    && (forall i :: 0 <= i < |walk| ==> !walk[i].kind.Link? && !walk[i].kind.Broken?)
    && (forall i :: 0 <= i < |walk| && walk[i].kind.Regular? ==> walk[i].kind.size <= limits.bytes)
    && Sum(walk, Counts()) <= limits.count
    && Sum(walk, Bytes()) <= limits.total
  }

  predicate DistinctPaths(walk: seq<Entry>) {
    forall i, j :: 0 <= i < j < |walk| ==> walk[i].path != walk[j].path
  }

  predicate IsFile(walk: seq<Entry>, path: string) {
    exists i :: 0 <= i < |walk| && walk[i].path == path && walk[i].kind.Regular?
  }

  function SnapshotOf(e: Entry): Snapshot
    requires e.kind.Regular?
  {
    Snapshot(Artifact(e.kind.id, e.path, e.kind.size, e.kind.sha256), e.kind.size, e.kind.sha256)
  }

  /** The snapshots are those of the regular files, and the paths are theirs. */
  ghost predicate Scanned(walk: seq<Entry>, snapshots: map<string, Snapshot>, paths: seq<string>) {
    && (forall p :: p in snapshots <==> p in paths)
    && (forall p :: p in paths ==> IsFile(walk, p))
    && (forall i :: 0 <= i < |walk| && walk[i].kind.Regular? ==>
          walk[i].path in snapshots && snapshots[walk[i].path] == SnapshotOf(walk[i]))
  }

  datatype Scan = Scan(snapshots: map<string, Snapshot>, paths: seq<string>)

  lemma Unscannable(walk: seq<Entry>, n: nat, limits: Limits)
    requires n <= |walk| && !Scannable(walk[..n], limits)
    ensures !Scannable(walk, limits)
  {
    SumPrefix(walk, n, Counts());
    SumPrefix(walk, n, Bytes());
  }

  lemma {:induction false} SumPrefix(walk: seq<Entry>, n: nat, f: Entry -> int)
    requires n <= |walk| && forall e :: e in walk ==> 0 <= f(e)
    ensures Sum(walk[..n], f) <= Sum(walk, f)
  {
    if n < |walk| {
      SumPrefix(walk[..|walk| - 1], n, f);
      assert walk[..|walk| - 1][..n] == walk[..n];
    } else {
      assert walk[..n] == walk;
    }
  }

  predicate Fits(entry: Entry, count: int, total: int, limits: Limits) {
    match entry.kind
    case Directory | Special => true
    case Link | Broken => false
    case Regular(size, _, _) => count < limits.count && size <= limits.bytes && total + size <= limits.total
  }

  lemma OneMoreEntry(walk: seq<Entry>, i: nat, limits: Limits)
    requires i < |walk| && Scannable(walk[..i], limits)
    ensures Scannable(walk[..i + 1], limits)
            <==> Fits(walk[i], Sum(walk[..i], Counts()), Sum(walk[..i], Bytes()), limits)
    ensures Sum(walk[..i + 1], Counts()) == Sum(walk[..i], Counts()) + Counts()(walk[i])
    ensures Sum(walk[..i + 1], Bytes()) == Sum(walk[..i], Bytes()) + Bytes()(walk[i])
  {
    var seen := walk[..i + 1];
    assert seen == walk[..i] + [walk[i]];
    SumAppend(walk[..i], walk[i], Counts());
    SumAppend(walk[..i], walk[i], Bytes());
    assert seen[i] == walk[i];
    assert forall k :: 0 <= k < i ==> seen[k] == walk[..i][k];
  }

  /** `scanOutput`; `root` says that the output directory is not behind a link and is there, or was created. */
  method ScanOutput(root: bool, walk: seq<Entry>, limits: Limits) returns (scan: Option<Scan>)
    requires DistinctPaths(walk)
    ensures scan.Some? <==> root && Scannable(walk, limits)
    ensures scan.Some? ==> Scanned(walk, scan.value.snapshots, scan.value.paths) && Ordered(scan.value.paths)
  {
    if !root {
      return None;
    }
    var snapshots: map<string, Snapshot>, paths: seq<string>, totalBytes: int := map[], [], 0;
    for i := 0 to |walk|
      invariant Scannable(walk[..i], limits)
      invariant Scanned(walk[..i], snapshots, paths) && NoRepeats(paths)
      invariant |paths| == Sum(walk[..i], Counts()) && totalBytes == Sum(walk[..i], Bytes())
    {
      var entry := walk[i];
      OneMoreEntry(walk, i, limits);
      if !Fits(entry, |paths|, totalBytes, limits) {
        Unscannable(walk, i + 1, limits);
      }
      match entry.kind
      case Directory => ScanOther(walk, i, snapshots, paths);
      case Special => ScanOther(walk, i, snapshots, paths);
      case Link => return None;
      case Broken => return None;
      case Regular(size, sha256, id) =>
        if |paths| >= limits.count || size > limits.bytes || totalBytes + size > limits.total {
          return None;
        }
        totalBytes := totalBytes + size;
        ScanRegular(walk, i, snapshots, paths);
        var artifact := Artifact(id, entry.path, size, sha256);
        snapshots := snapshots[entry.path := Snapshot(artifact, size, sha256)];
        paths := paths + [entry.path];
    }
    assert walk[..|walk|] == walk;
    SortOrdered(paths);
    return Some(Scan(snapshots, Sort(paths)));
  }

  lemma ScanOther(walk: seq<Entry>, i: nat, snapshots: map<string, Snapshot>, paths: seq<string>)
    requires i < |walk| && !walk[i].kind.Regular? && Scanned(walk[..i], snapshots, paths)
    ensures Scanned(walk[..i + 1], snapshots, paths)
  {
    forall p | p in paths ensures IsFile(walk[..i + 1], p) {
      assert IsFile(walk[..i], p);
      var k :| 0 <= k < i && walk[..i][k].path == p && walk[..i][k].kind.Regular?;
      assert walk[..i + 1][k] == walk[..i][k];
    }
    var seen := walk[..i + 1];
    forall k | 0 <= k < |seen| && seen[k].kind.Regular?
      ensures seen[k].path in snapshots && snapshots[seen[k].path] == SnapshotOf(seen[k])
    {
      assert seen[k] == walk[..i][k];
    }
  }

  lemma ScanRegular(walk: seq<Entry>, i: nat, snapshots: map<string, Snapshot>, paths: seq<string>)
    requires DistinctPaths(walk) && i < |walk| && walk[i].kind.Regular? && Scanned(walk[..i], snapshots, paths)
    ensures walk[i].path !in paths
    ensures Scanned(walk[..i + 1], snapshots[walk[i].path := SnapshotOf(walk[i])], paths + [walk[i].path])
  {
    var path := walk[i].path;
    var after := snapshots[path := SnapshotOf(walk[i])];
    forall p | p in paths ensures p != path && IsFile(walk[..i + 1], p) {
      assert IsFile(walk[..i], p);
      var k :| 0 <= k < i && walk[..i][k].path == p && walk[..i][k].kind.Regular?;
      assert walk[..i + 1][k] == walk[..i][k];
    }
    assert walk[..i + 1][i] == walk[i];
    var seen := walk[..i + 1];
    forall k | 0 <= k < |seen| && seen[k].kind.Regular?
      ensures seen[k].path in after && after[seen[k].path] == SnapshotOf(seen[k])
    {
      assert k < i ==> seen[k] == walk[..i][k];
    }
  }

  // ---- comparing ----

  predicate IsCreated(before: map<string, Snapshot>, after: map<string, Snapshot>, p: string) {
    p in after && p !in before
  }

  predicate IsUpdated(before: map<string, Snapshot>, after: map<string, Snapshot>, p: string) {
    p in after && p in before && (before[p].size != after[p].size || before[p].sha256 != after[p].sha256)
  }

  predicate IsDeleted(before: map<string, Snapshot>, after: map<string, Snapshot>, p: string) {
    p in before && p !in after
  }

  ghost predicate IsDiff(before: map<string, Snapshot>, after: map<string, Snapshot>, diff: Diff) {
    && Ordered(diff.created) && Ordered(diff.updated) && Ordered(diff.deleted)
    && (forall p :: p in diff.created <==> IsCreated(before, after, p))
    && (forall p :: p in diff.updated <==> IsUpdated(before, after, p))
    && (forall p :: p in diff.deleted <==> IsDeleted(before, after, p))
  }

  function PathsOf(artifacts: seq<Artifact>): seq<string> {
    seq(|artifacts|, i requires 0 <= i < |artifacts| => artifacts[i].path)
  }

  /** The artifacts reported: the new state of created and updated files, in path order. */
  ghost predicate Reported(before: map<string, Snapshot>, after: map<string, Snapshot>, artifacts: seq<Artifact>) {
    && Ordered(PathsOf(artifacts))
    && (forall p :: p in PathsOf(artifacts) <==> IsCreated(before, after, p) || IsUpdated(before, after, p))
    && FromAfter(after, artifacts)
  }

  predicate FromAfter(after: map<string, Snapshot>, artifacts: seq<Artifact>) {
    forall i :: 0 <= i < |artifacts| ==>
      artifacts[i].path in after && artifacts[i] == after[artifacts[i].path].artifact
  }

  lemma AddArtifact(after: map<string, Snapshot>, artifacts: seq<Artifact>, path: string)
    requires Faithful(after) && FromAfter(after, artifacts) && path in after
    ensures var more := artifacts + [after[path].artifact];
            FromAfter(after, more) && PathsOf(more) == PathsOf(artifacts) + [path]
  {
  }

  /** A snapshot describes the file it is filed under, as `ScanOutput` leaves it. */
  ghost predicate Faithful(snapshots: map<string, Snapshot>) {
    forall p :: p in snapshots ==>
      var a := snapshots[p].artifact;
      a.path == p && a.size == snapshots[p].size && a.sha256 == snapshots[p].sha256
  }

  lemma ScannedIsFaithful(walk: seq<Entry>, snapshots: map<string, Snapshot>, paths: seq<string>)
    requires Scanned(walk, snapshots, paths)
    ensures Faithful(snapshots)
  {
    forall p | p in snapshots ensures Faithful(map[p := snapshots[p]]) {
      assert p in paths && IsFile(walk, p);
      var k :| 0 <= k < |walk| && walk[k].path == p && walk[k].kind.Regular?;
      assert snapshots[p] == SnapshotOf(walk[k]);
    }
    assert forall p :: p in snapshots ==> Faithful(map[p := snapshots[p]]) && p in map[p := snapshots[p]];
  }

  /** Appending the next path keeps a selection of the earlier ones in order. */
  lemma AppendOrdered(selected: seq<string>, paths: seq<string>, i: nat)
    requires Ordered(paths) && Ordered(selected) && i < |paths|
    requires forall p :: p in selected ==> p in paths[..i]
    ensures Ordered(selected + [paths[i]]) && paths[i] !in selected
  {
    forall k | 0 <= k < |selected| ensures Before(selected[k], paths[i]) && selected[k] != paths[i] {
      assert selected[k] in paths[..i];
      var m :| 0 <= m < i && paths[..i][m] == selected[k];
      assert Before(paths[m], paths[i]);
      BeforeIsTotal(paths[i], paths[i]);
    }
  }

  lemma OrderedHasNoRepeats(s: seq<string>)
    requires Ordered(s)
    ensures NoRepeats(s) && Sort(s) == s
  {
    forall i, j | 0 <= i < j < |s| ensures s[i] != s[j] {
      BeforeIsTotal(s[i], s[i]);
    }
    SortOrdered(s);
    OrderedIsUnique(Sort(s), s);
  }

  ghost predicate Selected(s: seq<string>, paths: seq<string>, i: nat, choice: string -> bool)
    requires i <= |paths|
  {
    Ordered(s) && forall p :: p in s <==> p in paths[..i] && choice(p)
  }

  lemma SelectNext(s: seq<string>, paths: seq<string>, i: nat, choice: string -> bool)
    requires i < |paths| && Ordered(paths) && Selected(s, paths, i, choice)
    ensures Selected(if choice(paths[i]) then s + [paths[i]] else s, paths, i + 1, choice)
  {
    assert paths[..i + 1] == paths[..i] + [paths[i]];
    AppendOrdered(s, paths, i);
  }

  function CreatedIn(before: map<string, Snapshot>, after: map<string, Snapshot>): string -> bool {
    p => IsCreated(before, after, p)
  }

  function UpdatedIn(before: map<string, Snapshot>, after: map<string, Snapshot>): string -> bool {
    p => IsUpdated(before, after, p)
  }

  function ReportedIn(before: map<string, Snapshot>, after: map<string, Snapshot>): string -> bool {
    p => IsCreated(before, after, p) || IsUpdated(before, after, p)
  }

  method CompareFiles(before: map<string, Snapshot>, after: map<string, Snapshot>, paths: seq<string>)
    returns (artifacts: seq<Artifact>, created: seq<string>, updated: seq<string>)
    requires Ordered(paths) && Faithful(after) && forall p :: p in paths <==> p in after
    ensures Reported(before, after, artifacts)
    ensures Ordered(created) && forall p :: p in created <==> IsCreated(before, after, p)
    ensures Ordered(updated) && forall p :: p in updated <==> IsUpdated(before, after, p)
  {
    artifacts, created, updated := [], [], [];
    ghost var isCreated, isUpdated := CreatedIn(before, after), UpdatedIn(before, after);
    ghost var isReported := ReportedIn(before, after);
    for i := 0 to |paths|
      invariant Selected(created, paths, i, isCreated) && Selected(updated, paths, i, isUpdated)
      invariant Selected(PathsOf(artifacts), paths, i, isReported)
      invariant FromAfter(after, artifacts)
    {
      var path := paths[i];
      assert path in after;
      SelectNext(created, paths, i, isCreated);
      SelectNext(updated, paths, i, isUpdated);
      SelectNext(PathsOf(artifacts), paths, i, isReported);
      var current := after[path];
      AddArtifact(after, artifacts, path);
      if path !in before {
        created := created + [path];
        artifacts := artifacts + [current.artifact];
      } else if before[path].size != current.size || before[path].sha256 != current.sha256 {
        updated := updated + [path];
        artifacts := artifacts + [current.artifact];
      }
    }
    assert paths[..|paths|] == paths;
  }

  /** `order` is the order in which the map happens to be walked. */
  method FindDeleted(before: map<string, Snapshot>, after: map<string, Snapshot>, order: seq<string>)
    returns (deleted: seq<string>)
    requires NoRepeats(order) && forall p :: p in order <==> p in before
    ensures NoRepeats(deleted) && forall p :: p in deleted <==> IsDeleted(before, after, p)
  {
    deleted := [];
    for i := 0 to |order|
      invariant NoRepeats(deleted)
      invariant forall p :: p in deleted <==> p in order[..i] && p !in after
    {
      assert order[..i + 1] == order[..i] + [order[i]];
      if order[i] !in after {
        assert order[i] !in order[..i];
        deleted := deleted + [order[i]];
      }
    }
    assert order[..|order|] == order;
  }

  /** The difference between a snapshot and the output directory as it is now, or the scan's failure. */
  method CollectArtifacts(root: bool, walk: seq<Entry>, limits: Limits, before: map<string, Snapshot>,
                          order: seq<string>)
    returns (result: Option<(seq<Artifact>, Diff)>, after: map<string, Snapshot>, ghost paths: seq<string>)
    requires DistinctPaths(walk) && NoRepeats(order) && forall p :: p in order <==> p in before
    ensures result.Some? <==> root && Scannable(walk, limits)
    ensures result.Some? ==> Scanned(walk, after, paths)
    ensures result.Some? ==> Reported(before, after, result.value.0) && IsDiff(before, after, result.value.1)
  {
    var scan := ScanOutput(root, walk, limits);
    if scan.None? {
      return None, map[], [];
    }
    after, paths := scan.value.snapshots, scan.value.paths;
    ScannedIsFaithful(walk, after, paths);
    var artifacts, created, updated := CompareFiles(before, after, scan.value.paths);
    var deleted := FindDeleted(before, after, order);
    OrderedHasNoRepeats(created);
    OrderedHasNoRepeats(updated);
    SortOrdered(deleted);
    result := Some((artifacts, Diff(Sort(created), Sort(updated), Sort(deleted))));
  }

  // ---- what the result means ----

  /** There is one difference only, so neither the walk of the map nor the sorting leaves a choice. */
  lemma DiffIsUnique(before: map<string, Snapshot>, after: map<string, Snapshot>, diff: Diff, other: Diff)
    requires IsDiff(before, after, diff) && IsDiff(before, after, other)
    ensures diff == other
  {
    OrderedIsUnique(diff.created, other.created);
    OrderedIsUnique(diff.updated, other.updated);
    OrderedIsUnique(diff.deleted, other.deleted);
  }

  lemma ArtifactsAreUnique(before: map<string, Snapshot>, after: map<string, Snapshot>,
                           artifacts: seq<Artifact>, others: seq<Artifact>)
    requires Reported(before, after, artifacts) && Reported(before, after, others)
    ensures artifacts == others
  {
    OrderedIsUnique(PathsOf(artifacts), PathsOf(others));
    forall i | 0 <= i < |artifacts| ensures artifacts[i] == others[i] {
      assert PathsOf(artifacts)[i] == PathsOf(others)[i];
    }
  }

  lemma DiffIsDisjoint(before: map<string, Snapshot>, after: map<string, Snapshot>, diff: Diff, p: string)
    requires IsDiff(before, after, diff)
    ensures (if p in diff.created then 1 else 0) + (if p in diff.updated then 1 else 0)
            + (if p in diff.deleted then 1 else 0) <= 1
  {
    assert p in diff.created <==> IsCreated(before, after, p);
    assert p in diff.updated <==> IsUpdated(before, after, p);
    assert p in diff.deleted <==> IsDeleted(before, after, p);
  }

  datatype Content = Content(size: nat, sha256: string)

  function View(snapshots: map<string, Snapshot>): map<string, Content> {
    map p | p in snapshots :: Content(snapshots[p].size, snapshots[p].sha256)
  }

  /** Lay the reported artifacts over what was there. */
  function Overlay(view: map<string, Content>, artifacts: seq<Artifact>): map<string, Content> {
    if artifacts == [] then view
    else
      var last := artifacts[|artifacts| - 1];
      Overlay(view, artifacts[..|artifacts| - 1])[last.path := Content(last.size, last.sha256)]
  }

  lemma {:induction false} OverlayAt(view: map<string, Content>, artifacts: seq<Artifact>,
                                     after: map<string, Snapshot>, p: string)
    requires Faithful(after) && FromAfter(after, artifacts)
    ensures var out := Overlay(view, artifacts);
            && (p in out <==> p in view || p in PathsOf(artifacts))
            && (p in PathsOf(artifacts) ==> p in after && out[p] == Content(after[p].size, after[p].sha256))
            && (p in view && p !in PathsOf(artifacts) ==> out[p] == view[p])
  {
    if artifacts != [] {
      var front, last := artifacts[..|artifacts| - 1], artifacts[|artifacts| - 1];
      OverlayAt(view, front, after, p);
      assert PathsOf(artifacts) == PathsOf(front) + [last.path];
    }
  }

  /** Removing the deleted files and laying the reported artifacts over the rest turns the old contents
      into the new, for whoever only has the old contents, the difference and the artifacts. */
  lemma DiffRebuildsAfter(before: map<string, Snapshot>, after: map<string, Snapshot>,
                          artifacts: seq<Artifact>, diff: Diff)
    requires Faithful(after) && Reported(before, after, artifacts) && IsDiff(before, after, diff)
    ensures Overlay(View(before) - Elements(diff.deleted), artifacts) == View(after)
  {
    var kept := View(before) - Elements(diff.deleted);
    forall p ensures p in Overlay(kept, artifacts) <==> p in View(after) {
      OverlayAt(kept, artifacts, after, p);
      assert p in diff.deleted <==> IsDeleted(before, after, p);
      assert p in PathsOf(artifacts) <==> IsCreated(before, after, p) || IsUpdated(before, after, p);
    }
    forall p | p in View(after) ensures Overlay(kept, artifacts)[p] == View(after)[p] {
      OverlayAt(kept, artifacts, after, p);
      assert p in diff.deleted <==> IsDeleted(before, after, p);
      assert p in PathsOf(artifacts) <==> IsCreated(before, after, p) || IsUpdated(before, after, p);
    }
  }

  function Elements(paths: seq<string>): set<string> {
    set p | p in paths
  }
}
