/**
 Restore rehearsal: the manifest of active metadata, its comparison with the current metadata,
 with object storage and with the storage listings, and the overall verdict. Findings are
 capped at 50 per stage; the specification functions are not.
 */
module Restore {
  import opened Numbers
  import opened Wrappers

  type Path(==, !new)

  datatype Prefix = Bundles | Snapshots | Other

  /** A storage key, split at its first slash. */
  datatype Key = Key(prefix: Prefix, path: Path)

  datatype Entry = Entry(prefix: Prefix, key: Key, size: int)

  datatype FindingKind = MissingObject | SizeMismatch | OrphanObject | MetadataMismatch | CheckFailed

  datatype Finding = Finding(what: FindingKind, prefix: Prefix, key: Option<Key>, expected: Option<int>, actual: Option<int>)

  datatype Status = OK | Disabled | Degraded | Unhealthy

  datatype Artifact = Artifact(status: Status, truncated: bool)

  datatype Manifest = Manifest(artifacts: seq<Artifact>, objects: seq<Entry>)

  datatype Check = Check(status: Status, required: bool)

  datatype Report = Report(overall: Status, manifest: Manifest, artifacts: seq<Artifact>, findings: seq<Finding>)

  /** What the rehearsal looks at: rows in listing order, stored objects, and which calls fail. */
  datatype World = World(bundleRows: seq<Entry>, snapshotRows: seq<Entry>, rowsFail: set<Prefix>,
                         blobs: map<Key, int>, statFails: set<Key>,
                         listedBundles: seq<Entry>, listedSnapshots: seq<Entry>, listFails: set<Prefix>,
                         checks: seq<Check>)

  function RowsOf(w: World, p: Prefix): seq<Entry> { if p.Bundles? then w.bundleRows else w.snapshotRows }

  function ListedOf(w: World, p: Prefix): seq<Entry> { if p.Bundles? then w.listedBundles else w.listedSnapshots }

  const MAX_FINDINGS: nat := 50
  const DEFAULT_LIMIT: nat := 1000

  // ---------------------------------------------------------------- capped appends

  function Cap<T>(s: seq<T>): seq<T> { s[..Min(|s|, MAX_FINDINGS)] }

  lemma CapAppend<T>(a: seq<T>, b: seq<T>)
    ensures Cap(Cap(a) + b) == Cap(a + b)
    ensures Cap(a) == [] <==> a == []
  {
  }

  method AppendLimited(findings: seq<Finding>, next: seq<Finding>) returns (all: seq<Finding>)
    requires |findings| <= MAX_FINDINGS
    ensures all == Cap(findings + next)
  {
    all := findings;
    var i := 0;
    while i < |next|
      invariant 0 <= i <= |next|
      invariant all == findings + next[..i] && |all| <= MAX_FINDINGS
    {
      if |all| >= MAX_FINDINGS {
        assert all == Cap(findings + next);
        return;
      }
      all := all + [next[i]];
      i := i + 1;
    }
  }

  // ---------------------------------------------------------------- objects in storage

  function ProbeObject(w: World, e: Entry): (fs: seq<Finding>)
    ensures fs == [] <==> e.key !in w.statFails && e.key in w.blobs && w.blobs[e.key] == e.size
  {
    if e.key in w.statFails then [Finding(CheckFailed, e.prefix, Some(e.key), Some(e.size), None)]
    else if e.key !in w.blobs then [Finding(MissingObject, e.prefix, Some(e.key), Some(e.size), None)]
    else if w.blobs[e.key] != e.size then [Finding(SizeMismatch, e.prefix, Some(e.key), Some(e.size), Some(w.blobs[e.key]))]
    else []
  }

  /** All findings about stored objects, uncapped. */
  function Probes(w: World, es: seq<Entry>): seq<Finding> {
    if es == [] then [] else Probes(w, es[..|es| - 1]) + ProbeObject(w, es[|es| - 1])
  }

  ghost predicate Stored(w: World, e: Entry) {
    e.key !in w.statFails && e.key in w.blobs && w.blobs[e.key] == e.size
  }

  lemma {:induction false} ProbesClean(w: World, es: seq<Entry>)
    ensures Probes(w, es) == [] <==> forall i :: 0 <= i < |es| ==> Stored(w, es[i])
  {
    if es != [] {
      var n := |es| - 1;
      ProbesClean(w, es[..n]);
      assert ProbeObject(w, es[n]) == [] <==> Stored(w, es[n]);
      assert forall i :: 0 <= i < n ==> es[..n][i] == es[i];
    }
  }

  method VerifyRestoreObjects(w: World, objects: seq<Entry>) returns (findings: seq<Finding>)
    ensures findings == Cap(Probes(w, objects))
  {
    findings := [];
    var i := 0;
    while i < |objects|
      invariant 0 <= i <= |objects|
      invariant findings == Cap(Probes(w, objects[..i]))
    {
      assert objects[..i + 1][..i] == objects[..i];
      CapAppend(Probes(w, objects[..i]), ProbeObject(w, objects[i]));
      findings := AppendLimited(findings, ProbeObject(w, objects[i]));
      i := i + 1;
    }
    assert objects[..|objects|] == objects;
  }

  // ---------------------------------------------------------------- metadata

  /** `m[obj.Key] = obj` in order: the last entry of a key wins. */
  function ByKey(es: seq<Entry>): map<Key, int> {
    if es == [] then map[] else ByKey(es[..|es| - 1])[es[|es| - 1].key := es[|es| - 1].size]
  }

  lemma {:induction false} ByKeyKeys(es: seq<Entry>, k: Key)
    ensures k in ByKey(es) <==> exists i :: 0 <= i < |es| && es[i].key == k
    ensures k in ByKey(es) ==> exists i :: 0 <= i < |es| && es[i].key == k && es[i].size == ByKey(es)[k]
  {
    if es != [] {
      var n := |es| - 1;
      ByKeyKeys(es[..n], k);
      assert forall i :: 0 <= i < n ==> es[..n][i] == es[i];
      assert es[n].key == k ==> ByKey(es)[k] == es[n].size;
      if es[n].key != k && k in ByKey(es[..n]) {
        var i :| 0 <= i < n && es[..n][i].key == k && es[..n][i].size == ByKey(es[..n])[k];
        assert es[i].key == k && es[i].size == ByKey(es)[k];
      }
      if exists i :: 0 <= i < |es| && es[i].key == k {
        var i :| 0 <= i < |es| && es[i].key == k;
        assert i == n || es[..n][i].key == k;
      }
    }
  }

  function DiffExpected(e: Entry, current: map<Key, int>): seq<Finding> {
    if e.key !in current then [Finding(MetadataMismatch, e.prefix, Some(e.key), Some(e.size), None)]
    else if current[e.key] != e.size then [Finding(MetadataMismatch, e.prefix, Some(e.key), Some(e.size), Some(current[e.key]))]
    else []
  }

  function DiffCurrent(e: Entry, expected: map<Key, int>): seq<Finding> {
    if e.key in expected then [] else [Finding(MetadataMismatch, e.prefix, Some(e.key), None, Some(e.size))]
  }

  function LostOrChanged(es: seq<Entry>, current: map<Key, int>): seq<Finding> {
    if es == [] then [] else LostOrChanged(es[..|es| - 1], current) + DiffExpected(es[|es| - 1], current)
  }

  function Unexpected(es: seq<Entry>, expected: map<Key, int>): seq<Finding> {
    if es == [] then [] else Unexpected(es[..|es| - 1], expected) + DiffCurrent(es[|es| - 1], expected)
  }

  /** All differences between the manifest and the metadata, uncapped. */
  function Diffs(expected: seq<Entry>, current: seq<Entry>): seq<Finding> {
    LostOrChanged(expected, ByKey(current)) + Unexpected(current, ByKey(expected))
  }

  lemma {:induction false} LostOrChangedClean(es: seq<Entry>, current: map<Key, int>)
    ensures LostOrChanged(es, current) == [] <==> forall i :: 0 <= i < |es| ==> es[i].key in current && current[es[i].key] == es[i].size
  {
    if es != [] {
      var n := |es| - 1;
      LostOrChangedClean(es[..n], current);
      assert forall i :: 0 <= i < n ==> es[..n][i] == es[i];
    }
  }

  lemma {:induction false} UnexpectedClean(es: seq<Entry>, expected: map<Key, int>)
    ensures Unexpected(es, expected) == [] <==> forall i :: 0 <= i < |es| ==> es[i].key in expected
  {
    if es != [] {
      var n := |es| - 1;
      UnexpectedClean(es[..n], expected);
      assert forall i :: 0 <= i < n ==> es[..n][i] == es[i];
    }
  }

  /** Every entry of a key carries the same size. */
  ghost predicate Consistent(es: seq<Entry>) {
    forall i, j :: 0 <= i < |es| && 0 <= j < |es| && es[i].key == es[j].key ==> es[i].size == es[j].size
  }

  lemma AgreementIsClean(expected: seq<Entry>, current: seq<Entry>)
    requires Consistent(expected) && ByKey(expected) == ByKey(current)
    ensures Diffs(expected, current) == []
  {
    LostOrChangedClean(expected, ByKey(current));
    UnexpectedClean(current, ByKey(expected));
    forall i | 0 <= i < |expected| ensures expected[i].key in ByKey(current) && ByKey(current)[expected[i].key] == expected[i].size {
      ByKeyKeys(expected, expected[i].key);
    }
    forall i | 0 <= i < |current| ensures current[i].key in ByKey(expected) {
      ByKeyKeys(current, current[i].key);
    }
  }

  lemma CleanIsAgreement(expected: seq<Entry>, current: seq<Entry>)
    requires Diffs(expected, current) == []
    ensures Consistent(expected) && ByKey(expected) == ByKey(current)
  {
    LostOrChangedClean(expected, ByKey(current));
    UnexpectedClean(current, ByKey(expected));
    forall k ensures k in ByKey(expected) <==> k in ByKey(current) {
      ByKeyKeys(expected, k);
      ByKeyKeys(current, k);
    }
    forall k | k in ByKey(expected) ensures ByKey(expected)[k] == ByKey(current)[k] {
      ByKeyKeys(expected, k);
    }
  }

  /** No difference is found exactly when both sides map the same keys to the same sizes. */
  lemma DiffsClean(expected: seq<Entry>, current: seq<Entry>)
    ensures Diffs(expected, current) == [] <==> Consistent(expected) && ByKey(expected) == ByKey(current)
  {
    hide Diffs, Consistent, ByKey;
    if Diffs(expected, current) == [] { CleanIsAgreement(expected, current); }
    if Consistent(expected) && ByKey(expected) == ByKey(current) { AgreementIsClean(expected, current); }
  }

  method CompareRestoreMetadata(expected: seq<Entry>, current: seq<Entry>) returns (findings: seq<Finding>)
    ensures findings == Cap(Diffs(expected, current))
  {
    var expectedByKey := IndexByKey(expected);
    var currentByKey := IndexByKey(current);
    findings := [];
    var i := 0;
    while i < |expected|
      invariant 0 <= i <= |expected|
      invariant findings == Cap(LostOrChanged(expected[..i], currentByKey))
    {
      var e := expected[i];
      assert expected[..i + 1][..i] == expected[..i];
      CapAppend(LostOrChanged(expected[..i], currentByKey), DiffExpected(e, currentByKey));
      if e.key !in currentByKey {
        findings := AppendLimited(findings, [Finding(MetadataMismatch, e.prefix, Some(e.key), Some(e.size), None)]);
      } else if currentByKey[e.key] != e.size {
        findings := AppendLimited(findings, [Finding(MetadataMismatch, e.prefix, Some(e.key), Some(e.size), Some(currentByKey[e.key]))]);
      }
      i := i + 1;
    }
    assert expected[..|expected|] == expected;
    ghost var lost := LostOrChanged(expected, currentByKey);
    i := 0;
    while i < |current|
      invariant 0 <= i <= |current|
      invariant findings == Cap(lost + Unexpected(current[..i], expectedByKey))
    {
      var c := current[i];
      assert current[..i + 1][..i] == current[..i];
      CapAppend(lost + Unexpected(current[..i], expectedByKey), DiffCurrent(c, expectedByKey));
      assert lost + Unexpected(current[..i], expectedByKey) + DiffCurrent(c, expectedByKey) == lost + Unexpected(current[..i + 1], expectedByKey);
      if c.key !in expectedByKey {
        findings := AppendLimited(findings, [Finding(MetadataMismatch, c.prefix, Some(c.key), None, Some(c.size))]);
      }
      i := i + 1;
    }
    assert current[..|current|] == current;
  }

  method IndexByKey(es: seq<Entry>) returns (m: map<Key, int>)
    ensures m == ByKey(es)
  {
    m := map[];
    var i := 0;
    while i < |es|
      invariant 0 <= i <= |es| && m == ByKey(es[..i])
    {
      assert es[..i + 1][..i] == es[..i];
      m := m[es[i].key := es[i].size];
      i := i + 1;
    }
    assert es[..|es|] == es;
  }

  // ---------------------------------------------------------------- orphans

  function StrayOf(e: Entry, expected: map<Key, int>): seq<Finding> {
    if e.key in expected then [] else [Finding(OrphanObject, e.key.prefix, Some(e.key), None, Some(e.size))]
  }

  function Strays(es: seq<Entry>, expected: map<Key, int>): seq<Finding> {
    if es == [] then [] else Strays(es[..|es| - 1], expected) + StrayOf(es[|es| - 1], expected)
  }

  function OrphansUnder(w: World, p: Prefix, expected: map<Key, int>): seq<Finding> {
    if p in w.listFails then [Finding(CheckFailed, p, None, None, None)] else Strays(ListedOf(w, p), expected)
  }

  /** All orphan findings, uncapped. */
  function Orphans(w: World, expected: map<Key, int>): seq<Finding> {
    OrphansUnder(w, Bundles, expected) + OrphansUnder(w, Snapshots, expected)
  }

  lemma {:induction false} StraysClean(es: seq<Entry>, expected: map<Key, int>)
    ensures Strays(es, expected) == [] <==> forall i :: 0 <= i < |es| ==> es[i].key in expected
  {
    if es != [] {
      var n := |es| - 1;
      StraysClean(es[..n], expected);
      assert forall i :: 0 <= i < n ==> es[..n][i] == es[i];
    }
  }

  /** Both listings succeed and name nothing outside `expected`. */
  ghost predicate NothingElse(w: World, expected: map<Key, int>) {
    && Bundles !in w.listFails && Snapshots !in w.listFails
    && (forall i :: 0 <= i < |w.listedBundles| ==> w.listedBundles[i].key in expected)
    && (forall i :: 0 <= i < |w.listedSnapshots| ==> w.listedSnapshots[i].key in expected)
  }

  lemma OrphansClean(w: World, expected: map<Key, int>)
    ensures Orphans(w, expected) == [] <==> NothingElse(w, expected)
  {
    StraysClean(w.listedBundles, expected);
    StraysClean(w.listedSnapshots, expected);
  }

  method FindRestoreOrphans(w: World, objects: seq<Entry>, truncated: bool) returns (findings: seq<Finding>)
    ensures findings == if truncated then [] else Cap(Orphans(w, ByKey(objects)))
  {
    if truncated {
      return [];
    }
    var expected := IndexByKey(objects);
    findings := [];
    findings := OrphansOfPrefix(w, Bundles, expected, [], findings);
    assert [] + OrphansUnder(w, Bundles, expected) == OrphansUnder(w, Bundles, expected);
    findings := OrphansOfPrefix(w, Snapshots, expected, OrphansUnder(w, Bundles, expected), findings);
  }

  /** One turn of the loop over the two prefixes. */
  method OrphansOfPrefix(w: World, p: Prefix, expected: map<Key, int>, ghost before: seq<Finding>, found: seq<Finding>)
    returns (findings: seq<Finding>)
    requires found == Cap(before)
    ensures findings == Cap(before + OrphansUnder(w, p, expected))
  {
    findings := found;
    if p in w.listFails {
      CapAppend(before, [Finding(CheckFailed, p, None, None, None)]);
      findings := AppendLimited(findings, [Finding(CheckFailed, p, None, None, None)]);
      return;
    }
    var listed := ListedOf(w, p);
    var i := 0;
    assert before + [] == before;
    while i < |listed|
      invariant 0 <= i <= |listed|
      invariant findings == Cap(before + Strays(listed[..i], expected))
    {
      var e := listed[i];
      assert listed[..i + 1][..i] == listed[..i];
      CapAppend(before + Strays(listed[..i], expected), StrayOf(e, expected));
      assert before + Strays(listed[..i], expected) + StrayOf(e, expected) == before + Strays(listed[..i + 1], expected);
      if e.key !in expected {
        findings := AppendLimited(findings, [Finding(OrphanObject, e.key.prefix, Some(e.key), None, Some(e.size))]);
      }
      i := i + 1;
    }
    assert listed[..|listed|] == listed;
  }

  // ---------------------------------------------------------------- verdict

  ghost predicate Grave(f: Finding) { !f.what.OrphanObject? }

  ghost predicate HasGrave(findings: seq<Finding>) { exists i :: 0 <= i < |findings| && Grave(findings[i]) }

  /** The three-valued verdict, stated by what it means. */
  ghost predicate IsOverall(r: Status, findings: seq<Finding>, artifacts: seq<Artifact>, checks: seq<Check>) {
    && !r.Disabled?
    && (r == Unhealthy <==> HasGrave(findings)
                            || (exists i :: 0 <= i < |artifacts| && artifacts[i].status !in {OK, Degraded})
                            || (exists i :: 0 <= i < |checks| && checks[i] == Check(Unhealthy, true)))
    && (r == OK <==> findings == [] && (forall i :: 0 <= i < |artifacts| ==> artifacts[i].status == OK)
                     && (forall i :: 0 <= i < |checks| ==> checks[i].status in {OK, Disabled}))
  }

  method RestoreOverall(findings: seq<Finding>, artifacts: seq<Artifact>, checks: seq<Check>) returns (r: Status)
    ensures IsOverall(r, findings, artifacts, checks)
  {
    var grave, orphans := 0, 0;
    var i := 0;
    while i < |findings|
      invariant 0 <= i <= |findings| && grave >= 0 && orphans >= 0 && grave + orphans == i
      invariant grave > 0 <==> exists k :: 0 <= k < i && Grave(findings[k])
    {
      assert Grave(findings[i]) || !Grave(findings[i]);
      if findings[i].what == OrphanObject { orphans := orphans + 1; } else { grave := grave + 1; }
      i := i + 1;
    }
    if grave > 0 {
      return Unhealthy;
    }
    r := if orphans > 0 then Degraded else OK;
    i := 0;
    while i < |artifacts|
      invariant 0 <= i <= |artifacts| && r in {OK, Degraded}
      invariant forall k :: 0 <= k < i ==> artifacts[k].status in {OK, Degraded}
      invariant r == OK <==> findings == [] && forall k :: 0 <= k < i ==> artifacts[k].status == OK
    {
      if artifacts[i].status == Degraded {
        r := Degraded;
      } else if artifacts[i].status != OK {
        return Unhealthy;
      }
      i := i + 1;
    }
    i := 0;
    while i < |checks|
      invariant 0 <= i <= |checks| && r in {OK, Degraded}
      invariant forall k :: 0 <= k < i ==> checks[k] != Check(Unhealthy, true)
      invariant r == OK <==> findings == [] && (forall k :: 0 <= k < |artifacts| ==> artifacts[k].status == OK)
                             && (forall k :: 0 <= k < i ==> checks[k].status in {OK, Disabled})
    {
      if checks[i].status == Unhealthy {
        if checks[i].required { return Unhealthy; }
        r := Degraded;
      } else if checks[i].status == Degraded {
        r := Degraded;
      }
      i := i + 1;
    }
  }

  // ---------------------------------------------------------------- the rehearsal

  function Normalize(limit: int): nat {
    if limit <= 0 || limit > DEFAULT_LIMIT then DEFAULT_LIMIT else limit
  }

  function Sampled(rows: seq<Entry>, limit: nat): seq<Entry> { rows[..Min(|rows|, limit)] }

  function ArtifactOf(w: World, p: Prefix, limit: nat): Artifact {
    if p in w.rowsFail then Artifact(Unhealthy, false)
    else if |RowsOf(w, p)| > limit then Artifact(Degraded, true)
    else Artifact(OK, false)
  }

  function ObjectsOf(w: World, p: Prefix, limit: nat): seq<Entry> {
    if p in w.rowsFail then [] else Sampled(RowsOf(w, p), limit)
  }

  function Artifacts(w: World, limit: nat): seq<Artifact> { [ArtifactOf(w, Bundles, limit), ArtifactOf(w, Snapshots, limit)] }

  function Objects(w: World, limit: nat): seq<Entry> { ObjectsOf(w, Bundles, limit) + ObjectsOf(w, Snapshots, limit) }

  predicate Truncated(artifacts: seq<Artifact>) { exists i :: 0 <= i < |artifacts| && artifacts[i].truncated }

  /** A verification widens its limit to a manifest that is longer but within bounds. */
  function VerifyLimit(limit: int, m: Manifest): nat {
    if |m.objects| > Normalize(limit) && |m.objects| <= DEFAULT_LIMIT then |m.objects| else Normalize(limit)
  }

  function VerifyFindings(w: World, m: Manifest, limit: nat): seq<Finding> {
    (if Truncated(Artifacts(w, limit)) then [] else Cap(Diffs(m.objects, Objects(w, limit))))
    + Cap(Probes(w, m.objects))
    + (if Truncated(Artifacts(w, limit)) || Truncated(m.artifacts) then [] else Cap(Orphans(w, ByKey(m.objects))))
  }

  function BaselineFindings(w: World, limit: nat): seq<Finding> {
    Cap(Probes(w, ObjectsOf(w, Bundles, limit))) + Cap(Probes(w, ObjectsOf(w, Snapshots, limit)))
    + (if Truncated(Artifacts(w, limit)) then [] else Cap(Orphans(w, ByKey(Objects(w, limit)))))
  }

  method RestoreManifest(w: World, p: Prefix, limit: nat, checkObjects: bool)
    returns (artifact: Artifact, objects: seq<Entry>, findings: seq<Finding>)
    ensures artifact == ArtifactOf(w, p, limit) && objects == ObjectsOf(w, p, limit)
    ensures findings == if checkObjects then Cap(Probes(w, objects)) else []
  {
    if p in w.rowsFail {
      return Artifact(Unhealthy, false), [], [];
    }
    var total := |RowsOf(w, p)|;
    var metas := Sampled(RowsOf(w, p), limit);
    objects, findings := [], [];
    var i := 0;
    while i < |metas|
      invariant 0 <= i <= |metas| && objects == metas[..i]
      invariant findings == if checkObjects then Cap(Probes(w, metas[..i])) else []
    {
      assert metas[..i + 1][..i] == metas[..i];
      objects := objects + [metas[i]];
      if checkObjects {
        CapAppend(Probes(w, metas[..i]), ProbeObject(w, metas[i]));
        findings := AppendLimited(findings, ProbeObject(w, metas[i]));
      }
      i := i + 1;
    }
    assert metas[..|metas|] == metas;
    artifact := if total > |metas| then Artifact(Degraded, true) else Artifact(OK, false);
  }

  method RestoreRehearsal(w: World, baseline: Option<Manifest>, limit: int) returns (report: Report)
    ensures baseline.Some? ==> report.manifest == baseline.value
    ensures baseline.Some? ==> report.artifacts == Artifacts(w, VerifyLimit(limit, baseline.value))
    ensures baseline.Some? ==> report.findings == VerifyFindings(w, baseline.value, VerifyLimit(limit, baseline.value))
    ensures baseline.None? ==> report.manifest == Manifest(report.artifacts, Objects(w, Normalize(limit)))
    ensures baseline.None? ==> report.artifacts == Artifacts(w, Normalize(limit))
    ensures baseline.None? ==> report.findings == BaselineFindings(w, Normalize(limit))
    ensures IsOverall(report.overall, report.findings, report.artifacts, w.checks)
  {
    hide Probes, Orphans, Diffs, ByKey, IsOverall;
    var bound := Normalize(limit);
    var findings: seq<Finding> := [];
    var artifacts, manifest;
    match baseline {
    case None =>
      var bundleArtifact, bundles, bundleFindings := RestoreManifest(w, Bundles, bound, true);
      var snapshotArtifact, snapshots, snapshotFindings := RestoreManifest(w, Snapshots, bound, true);
      artifacts := [bundleArtifact, snapshotArtifact];
      manifest := Manifest(artifacts, bundles + snapshots);
      findings := bundleFindings + snapshotFindings;
    case Some(m) =>
      manifest := m;
      var verifyLimit := bound;
      if |m.objects| > verifyLimit && |m.objects| <= DEFAULT_LIMIT {
        verifyLimit := |m.objects|;
      }
      var bundleArtifact, bundles, _ := RestoreManifest(w, Bundles, verifyLimit, false);
      var snapshotArtifact, snapshots, _ := RestoreManifest(w, Snapshots, verifyLimit, false);
      artifacts := [bundleArtifact, snapshotArtifact];
      if !Truncated(artifacts) {
        findings := CompareRestoreMetadata(m.objects, bundles + snapshots);
      }
      var probed := VerifyRestoreObjects(w, m.objects);
      findings := findings + probed;
    }
    var orphans := FindRestoreOrphans(w, manifest.objects, Truncated(artifacts) || Truncated(manifest.artifacts));
    findings := findings + orphans;
    var overall := RestoreOverall(findings, artifacts, w.checks);
    report := Report(overall, manifest, artifacts, findings);
  }

  // ---------------------------------------------------------------- theorems about the verdict

  /** Metadata, manifest and storage agree: same keys, same sizes, every object stored. */
  ghost predicate Agrees(w: World, m: Manifest) {
    && Consistent(m.objects) && ByKey(m.objects) == ByKey(w.bundleRows + w.snapshotRows)
    && (forall i :: 0 <= i < |m.objects| ==> Stored(w, m.objects[i]))
  }

  ghost predicate RowsReadable(w: World, limit: nat) {
    Bundles !in w.rowsFail && Snapshots !in w.rowsFail && |w.bundleRows| <= limit && |w.snapshotRows| <= limit
  }

  lemma ReadableRows(w: World, limit: nat)
    ensures RowsReadable(w, limit) <==> forall i :: 0 <= i < 2 ==> Artifacts(w, limit)[i].status == OK
    ensures RowsReadable(w, limit) ==> !Truncated(Artifacts(w, limit)) && Objects(w, limit) == w.bundleRows + w.snapshotRows
    ensures RowsReadable(w, limit) ==> ObjectsOf(w, Bundles, limit) == w.bundleRows && ObjectsOf(w, Snapshots, limit) == w.snapshotRows
  {
    assert Artifacts(w, limit)[0] == ArtifactOf(w, Bundles, limit);
    assert Artifacts(w, limit)[1] == ArtifactOf(w, Snapshots, limit);
  }

  /** Zero findings exactly when everything agrees and nothing else is listed. */
  lemma VerifyIsExact(w: World, m: Manifest, limit: nat)
    requires RowsReadable(w, limit)
    ensures VerifyFindings(w, m, limit) == [] <==> Agrees(w, m) && (Truncated(m.artifacts) || NothingElse(w, ByKey(m.objects)))
  {
    ReadableRows(w, limit);
    DiffsClean(m.objects, Objects(w, limit));
    ProbesClean(w, m.objects);
    OrphansClean(w, ByKey(m.objects));
    CapAppend(Diffs(m.objects, Objects(w, limit)), []);
    CapAppend(Probes(w, m.objects), []);
    CapAppend(Orphans(w, ByKey(m.objects)), []);
  }

  /** The clean verdict is sound and complete, caps and truncated samples included. */
  lemma VerifyOkIsExact(w: World, m: Manifest, limit: nat, r: Status)
    requires IsOverall(r, VerifyFindings(w, m, limit), Artifacts(w, limit), w.checks)
    ensures r == OK <==>
            && RowsReadable(w, limit) && Agrees(w, m) && (Truncated(m.artifacts) || NothingElse(w, ByKey(m.objects)))
            && (forall i :: 0 <= i < |w.checks| ==> w.checks[i].status in {OK, Disabled})
  {
    ReadableRows(w, limit);
    if RowsReadable(w, limit) {
      VerifyIsExact(w, m, limit);
    }
  }

  /** A listing is complete when it names exactly the stored objects under its prefix. */
  ghost predicate CompleteListing(w: World, p: Prefix) {
    && (forall i :: 0 <= i < |ListedOf(w, p)| ==> ListedOf(w, p)[i].key in w.blobs && ListedOf(w, p)[i].key.prefix == p)
    && (forall k :: k in w.blobs && k.prefix == p ==> exists i :: 0 <= i < |ListedOf(w, p)| && ListedOf(w, p)[i].key == k)
  }

  /** With complete listings and a full manifest, zero findings means that the rows, the manifest
      and the stored bundles and snapshots are one and the same map. */
  lemma CleanMeansSameMaps(w: World, m: Manifest, limit: nat)
    requires RowsReadable(w, limit) && !Truncated(m.artifacts)
    requires CompleteListing(w, Bundles) && CompleteListing(w, Snapshots) && VerifyFindings(w, m, limit) == []
    ensures forall k :: k in w.blobs && k.prefix != Other ==> k in ByKey(w.bundleRows + w.snapshotRows)
    ensures forall k :: k in ByKey(w.bundleRows + w.snapshotRows) ==> k in w.blobs && w.blobs[k] == ByKey(w.bundleRows + w.snapshotRows)[k]
  {
    hide VerifyFindings;
    VerifyIsExact(w, m, limit);
    forall k | k in ByKey(m.objects) ensures k in w.blobs && w.blobs[k] == ByKey(m.objects)[k] {
      ByKeyKeys(m.objects, k);
      var i :| 0 <= i < |m.objects| && m.objects[i].key == k && m.objects[i].size == ByKey(m.objects)[k];
      assert Stored(w, m.objects[i]);
    }
  }

  /** Storage holds every row's object with its size and nothing else under the two prefixes. */
  ghost predicate Intact(w: World) {
    && Consistent(w.bundleRows + w.snapshotRows)
    && (forall i :: 0 <= i < |w.bundleRows| ==> Stored(w, w.bundleRows[i]))
    && (forall i :: 0 <= i < |w.snapshotRows| ==> Stored(w, w.snapshotRows[i]))
    && NothingElse(w, ByKey(w.bundleRows + w.snapshotRows))
  }

  lemma IntactBaseline(w: World, limit: nat)
    requires RowsReadable(w, limit) && Intact(w)
    ensures BaselineFindings(w, limit) == []
  {
    var all := w.bundleRows + w.snapshotRows;
    ReadableRows(w, limit);
    hide Artifacts, Objects, Truncated, Consistent, Stored, NothingElse, Probes, Orphans, ByKey;
    ProbesClean(w, w.bundleRows);
    ProbesClean(w, w.snapshotRows);
    OrphansClean(w, ByKey(all));
  }

  lemma IntactVerify(w: World, m: Manifest, limit: nat)
    requires RowsReadable(w, limit) && Intact(w) && m.objects == w.bundleRows + w.snapshotRows
    ensures VerifyFindings(w, m, limit) == []
  {
    hide VerifyFindings, NothingElse;
    VerifyIsExact(w, m, limit);
  }

  /** A baseline of an intact state is clean, and so is a verification against it. */
  lemma BaselineThenVerify(w: World, limit: int, later: int)
    requires RowsReadable(w, Normalize(limit)) && Intact(w)
    requires Normalize(later) >= Normalize(limit) || |Objects(w, Normalize(limit))| <= DEFAULT_LIMIT
    ensures BaselineFindings(w, Normalize(limit)) == []
    ensures var m := Manifest(Artifacts(w, Normalize(limit)), Objects(w, Normalize(limit)));
            VerifyFindings(w, m, VerifyLimit(later, m)) == [] && RowsReadable(w, VerifyLimit(later, m))
  {
    hide VerifyFindings, BaselineFindings, Intact, Artifacts, Objects, Truncated;
    var m := Manifest(Artifacts(w, Normalize(limit)), Objects(w, Normalize(limit)));
    ReadableRows(w, Normalize(limit));
    IntactBaseline(w, Normalize(limit));
    IntactVerify(w, m, VerifyLimit(later, m));
  }

  // ---------------------------------------------------------------- what the cap does to the verdict

  lemma {:induction false} NoGraveStray(es: seq<Entry>, m: map<Key, int>)
    ensures !HasGrave(Strays(es, m))
  {
    if es != [] {
      NoGraveStray(es[..|es| - 1], m);
      var a, b := Strays(es[..|es| - 1], m), StrayOf(es[|es| - 1], m);
      forall i | 0 <= i < |a + b| ensures !Grave((a + b)[i]) {
        assert (a + b)[i] == if i < |a| then a[i] else b[i - |a|];
      }
    }
  }

  lemma HasGraveSum(a: seq<Finding>, b: seq<Finding>)
    ensures HasGrave(a + b) <==> HasGrave(a) || HasGrave(b)
  {
    if HasGrave(a) {
      var i :| 0 <= i < |a| && Grave(a[i]);
      assert Grave((a + b)[i]);
    }
    if HasGrave(b) {
      var i :| 0 <= i < |b| && Grave(b[i]);
      assert Grave((a + b)[|a| + i]);
    }
  }

  /** The stray bundles fill the findings of the stage before the failed listing of snapshots. */
  ghost predicate Hidden(w: World, m: map<Key, int>) {
    Bundles !in w.listFails && Snapshots in w.listFails && |Strays(w.listedBundles, m)| >= MAX_FINDINGS
  }

  /** The orphan stage is grave exactly when a listing fails, and its cap loses that exactly when
      the failure is hidden. */
  lemma CapKeepsGraveExactly(w: World, m: map<Key, int>)
    ensures HasGrave(Orphans(w, m)) <==> Bundles in w.listFails || Snapshots in w.listFails
    ensures HasGrave(Cap(Orphans(w, m))) <==> HasGrave(Orphans(w, m)) && !Hidden(w, m)
    ensures Hidden(w, m) ==> HasGrave(Orphans(w, m))
  {
    hide Strays;
    var b, s := OrphansUnder(w, Bundles, m), OrphansUnder(w, Snapshots, m);
    NoGraveStray(w.listedBundles, m);
    NoGraveStray(w.listedSnapshots, m);
    HasGraveSum(b, s);
    if Bundles in w.listFails {
      assert Grave(b[0]) && Cap(b + s)[0] == b[0];
    } else if Snapshots in w.listFails {
      assert Grave(s[0]);
      if |b| < MAX_FINDINGS {
        assert Cap(b + s)[|b|] == s[0];
      } else {
        assert Cap(b + s) == b[..MAX_FINDINGS];
        assert forall i :: 0 <= i < MAX_FINDINGS ==> !Grave(b[i]);
      }
    } else {
      assert forall i :: 0 <= i < |Cap(b + s)| ==> Cap(b + s)[i] == (b + s)[i];
    }
  }

  /** Every finding about a stored object is grave. */
  lemma {:induction false} ProbesAreGrave(w: World, es: seq<Entry>)
    ensures forall i :: 0 <= i < |Probes(w, es)| ==> Grave(Probes(w, es)[i])
  {
    if es != [] { ProbesAreGrave(w, es[..|es| - 1]); }
  }

  lemma {:induction false} LostOrChangedAreGrave(es: seq<Entry>, m: map<Key, int>)
    ensures forall i :: 0 <= i < |LostOrChanged(es, m)| ==> Grave(LostOrChanged(es, m)[i])
  {
    if es != [] { LostOrChangedAreGrave(es[..|es| - 1], m); }
  }

  lemma {:induction false} UnexpectedAreGrave(es: seq<Entry>, m: map<Key, int>)
    ensures forall i :: 0 <= i < |Unexpected(es, m)| ==> Grave(Unexpected(es, m)[i])
  {
    if es != [] { UnexpectedAreGrave(es[..|es| - 1], m); }
  }

  /** Where every finding is grave the cap does not change whether there is one. */
  lemma AllGrave(fs: seq<Finding>)
    requires forall i :: 0 <= i < |fs| ==> Grave(fs[i])
    ensures HasGrave(fs) <==> fs != []
    ensures HasGrave(Cap(fs)) <==> fs != []
  {
    if fs != [] { assert Grave(fs[0]) && Cap(fs)[0] == fs[0]; }
  }

  lemma ProbesSeverity(w: World, es: seq<Entry>)
    ensures HasGrave(Probes(w, es)) <==> Probes(w, es) != []
    ensures HasGrave(Cap(Probes(w, es))) <==> Probes(w, es) != []
  {
    ProbesAreGrave(w, es);
    AllGrave(Probes(w, es));
  }

  lemma DiffsSeverity(expected: seq<Entry>, current: seq<Entry>)
    ensures HasGrave(Diffs(expected, current)) <==> Diffs(expected, current) != []
    ensures HasGrave(Cap(Diffs(expected, current))) <==> Diffs(expected, current) != []
  {
    LostOrChangedAreGrave(expected, ByKey(current));
    UnexpectedAreGrave(current, ByKey(expected));
    AllGrave(Diffs(expected, current));
  }

  ghost predicate NothingUnhealthy(artifacts: seq<Artifact>, checks: seq<Check>) {
    && (forall i :: 0 <= i < |artifacts| ==> artifacts[i].status in {OK, Degraded})
    && (forall i :: 0 <= i < |checks| ==> checks[i] != Check(Unhealthy, true))
  }

  /** The verdict depends on the findings only through whether there are any and whether one is grave. */
  lemma VerdictsDiffer(a: seq<Finding>, b: seq<Finding>, artifacts: seq<Artifact>, checks: seq<Check>, r: Status, u: Status)
    requires IsOverall(r, a, artifacts, checks) && IsOverall(u, b, artifacts, checks)
    requires (a == [] <==> b == []) && (HasGrave(a) ==> HasGrave(b))
    ensures r != u <==> HasGrave(b) && !HasGrave(a) && NothingUnhealthy(artifacts, checks)
    ensures r != u ==> r == Degraded && u == Unhealthy
  {
  }

  /** What a verification would report without the caps. */
  function AllVerifyFindings(w: World, m: Manifest, limit: nat): seq<Finding> {
    (if Truncated(Artifacts(w, limit)) then [] else Diffs(m.objects, Objects(w, limit)))
    + Probes(w, m.objects)
    + (if Truncated(Artifacts(w, limit)) || Truncated(m.artifacts) then [] else Orphans(w, ByKey(m.objects)))
  }

  /** What a baseline would report without the caps. */
  function AllBaselineFindings(w: World, limit: nat): seq<Finding> {
    Probes(w, ObjectsOf(w, Bundles, limit)) + Probes(w, ObjectsOf(w, Snapshots, limit))
    + (if Truncated(Artifacts(w, limit)) then [] else Orphans(w, ByKey(Objects(w, limit))))
  }

  lemma VerifySeverity(w: World, m: Manifest, limit: nat)
    ensures var a, b := VerifyFindings(w, m, limit), AllVerifyFindings(w, m, limit);
            && (a == [] <==> b == []) && (HasGrave(a) ==> HasGrave(b))
            && (HasGrave(b) && !HasGrave(a) <==>
                  && !Truncated(Artifacts(w, limit)) && !Truncated(m.artifacts) && Hidden(w, ByKey(m.objects))
                  && Diffs(m.objects, Objects(w, limit)) == [] && Probes(w, m.objects) == [])
  {
    var ds, ps, os := Diffs(m.objects, Objects(w, limit)), Probes(w, m.objects), Orphans(w, ByKey(m.objects));
    CapKeepsGraveExactly(w, ByKey(m.objects));
    DiffsSeverity(m.objects, Objects(w, limit));
    ProbesSeverity(w, m.objects);
    hide Diffs, Probes, Orphans, HasGrave, Hidden, Artifacts, Objects, Truncated;
    var d := if Truncated(Artifacts(w, limit)) then [] else ds;
    var o := if Truncated(Artifacts(w, limit)) || Truncated(m.artifacts) then [] else os;
    HasGraveSum(d + ps, o);
    HasGraveSum(d, ps);
    HasGraveSum(Cap(d) + Cap(ps), Cap(o));
    HasGraveSum(Cap(d), Cap(ps));
    NoneGrave();
    assert VerifyFindings(w, m, limit) == Cap(d) + Cap(ps) + Cap(o);
    assert AllVerifyFindings(w, m, limit) == d + ps + o;
  }

  lemma NoneGrave()
    ensures !HasGrave([]) && !HasGrave(Cap([]))
  {
  }

  /** Exactly when the caps change the verdict of a verification: readable, untruncated metadata
      that agrees with the storage, no failed required check, and a hidden listing failure. It
      then reads degraded instead of unhealthy. */
  lemma CapChangesVerifyExactly(w: World, m: Manifest, limit: nat, r: Status, u: Status)
    requires IsOverall(r, VerifyFindings(w, m, limit), Artifacts(w, limit), w.checks)
    requires IsOverall(u, AllVerifyFindings(w, m, limit), Artifacts(w, limit), w.checks)
    ensures r != u <==>
            && RowsReadable(w, limit) && Agrees(w, m) && !Truncated(m.artifacts) && Hidden(w, ByKey(m.objects))
            && (forall i :: 0 <= i < |w.checks| ==> w.checks[i] != Check(Unhealthy, true))
    ensures r != u ==> r == Degraded && u == Unhealthy
  {
    hide VerifyFindings, AllVerifyFindings, IsOverall, HasGrave, Hidden, RowsReadable, Artifacts, Truncated, Objects, Diffs, Probes,
         ByKey, Stored, Consistent;
    VerifySeverity(w, m, limit);
    VerdictsDiffer(VerifyFindings(w, m, limit), AllVerifyFindings(w, m, limit), Artifacts(w, limit), w.checks, r, u);
    ReadableExactly(w, limit);
    ReadableRows(w, limit);
    DiffsClean(m.objects, Objects(w, limit));
    ProbesClean(w, m.objects);
  }

  lemma ReadableExactly(w: World, limit: nat)
    ensures RowsReadable(w, limit) <==> !Truncated(Artifacts(w, limit))
                                        && forall i :: 0 <= i < |Artifacts(w, limit)| ==> Artifacts(w, limit)[i].status in {OK, Degraded}
  {
    var a := Artifacts(w, limit);
    assert a[0] == ArtifactOf(w, Bundles, limit) && a[1] == ArtifactOf(w, Snapshots, limit);
    assert a[0].truncated || a[1].truncated <==> Truncated(a);
  }

  /** And exactly when they change the verdict of a baseline. */
  lemma CapChangesBaselineExactly(w: World, limit: nat, r: Status, u: Status)
    requires IsOverall(r, BaselineFindings(w, limit), Artifacts(w, limit), w.checks)
    requires IsOverall(u, AllBaselineFindings(w, limit), Artifacts(w, limit), w.checks)
    ensures r != u <==>
            && RowsReadable(w, limit) && Hidden(w, ByKey(w.bundleRows + w.snapshotRows))
            && (forall i :: 0 <= i < |w.bundleRows| ==> Stored(w, w.bundleRows[i]))
            && (forall i :: 0 <= i < |w.snapshotRows| ==> Stored(w, w.snapshotRows[i]))
            && (forall i :: 0 <= i < |w.checks| ==> w.checks[i] != Check(Unhealthy, true))
    ensures r != u ==> r == Degraded && u == Unhealthy
  {
    hide BaselineFindings, AllBaselineFindings, IsOverall, HasGrave, Hidden, RowsReadable, Artifacts, Truncated, Objects, ObjectsOf,
         Probes, ByKey, Stored;
    BaselineSeverity(w, limit);
    VerdictsDiffer(BaselineFindings(w, limit), AllBaselineFindings(w, limit), Artifacts(w, limit), w.checks, r, u);
    ReadableExactly(w, limit);
    ReadableRows(w, limit);
    ProbesClean(w, w.bundleRows);
    ProbesClean(w, w.snapshotRows);
  }

  lemma BaselineSeverity(w: World, limit: nat)
    ensures var a, b := BaselineFindings(w, limit), AllBaselineFindings(w, limit);
            && (a == [] <==> b == []) && (HasGrave(a) ==> HasGrave(b))
            && (HasGrave(b) && !HasGrave(a) <==>
                  && !Truncated(Artifacts(w, limit)) && Hidden(w, ByKey(Objects(w, limit)))
                  && Probes(w, ObjectsOf(w, Bundles, limit)) == [] && Probes(w, ObjectsOf(w, Snapshots, limit)) == [])
  {
    var bs, ss := Probes(w, ObjectsOf(w, Bundles, limit)), Probes(w, ObjectsOf(w, Snapshots, limit));
    var o := if Truncated(Artifacts(w, limit)) then [] else Orphans(w, ByKey(Objects(w, limit)));
    CapKeepsGraveExactly(w, ByKey(Objects(w, limit)));
    ProbesSeverity(w, ObjectsOf(w, Bundles, limit));
    ProbesSeverity(w, ObjectsOf(w, Snapshots, limit));
    NoneGrave();
    hide Probes, Orphans, HasGrave, Hidden, Artifacts, Objects, Truncated;
    HasGraveSum(bs + ss, o);
    HasGraveSum(bs, ss);
    HasGraveSum(Cap(bs) + Cap(ss), Cap(o));
    HasGraveSum(Cap(bs), Cap(ss));
  }

  /** The cap is not neutral for the severity: 50 stray bundles hide that the snapshot listing
      failed, and the stage reads as degraded instead of unhealthy. */
  lemma CapHidesListFailure(w: World, m: Manifest, r: Status)
    requires m.objects == [] && m.artifacts == [] && w.bundleRows == [] && w.snapshotRows == [] && w.rowsFail == {}
    requires w.listFails == {Snapshots} && |w.listedBundles| == MAX_FINDINGS && w.checks == []
    requires IsOverall(r, VerifyFindings(w, m, DEFAULT_LIMIT), Artifacts(w, DEFAULT_LIMIT), w.checks)
    ensures r == Degraded
    ensures HasGrave(Orphans(w, map[]))
  {
    var o := Orphans(w, map[]);
    AllStrays(w.listedBundles);
    CapKeepsGraveExactly(w, map[]);
    assert Hidden(w, map[]) && HasGrave(o) && Cap(o) != [];
    assert ByKey(m.objects) == map[] && Probes(w, m.objects) == [] && ObjectsOf(w, Bundles, DEFAULT_LIMIT) == [];
    hide Orphans, HasGrave, Hidden, Strays, Cap;
    assert Diffs(m.objects, Objects(w, DEFAULT_LIMIT)) == [];
    CapAppend<Finding>([], []);
    assert VerifyFindings(w, m, DEFAULT_LIMIT) == Cap(o);
  }

  lemma {:induction false} AllStrays(es: seq<Entry>)
    ensures |Strays(es, map[])| == |es|
    ensures forall i :: 0 <= i < |es| ==> !Grave(Strays(es, map[])[i])
  {
    if es != [] { AllStrays(es[..|es| - 1]); }
  }
}
