/**
 Where the promises stop: concrete runs that break them, and the exact step that orphans
 a blob.
 */
module Incidents {
  import opened Wrappers
  import opened MapSum
  import opened Lifecycle
  import opened Ledger
  import opened Custody

  /** One user with a tier and nothing stored. */
  ghost function Fresh(u: User, tier: Tier): Server {
    Server(0, map[u := tier], map[], map[], map[], None, map[], map[], {})
  }

  lemma FreshIsSound(u: User, tier: Tier)
    ensures Sound(Fresh(u, tier)) && Balanced(Fresh(u, tier))
  {
  }

  ghost function UploadOf(o: Object, n: nat): seq<Event> {
    [BeginUpload(1, o, n), EnsureUsage(1), Reserve(1), Create(1, true)]
  }

  ghost function Uploaded(o: Object, n: nat, tier: Tier): Server {
    Server(0, map[o.user := tier], map[o.user := n], map[o := Row(n, 0, None)], map[], None,
           map[1 := Uploading(o, n, Recorded(0))], map[], {})
  }

  lemma UploadReserves(o: Object, n: nat, tier: Tier)
    requires n <= tier.storage
    ensures var s0 := Fresh(o.user, tier);
            Apply(Apply(Apply(s0, BeginUpload(1, o, n)), EnsureUsage(1)), Reserve(1))
            == s0.(usage := map[o.user := n], procs := map[1 := Uploading(o, n, Reserved(0))])
  {
  }

  lemma UploadRecords(o: Object, n: nat, tier: Tier)
    ensures Apply(Fresh(o.user, tier).(usage := map[o.user := n], procs := map[1 := Uploading(o, n, Reserved(0))]), Create(1, true))
            == Uploaded(o, n, tier)
  {
  }

  lemma UploadReachesItsRow(o: Object, n: nat, tier: Tier)
    requires n <= tier.storage
    ensures Exec(Fresh(o.user, tier), UploadOf(o, n)) == Uploaded(o, n, tier)
  {
    hide Apply;
    var s0 := Fresh(o.user, tier);
    var es := UploadOf(o, n);
    UploadReserves(o, n, tier);
    UploadRecords(o, n, tier);
    assert es[..0] == [];
    ExecStep(s0, es, 0);
    ExecStep(s0, es, 1);
    ExecStep(s0, es, 2);
    ExecStep(s0, es, 3);
    assert es[..4] == es;
  }

  ghost function DeletedMeanwhile(o: Object, n: nat, tier: Tier): Server {
    var s := Uploaded(o, n, tier);
    s.(rows := map[o := Row(n, 0, Some(0))],
       procs := s.procs[2 := GivingBack(o.user, map[o := n], false)])
  }

  lemma DeleteReachesItsDebt(o: Object, n: nat, tier: Tier)
    requires o.kind == Bundle
    ensures Apply(Uploaded(o, n, tier), BeginDelete(2, o)) == DeletedMeanwhile(o, n, tier)
  {
    hide Sum;
    var s := Uploaded(o, n, tier);
    assert SizesOf(s, {o}) == map[o := n];
    assert SoftDelete(s, {o}).rows == map[o := Row(n, 0, Some(0))];
  }

  lemma GiveBackReachesZero(o: Object, n: nat, tier: Tier)
    ensures Apply(DeletedMeanwhile(o, n, tier), GiveBack(2, {o})) ==
            GaveBackEarly(o, n, tier)
  {
  }

  ghost function GaveBackEarly(o: Object, n: nat, tier: Tier): Server {
    Uploaded(o, n, tier).(rows := map[o := Row(n, 0, Some(0))], usage := map[o.user := 0])
  }

  lemma FailedPutThenRollback(o: Object, n: nat, tier: Tier)
    ensures var s := Apply(GaveBackEarly(o, n, tier), Put(1, false));
            Fault(s, RemoveRow(1, true), o.user) == 0 - n && Total(s, o.user) == 0
  {
  }

  /** Deleting a bundle while its upload runs, with the Put failing afterwards, gives its
      bytes back twice: the rollback finds no live row. */
  lemma DeleteDuringUploadIsAnAccident(o: Object, n: nat, tier: Tier)
    requires o.kind == Bundle && 0 < n <= tier.storage
    ensures var es := UploadOf(o, n) + [BeginDelete(2, o), GiveBack(2, {o}), Put(1, false)];
            var s := Exec(Fresh(o.user, tier), es);
            Fault(s, RemoveRow(1, true), o.user) == 0 - n && Total(s, o.user) == 0
  {
    hide Sum, Apply, Uploaded, Fault, UploadOf;
    var s4 := Uploaded(o, n, tier);
    var more := [BeginDelete(2, o), GiveBack(2, {o}), Put(1, false)];
    UploadReachesItsRow(o, n, tier);
    ExecConcat(Fresh(o.user, tier), UploadOf(o, n), more);
    DeleteReachesItsDebt(o, n, tier);
    GiveBackReachesZero(o, n, tier);
    FailedPutThenRollback(o, n, tier);
    assert more[..0] == [];
    ExecStep(s4, more, 0);
    ExecStep(s4, more, 1);
    ExecStep(s4, more, 2);
    assert more[..3] == more;
  }

  /** A rollback DELETE that fails is ignored by the upload, which still returns the
      reservation: a live row is left that no counter knows. */
  lemma IgnoredRollbackFailureIsAnAccident(o: Object, n: nat, tier: Tier)
    requires 0 < n <= tier.storage
    ensures var s := Exec(Fresh(o.user, tier), UploadOf(o, n) + [Put(1, false)]);
            Fault(s, RemoveRow(1, false), o.user) == 0 - n && Live(s, o)
  {
    hide Sum;
    UploadReachesItsRow(o, n, tier);
    var es := UploadOf(o, n) + [Put(1, false)];
    ExecStep(Fresh(o.user, tier), es, 4);
    assert es[..4] == UploadOf(o, n) && es[..5] == es;
  }

  ghost predicate Orphan(s: Server, o: Object) {
    o in s.blobs && o !in s.rows
  }

  lemma UploadsKeepKeys(s: Server, e: Event)
    requires e.BeginUpload? || e.EnsureUsage? || e.Reserve? || e.Prune? || e.Finish? || e.GiveBack?
    ensures Apply(s, e).rows.Keys == s.rows.Keys && Apply(s, e).blobs == s.blobs
  {
    hide Sum, PruneSet, PurgePage, KnownBundleId, LiveSizes, LiveBytes, Owes, Leaked, LiveSet, Only, Limit, Total, Subtract, SoftDelete, Returning, GivingBackPart, Dying;
  }

  lemma OthersKeepKeys(s: Server, e: Event)
    requires e.Tick? || e.BeginDelete? || e.BeginAccountDelete? || e.BeginPurge? || e.EndPurge? ||
             e.Recalculate? || e.DropUsage?
    ensures Apply(s, e).rows.Keys == s.rows.Keys && Apply(s, e).blobs == s.blobs
  {
    hide Sum, PruneSet, PurgePage, KnownBundleId, LiveSizes, LiveBytes, Owes, Leaked, LiveSet, Only, Limit, Total, Subtract, SoftDelete, Returning, GivingBackPart, Dying;
  }

  /** A blob of a careful run loses its row at exactly one kind of step: the rollback of an
      upload that removes the row while the blob is still stored. */
  lemma OrphanedExactlyByRollback(s: Server, e: Event, o: Object)
    requires Sound(s) && Careful(s, e) && !Orphan(s, o)
    ensures Orphan(Apply(s, e), o) <==> e.RemoveRow? && Enabled(s, e) && s.procs[e.p].obj == o && o in s.blobs
  {
    hide Sum, Apply, Enabled;
    match e
    case Create(p, ok) => CreateOrphans(s, p, ok, o);
    case Put(p, ok) => PutOrphans(s, p, ok, o);
    case RemoveRow(p, ok) => RemoveRowOrphans(s, p, o);
    case RemoveBlob(p, ok) => RemoveBlobOrphans(s, p, ok, o);
    case PurgeBlob(p, ok) => PurgeBlobOrphans(s, p, ok, o);
    case PurgeRow(p, ok) => PurgeRowOrphans(s, p, ok, o);
    case Crash(p) => CrashOrphans(s, p, o);
    case BeginUpload(_, _, _) => UploadsKeepKeys(s, e);
    case EnsureUsage(_) => UploadsKeepKeys(s, e);
    case Reserve(_) => UploadsKeepKeys(s, e);
    case Prune(_, _, _) => UploadsKeepKeys(s, e);
    case Finish(_) => UploadsKeepKeys(s, e);
    case GiveBack(_, _) => UploadsKeepKeys(s, e);
    case _ => OthersKeepKeys(s, e);
  }

  lemma CreateOrphans(s: Server, p: Pid, ok: bool, o: Object)
    requires Sound(s) && !Orphan(s, o)
    ensures !Orphan(Apply(s, Create(p, ok)), o)
  {
  }

  lemma PutOrphans(s: Server, p: Pid, ok: bool, o: Object)
    requires Sound(s) && !Orphan(s, o)
    ensures !Orphan(Apply(s, Put(p, ok)), o)
  {
  }

  lemma RemoveBlobOrphans(s: Server, p: Pid, ok: bool, o: Object)
    requires Sound(s) && !Orphan(s, o)
    ensures !Orphan(Apply(s, RemoveBlob(p, ok)), o)
  {
  }

  lemma PurgeBlobOrphans(s: Server, p: Pid, ok: bool, o: Object)
    requires Sound(s) && !Orphan(s, o)
    ensures !Orphan(Apply(s, PurgeBlob(p, ok)), o)
  {
  }

  lemma PurgeRowOrphans(s: Server, p: Pid, ok: bool, o: Object)
    requires Sound(s) && !Orphan(s, o)
    ensures !Orphan(Apply(s, PurgeRow(p, ok)), o)
  {
  }

  lemma CrashOrphans(s: Server, p: Pid, o: Object)
    requires !Orphan(s, o)
    ensures !Orphan(Apply(s, Crash(p)), o)
  {
  }

  lemma RemoveRowOrphans(s: Server, p: Pid, o: Object)
    requires !Orphan(s, o)
    ensures Orphan(Apply(s, RemoveRow(p, true)), o) <==>
            Enabled(s, RemoveRow(p, true)) && s.procs[p].obj == o && o in s.blobs
  {
  }

  // ---------------------------------------------------------------- an orphan nobody attends to

  /** No upload and no purge has the object in hand. */
  ghost predicate Unattended(s: Server, o: Object) {
    forall p :: p in s.procs ==>
      && (s.procs[p].Uploading? ==> s.procs[p].obj != o)
      && (s.procs[p].Purging? ==> o !in s.procs[p].batch)
  }

  ghost predicate Abandoned(s: Server, o: Object) { Orphan(s, o) && Unattended(s, o) }

  lemma StepKeepsAbandoned(s: Server, e: Event, o: Object)
    requires Abandoned(s, o) && !(e.BeginUpload? && e.obj == o)
    ensures Abandoned(Apply(s, e), o)
  {
    hide Apply, Unattended;
    match e
    case Create(p, ok) => UploadKeepsAbandoned(s, e, o);
    case Put(p, ok) => UploadKeepsAbandoned(s, e, o);
    case RemoveRow(p, ok) => RollbackKeepsAbandoned(s, e, o);
    case RemoveBlob(p, ok) => RollbackKeepsAbandoned(s, e, o);
    case PurgeBlob(p, ok) => PurgeKeepsAbandoned(s, e, o);
    case PurgeRow(p, ok) => PurgeKeepsAbandoned(s, e, o);
    case Crash(p) => CrashKeepsAbandoned(s, p, o);
    case BeginUpload(_, _, _) => UploadsKeepKeys(s, e); PruneKeepsUnattended(s, e, o);
    case EnsureUsage(_) => UploadsKeepKeys(s, e); UploadsKeepUnattended(s, e, o);
    case Reserve(_) => UploadsKeepKeys(s, e); UploadsKeepUnattended(s, e, o);
    case Prune(_, _, _) => UploadsKeepKeys(s, e); PruneKeepsUnattended(s, e, o);
    case Finish(_) => UploadsKeepKeys(s, e); UploadsKeepUnattended(s, e, o);
    case GiveBack(p, part) => UploadsKeepKeys(s, e); GiveBackKeepsUnattended(s, p, part, o);
    case _ => OthersKeepKeys(s, e); OthersKeepUnattended(s, e, o);
  }

  lemma UploadsKeepUnattended(s: Server, e: Event, o: Object)
    requires Unattended(s, o) && (e.EnsureUsage? || e.Reserve? || e.Finish?)
    ensures Unattended(Apply(s, e), o)
  {
    hide Sum, PruneSet, PurgePage, KnownBundleId, LiveSizes, LiveBytes, Owes, Leaked, LiveSet, Only, Limit, Total, Live, SizesOf, SoftDelete, Subtract;
  }

  lemma PruneKeepsUnattended(s: Server, e: Event, o: Object)
    requires Unattended(s, o) && (e.Prune? || (e.BeginUpload? && e.obj != o))
    ensures Unattended(Apply(s, e), o)
  {
    hide Sum, PruneSet, PurgePage, KnownBundleId, LiveSizes, LiveBytes, Owes, Leaked, LiveSet, Only, Limit, Total, Live, SizesOf, SoftDelete, Subtract;
  }

  lemma GiveBackKeepsUnattended(s: Server, p: Pid, part: set<Object>, o: Object)
    requires Unattended(s, o)
    ensures Unattended(Apply(s, GiveBack(p, part)), o)
  {
    hide Sum, PruneSet, PurgePage, KnownBundleId, LiveSizes, LiveBytes, Owes, Leaked, LiveSet, Only, Limit, Total, Live, SizesOf, SoftDelete, Subtract;
  }

  lemma OthersKeepUnattended(s: Server, e: Event, o: Object)
    requires Unattended(s, o) && o !in s.rows
    requires e.Tick? || e.BeginDelete? || e.BeginAccountDelete? || e.BeginPurge? || e.EndPurge? || e.Recalculate? || e.DropUsage?
    ensures Unattended(Apply(s, e), o)
  {
    hide Sum, PruneSet, KnownBundleId, LiveSizes, LiveBytes, Owes, Leaked, LiveSet, Only, Limit, Total, Live, SizesOf, SoftDelete, Subtract;
  }

  lemma CrashKeepsAbandoned(s: Server, p: Pid, o: Object)
    requires Abandoned(s, o)
    ensures Abandoned(Apply(s, Crash(p)), o)
  {
  }

  lemma UploadKeepsAbandoned(s: Server, e: Event, o: Object)
    requires Abandoned(s, o) && (e.Create? || e.Put?)
    ensures Abandoned(Apply(s, e), o)
  {
    hide Sum, PruneSet, PurgePage, KnownBundleId, LiveSizes, LiveBytes, Owes, Leaked, LiveSet, Only, Limit, Total, Live, SizesOf, SoftDelete, Subtract;
  }

  lemma RollbackKeepsAbandoned(s: Server, e: Event, o: Object)
    requires Abandoned(s, o) && (e.RemoveRow? || e.RemoveBlob?)
    ensures Abandoned(Apply(s, e), o)
  {
    hide Sum, PruneSet, PurgePage, KnownBundleId, LiveSizes, LiveBytes, Owes, Leaked, LiveSet, Only, Limit, Total, Live, SizesOf, SoftDelete, Subtract;
  }

  lemma PurgeKeepsAbandoned(s: Server, e: Event, o: Object)
    requires Abandoned(s, o) && (e.PurgeBlob? || e.PurgeRow?)
    ensures Abandoned(Apply(s, e), o)
  {
    hide Sum, PruneSet, PurgePage, KnownBundleId, LiveSizes, LiveBytes, Owes, Leaked, LiveSet, Only, Limit, Total, Live, SizesOf, SoftDelete, Subtract;
  }

  /** Only a new upload of the very same object can reach it again. */
  lemma {:induction false} AbandonedForGood(s: Server, es: seq<Event>, o: Object)
    requires Abandoned(s, o) && forall k :: 0 <= k < |es| ==> !(es[k].BeginUpload? && es[k].obj == o)
    ensures Abandoned(Exec(s, es), o)
    decreases |es|
  {
    hide Apply, Abandoned;
    if es != [] {
      AbandonedForGood(s, es[..|es| - 1], o);
      StepKeepsAbandoned(Exec(s, es[..|es| - 1]), es[|es| - 1], o);
    }
  }

  ghost function StoreOf(p: Pid, o: Object, n: nat): seq<Event> {
    [BeginUpload(p, o, n), EnsureUsage(p), Reserve(p), Create(p, true), Put(p, true)]
  }

  ghost function WithStored(s: Server, p: Pid, o: Object, n: nat): Server {
    s.(usage := s.usage[o.user := Total(s, o.user) + n], rows := s.rows[o := Row(n, s.clock, None)], blobs := s.blobs[o := n],
       procs := s.procs[p := Uploading(o, n, Stored(|LiveSet(s, o.user, Snapshot)|))], acked := s.acked - {o})
  }

  ghost predicate Admits(s: Server, p: Pid, o: Object, n: nat) {
    p !in s.procs && o.kind == Snapshot && o.user in s.tiers && o !in s.rows && Total(s, o.user) + n <= Limit(s, o.user)
  }

  ghost function Under(s: Server, p: Pid, o: Object, n: nat, stage: Stage): Server {
    s.(procs := s.procs[p := Uploading(o, n, stage)])
  }

  ghost function WithUsage(s: Server, u: User, n: nat): Server { s.(usage := s.usage[u := Total(s, u) + n]) }

  lemma StoreBegins(s: Server, p: Pid, o: Object, n: nat)
    requires Admits(s, p, o, n)
    ensures var c := |LiveSet(s, o.user, Snapshot)|;
            Apply(Apply(s, BeginUpload(p, o, n)), EnsureUsage(p)) == Under(WithUsage(s, o.user, 0), p, o, n, Ensured(c))
  {
    hide LiveSet, Sum;
  }

  lemma StoreReserves(s: Server, p: Pid, o: Object, n: nat, c: nat)
    requires Admits(s, p, o, n)
    ensures Apply(Under(WithUsage(s, o.user, 0), p, o, n, Ensured(c)), Reserve(p)) == Under(WithUsage(s, o.user, n), p, o, n, Reserved(c))
  {
    hide LiveSet, Sum;
  }

  lemma StoreRecords(r: Server, p: Pid, o: Object, n: nat, c: nat)
    requires o !in r.rows
    ensures Apply(Under(r, p, o, n, Reserved(c)), Create(p, true)) ==
            Under(r.(rows := r.rows[o := Row(n, r.clock, None)], acked := r.acked - {o}), p, o, n, Recorded(c))
  {
  }

  lemma StorePuts(r: Server, p: Pid, o: Object, n: nat, c: nat)
    ensures Apply(Under(r, p, o, n, Recorded(c)), Put(p, true)) == Under(r.(blobs := r.blobs[o := n]), p, o, n, Stored(c))
  {
    hide LiveSet, Sum;
  }

  lemma StoreEnds(s: Server, p: Pid, o: Object, n: nat)
    requires Admits(s, p, o, n)
    ensures var c := |LiveSet(s, o.user, Snapshot)|;
            Apply(Apply(Apply(Under(WithUsage(s, o.user, 0), p, o, n, Ensured(c)), Reserve(p)), Create(p, true)), Put(p, true))
            == WithStored(s, p, o, n)
  {
    hide Apply, LiveSet, Total, Limit;
    var c := |LiveSet(s, o.user, Snapshot)|;
    var reserved := WithUsage(s, o.user, n);
    StoreReserves(s, p, o, n, c);
    StoreRecords(reserved, p, o, n, c);
    StorePuts(reserved.(rows := s.rows[o := Row(n, s.clock, None)], acked := s.acked - {o}), p, o, n, c);
  }

  /** An admitted upload of a snapshot that meets no failure up to the tier check. */
  lemma StoreRuns(s: Server, p: Pid, o: Object, n: nat)
    requires Admits(s, p, o, n)
    ensures Exec(s, StoreOf(p, o, n)) == WithStored(s, p, o, n)
  {
    hide *;
    StoreBegins(s, p, o, n);
    StoreEnds(s, p, o, n);
    StoreInFive(s, p, o, n);
  }

  lemma StoreInFive(s: Server, p: Pid, o: Object, n: nat)
    ensures Exec(s, StoreOf(p, o, n)) ==
            Apply(Apply(Apply(Apply(Apply(s, BeginUpload(p, o, n)), EnsureUsage(p)), Reserve(p)), Create(p, true)), Put(p, true))
  {
    hide Apply;
    var es := StoreOf(p, o, n);
    assert es[..0] == [] && es[..5] == es;
    ExecStep(s, es, 0);
    ExecStep(s, es, 1);
    ExecStep(s, es, 2);
    ExecStep(s, es, 3);
    ExecStep(s, es, 4);
  }

  /** The state of a full tier of one: snapshot `a` stored and acknowledged. */
  ghost function Holding(a: Object, n: nat, tier: Tier): Server {
    Server(0, map[a.user := tier], map[a.user := n], map[a := Row(n, 0, None)], map[a := n], None, map[], map[], {a})
  }

  lemma FirstSnapshot(a: Object, n: nat, tier: Tier)
    requires a.kind == Snapshot && tier.snapshots == 1 && n <= tier.storage
    ensures Exec(Fresh(a.user, tier), StoreOf(1, a, n) + [Finish(1)]) == Holding(a, n, tier)
  {
    var s0 := Fresh(a.user, tier);
    StoreRuns(s0, 1, a, n);
    var es := StoreOf(1, a, n) + [Finish(1)];
    assert es[..5] == StoreOf(1, a, n) && es[..6] == es;
    ExecStep(s0, es, 5);
    assert LiveSet(s0, a.user, Snapshot) == {};
    hide Exec, LiveSet, Sum;
    assert Apply(WithStored(s0, 1, a, n), Finish(1)) == Holding(a, n, tier);
  }

  /** How the prune that should make room for `b` fails: the row goes, the blob stays. */
  ghost function FailingPrune(a: Object, died: bool): seq<Event> {
    [Prune(2, {a}, false), RemoveRow(2, true)] + if died then [Crash(2)] else [RemoveBlob(2, false), GiveBack(2, {})]
  }

  lemma PruneDue(a: Object, b: Object, n: nat, m: nat, tier: Tier)
    requires a.kind == b.kind == Snapshot && a.user == b.user && a != b && tier.snapshots == 1
    ensures Enabled(WithStored(Holding(a, n, tier), 2, b, m), Prune(2, {a}, false))
  {
    hide Sum;
    var h := Holding(a, n, tier);
    var s := WithStored(h, 2, b, m);
    assert LiveSet(h, a.user, Snapshot) == {a};
    assert LiveSet(s, a.user, Snapshot) == {a, b};
    assert {a, b} - {a} == {b};
  }

  lemma PruneFailsAndRowGoes(s: Server, a: Object)
    requires Uploads(s, 2) && Enabled(s, Prune(2, {a}, false))
    ensures Apply(Apply(s, Prune(2, {a}, false)), RemoveRow(2, true)) ==
            s.(rows := s.rows - {s.procs[2].obj}, procs := s.procs[2 := s.procs[2].(stage := Unstoring)])
  {
  }

  lemma NobodyLeft(s: Server, b: Object, died: bool)
    requires Uploads(s, 2) && s.procs == map[2 := s.procs[2]] && s.procs[2].stage.Unstoring? && Orphan(s, b)
    ensures Abandoned(if died then Apply(s, Crash(2)) else Apply(Apply(s, RemoveBlob(2, false)), GiveBack(2, {})), b)
  {
    hide PruneSet, LiveSet, Sum;
  }

  lemma FailingPruneInSteps(s: Server, a: Object, died: bool)
    ensures var gone := Apply(Apply(s, Prune(2, {a}, false)), RemoveRow(2, true));
            Exec(s, FailingPrune(a, died)) == if died then Apply(gone, Crash(2)) else Apply(Apply(gone, RemoveBlob(2, false)), GiveBack(2, {}))
  {
    hide Apply;
    var es := FailingPrune(a, died);
    assert es[..0] == [] && es[..|es|] == es;
    ExecStep(s, es, 0);
    ExecStep(s, es, 1);
    ExecStep(s, es, 2);
    if !died { ExecStep(s, es, 3); }
  }

  lemma FailingPruneOrphans(s: Server, a: Object, b: Object, died: bool)
    requires Uploads(s, 2) && s.procs == map[2 := s.procs[2]] && s.procs[2].obj == b && b in s.blobs
    requires Enabled(s, Prune(2, {a}, false))
    ensures Abandoned(Exec(s, FailingPrune(a, died)), b)
  {
    hide Apply, Exec, FailingPrune, Enabled, Abandoned;
    FailingPruneInSteps(s, a, died);
    PruneFailsAndRowGoes(s, a);
    NobodyLeft(s.(rows := s.rows - {b}, procs := s.procs[2 := s.procs[2].(stage := Unstoring)]), b, died);
  }

  /** With a tier of one snapshot: the second upload cannot prune the first, takes out its own
      row, and then dies or fails to delete its blob. The blob is left without a row and without
      anybody to delete it. */
  lemma FailedPruneAbandonsBlob(a: Object, b: Object, n: nat, m: nat, tier: Tier, died: bool)
    requires a.kind == b.kind == Snapshot && a.user == b.user && a != b
    requires tier.snapshots == 1 && n + m <= tier.storage
    ensures Abandoned(Exec(Fresh(a.user, tier), StoreOf(1, a, n) + [Finish(1)] + StoreOf(2, b, m) + FailingPrune(a, died)), b)
  {
    var s0, h := Fresh(a.user, tier), Holding(a, n, tier);
    var first := StoreOf(1, a, n) + [Finish(1)];
    FirstSnapshot(a, n, tier);
    ExecConcat(s0, first, StoreOf(2, b, m));
    StoreRuns(h, 2, b, m);
    var s := WithStored(h, 2, b, m);
    PruneDue(a, b, n, m, tier);
    ExecConcat(s0, first + StoreOf(2, b, m), FailingPrune(a, died));
    hide Exec, Enabled, StoreOf, FailingPrune, Abandoned, LiveSet;
    assert s.procs == map[2 := s.procs[2]];
    FailingPruneOrphans(s, a, b, died);
  }
}
