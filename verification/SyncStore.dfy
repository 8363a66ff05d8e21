/**
 The repositories and services that move the stored state. Every repository method is one
 step of the `Lifecycle` machine; every service method is proved to be a run of that
 machine, so what holds of all runs holds of any interleaving of these methods, and what
 each method returns and leaves behind is stated outright.
 */
module SyncStore {
  import opened Wrappers
  import opened MapSum
  import opened Lifecycle

  datatype Device = Registered | Unregistered | Revoked

  datatype UploadError =
    | BundleExists | DeviceNotRegistered | DeviceRevoked | UserNotFound | QuotaExceeded
    | CreateFailed | StoreFailed | PruneFailed | ReturnFailed | NotFound

  /** Which of an upload's statements fail; the order is the order of the code. */
  datatype Faults = Faults(create: bool, put: bool, prune: bool, removeRow: bool, removeBlob: bool, refund: bool,
                           giveBack: set<Object>)

  datatype Report = Report(expired: nat, bytes: nat, failed: nat)

  ghost predicate SameTotals(s: Server, t: Server) {
    forall u :: Total(s, u) == Total(t, u)
  }

  lemma ExecAppend(s: Server, es: seq<Event>, e: Event)
    ensures Exec(s, es + [e]) == Apply(Exec(s, es), e)
  {
  }

  lemma SumSingle(m: map<Object, nat>, v: Object)
    requires v in m
    ensures Sum(Only(m, {v})) == m[v]
  {
    assert Only(m, {v}) == map[][v := m[v]];
    SumPut(map[], v, m[v]);
    SumEmpty<Object>();
  }

  lemma PruneLeavesNewest(s: Server, t: Server, os: set<Object>, u: User, k: Kind)
    requires t.rows == SoftDelete(s, os).rows
    ensures LiveSet(t, u, k) == LiveSet(s, u, k) - os
  {
  }

  lemma PruneSetKnown(s: Server, u: User, keep: nat, victims: set<Object>)
    requires PruneSet(s, u, keep, victims)
    ensures victims <= s.rows.Keys
  {
  }

  // What the statements of a process do to the whole state.

  lemma PruneStep(s: Server, p: Pid, pruned: map<Object, nat>)
    requires Uploads(s, p) && s.procs[p].stage.Stored? && s.procs[p].obj.kind == Snapshot && s.procs[p].obj.user in s.tiers
    requires s.procs[p].stage.count >= s.tiers[s.procs[p].obj.user].snapshots
    requires PruneSet(s, s.procs[p].obj.user, s.tiers[s.procs[p].obj.user].snapshots, pruned.Keys)
    requires pruned == SizesOf(s, pruned.Keys)
    ensures var o := s.procs[p].obj;
            Apply(s, Prune(p, pruned.Keys, true)) ==
            s.(rows := SoftDelete(s, pruned.Keys).rows, acked := s.acked + {o},
               procs := if pruned == map[] then s.procs - {p} else s.procs[p := GivingBack(o.user, pruned, false)])
  {
  }

  lemma PruneFailStep(s: Server, p: Pid, victims: set<Object>)
    requires Uploads(s, p) && s.procs[p].stage.Stored? && s.procs[p].obj.kind == Snapshot && s.procs[p].obj.user in s.tiers
    requires s.procs[p].stage.count >= s.tiers[s.procs[p].obj.user].snapshots
    requires PruneSet(s, s.procs[p].obj.user, s.tiers[s.procs[p].obj.user].snapshots, victims)
    ensures Apply(s, Prune(p, victims, false)) ==
            s.(procs := s.procs[p := s.procs[p].(stage := Unrecording(true))])
  {
  }

  lemma RefundStep(s: Server, p: Pid)
    requires Uploads(s, p) && s.procs[p].stage.Refunding?
    ensures Apply(s, GiveBack(p, {})) ==
            s.(usage := Refunded(s.usage, s.procs[p].obj.user, s.procs[p].size), procs := s.procs - {p})
  {
  }

  lemma ReturnStep(s: Server, p: Pid, part: set<Object>)
    requires Enabled(s, GiveBack(p, part)) && s.procs[p].GivingBack?
    ensures var pr := s.procs[p];
            Apply(s, GiveBack(p, part)) ==
            s.(usage := Refunded(s.usage, pr.user, Sum(Only(pr.pending, part))),
               procs := if pr.pending - part == map[] then s.procs - {p}
                        else s.procs[p := pr.(pending := pr.pending - part)])
  {
  }

  /** Giving back no bytes changes no counter. */
  lemma ZeroReturn(s: Server, p: Pid, part: set<Object>)
    requires p in s.procs && s.procs[p].GivingBack? && s.procs[p].atOnce && part == s.procs[p].pending.Keys && part != {}
    requires Sum(Only(s.procs[p].pending, part)) == 0
    ensures Apply(s, GiveBack(p, part)) == s.(procs := s.procs - {p})
    ensures forall u :: Refunded(s.usage, u, 0) == s.usage
  {
  }

  lemma CrashStep(s: Server, p: Pid)
    requires p in s.procs && s.lock != Some(p)
    ensures var t := Apply(s, Crash(p));
            t == s.(leaked := t.leaked, procs := s.procs - {p})
  {
  }

  function SizesFrom(rows: map<Object, Row>, os: set<Object>): map<Object, nat>
    requires os <= rows.Keys
  {
    map o | o in os :: rows[o].size
  }

  lemma SizesFromView(s: Server, os: set<Object>)
    requires os <= s.rows.Keys
    ensures SizesFrom(s.rows, os).Keys == os && SizesFrom(s.rows, os) == SizesOf(s, os)
  {
  }

  /** What an upload that returns leaves behind: exactly its row, its blob and its bytes. */
  ghost predicate UploadStored(s: Server, t: Server, o: Object, n: nat) {
    && o !in s.rows
    && Total(s, o.user) + n <= Limit(s, o.user)
    && t.rows == s.rows[o := Row(n, s.clock, None)]
    && t.blobs == s.blobs[o := n]
    && t.usage == s.usage[o.user := Total(s, o.user) + n]
  }

  function ErrorOf(r: Result<Row, UploadError>): Option<UploadError> { if r.Err? then Some(r.error) else None }

  /** The first obstacle that an ingest meets. */
  ghost function IngestError(s: Server, o: Object, n: nat, f: Faults): (e: Option<UploadError>)
    ensures e != Some(PruneFailed) && e != Some(ReturnFailed)
  {
    if Total(s, o.user) + n > Limit(s, o.user) then Some(QuotaExceeded)
    else if f.create || o in s.rows then Some(CreateFailed)
    else if f.put then Some(StoreFailed)
    else None
  }

  /** What turns a bundle away before anything is written. */
  ghost function Refusal(s: Server, o: Object, device: Device): Option<UploadError> {
    if KnownBundleId(s, o.id) then Some(BundleExists)
    else if device.Unregistered? then Some(DeviceNotRegistered)
    else if device.Revoked? then Some(DeviceRevoked)
    else if o.user !in s.tiers then Some(UserNotFound)
    else None
  }

  /** The first obstacle that the upload of a bundle meets. */
  ghost function BundleError(s: Server, o: Object, n: nat, device: Device, f: Faults): Option<UploadError> {
    if Refusal(s, o, device).Some? then Refusal(s, o, device) else IngestError(s, o, n, f)
  }

  /** The first obstacle that the upload of a snapshot meets; `pruned` is what the prune takes. */
  ghost function SnapshotError(s: Server, o: Object, n: nat, f: Faults, pruned: set<Object>): Option<UploadError> {
    if o.user !in s.tiers then Some(UserNotFound)
    else if IngestError(s, o, n, f).Some? then IngestError(s, o, n, f)
    else if |LiveSet(s, o.user, Snapshot)| < s.tiers[o.user].snapshots then None
    else if f.prune then Some(PruneFailed)
    else if !(f.giveBack !! pruned) then Some(ReturnFailed)
    else None
  }

  /** The server once the new object is stored and nothing is pruned yet. */
  ghost function WithUpload(s: Server, o: Object, n: nat): Server {
    s.(rows := s.rows[o := Row(n, s.clock, None)], blobs := s.blobs[o := n],
       usage := s.usage[o.user := Total(s, o.user) + n])
  }

  /** A stored snapshot pushed out what the tier has no room for: `pruned` is soft-deleted, and
      with `given` its bytes are returned. */
  ghost predicate SnapshotStored(s: Server, t: Server, o: Object, n: nat, pruned: map<Object, nat>, given: bool) {
    && o.user in s.tiers && o !in s.rows && Total(s, o.user) + n <= Limit(s, o.user)
    && var u, keep := o.user, s.tiers[o.user].snapshots;
    var full := WithUpload(s, o, n);
    && (if |LiveSet(s, u, Snapshot)| < keep then pruned == map[] else PruneSet(full, u, keep, pruned.Keys))
    && pruned == SizesOf(full, pruned.Keys)
    && t.rows == SoftDelete(full, pruned.Keys).rows
    && t.blobs == full.blobs
    && (given ==> t.usage == Refunded(full.usage, u, Sum(pruned)))
  }

  lemma PrunedFromUpload(s: Server, stored: Server, t: Server, o: Object, n: nat, pruned: map<Object, nat>, given: bool)
    requires UploadStored(s, stored, o, n) && o.user in s.tiers && stored.tiers == s.tiers && stored.clock == s.clock
    requires if |LiveSet(s, o.user, Snapshot)| < s.tiers[o.user].snapshots then pruned == map[]
             else PruneSet(stored, o.user, s.tiers[o.user].snapshots, pruned.Keys)
    requires pruned == SizesOf(stored, pruned.Keys)
    requires t.rows == SoftDelete(stored, pruned.Keys).rows && t.blobs == stored.blobs
    requires given ==> t.usage == Refunded(stored.usage, o.user, Sum(pruned))
    ensures SnapshotStored(s, t, o, n, pruned, given)
  {
    hide Sum, Refunded, LiveSet, PruneSet, SoftDelete, SizesOf;
    var full := WithUpload(s, o, n);
    assert full.rows == stored.rows && full.blobs == stored.blobs && full.usage == stored.usage;
    if PruneSet(stored, o.user, s.tiers[o.user].snapshots, pruned.Keys) {
      SamePrune(full, stored, o.user, s.tiers[o.user].snapshots, pruned.Keys);
    }
    SameRows(full, stored, pruned.Keys);
  }

  lemma SameRows(s: Server, t: Server, os: set<Object>)
    requires s.rows == t.rows && s.clock == t.clock
    ensures SoftDelete(s, os).rows == SoftDelete(t, os).rows && SizesOf(s, os) == SizesOf(t, os)
  {
  }

  lemma SamePrune(s: Server, t: Server, u: User, keep: nat, victims: set<Object>)
    requires s.rows == t.rows && PruneSet(t, u, keep, victims)
    ensures PruneSet(s, u, keep, victims)
  {
    SameLive(s, t, u, Snapshot);
    hide LiveSet;
  }

  /** What a failed upload leaves behind: nothing, unless a rollback statement failed too. */
  ghost predicate UploadUndone(s: Server, t: Server, o: Object, f: Faults) {
    && (!f.removeRow ==> t.rows == s.rows)
    && (!f.removeBlob ==> t.blobs == s.blobs)
    && (!f.refund ==> SameTotals(s, t))
    && t.rows - {o} == s.rows - {o} && t.blobs - {o} == s.blobs - {o}
  }

  lemma ExecNone(s: Server)
    ensures Exec(s, []) == s
  {
  }

  lemma ExecOne(s: Server, e: Event)
    ensures Exec(s, [e]) == Apply(s, e)
  {
  }

  function Refunded(usage: map<User, nat>, u: User, n: nat): map<User, nat> {
    if u in usage then usage[u := if usage[u] >= n then usage[u] - n else 0] else usage
  }

  lemma UnknownIdIsNew(s: Server, o: Object)
    requires !KnownBundleId(s, o.id) && o.kind == Bundle
    ensures o !in s.rows
  {
  }

  lemma SameIngest(s: Server, t: Server, o: Object, n: nat, f: Faults)
    requires t == s.(procs := t.procs)
    ensures IngestError(t, o, n, f) == IngestError(s, o, n, f)
    ensures forall u: Server :: UploadStored(t, u, o, n) ==> UploadStored(s, u, o, n)
  {
  }

  lemma RejectedEarly(s: Server, o: Object, f: Faults)
    ensures UploadUndone(s, s, o, f)
  {
  }

  lemma UndoneFrom(s: Server, s': Server, t: Server, o: Object, f: Faults)
    requires UploadUndone(s', t, o, f) && s' == s.(procs := s'.procs)
    ensures UploadUndone(s, t, o, f)
  {
    forall u ensures Total(s, u) == Total(s', u) {
    }
  }

  lemma RejectionUndoes(s: Server, t: Server, o: Object, f: Faults)
    requires t.usage == s.usage[o.user := Total(s, o.user)]
    requires t.rows == s.rows && t.blobs == s.blobs
    ensures UploadUndone(s, t, o, f)
  {
  }

  /** Taking the row out again and returning the bytes undoes the upload. */
  lemma PersistUndoes(s: Server, t: Server, o: Object, n: nat, r: Row, f: Faults)
    requires var reserved := s.usage[o.user := Total(s, o.user) + n];
             t.usage == if f.refund then reserved else Refunded(reserved, o.user, n)
    requires t.rows == s.rows || (f.removeRow && t.rows == s.rows[o := r])
    requires t.blobs == s.blobs
    ensures UploadUndone(s, t, o, f)
  {
  }

  lemma OneMoreSnapshot(s: Server, t: Server, o: Object, n: nat)
    requires UploadStored(s, t, o, n) && o.kind == Snapshot
    ensures |LiveSet(t, o.user, Snapshot)| == |LiveSet(s, o.user, Snapshot)| + 1
  {
    assert LiveSet(t, o.user, Snapshot) == LiveSet(s, o.user, Snapshot) + {o};
  }

  lemma PruneKeeps(s: Server, t: Server, u: User, keep: nat, victims: set<Object>)
    requires PruneSet(s, u, keep, victims) && t.rows == SoftDelete(s, victims).rows
    ensures |LiveSet(t, u, Snapshot)| <= keep
  {
    PruneLeavesNewest(s, t, victims, u, Snapshot);
  }

  /** A stored snapshot leaves no more live snapshots than the tier allows, and every one that
      went was no younger than any that stayed. */
  lemma SnapshotsWithinTier(s: Server, t: Server, o: Object, n: nat, pruned: map<Object, nat>, given: bool)
    requires SnapshotStored(s, t, o, n, pruned, given) && o.kind == Snapshot
    ensures |LiveSet(t, o.user, Snapshot)| <= s.tiers[o.user].snapshots
    ensures forall v, w :: v in pruned && w in LiveSet(t, o.user, Snapshot) ==> t.rows[v].created <= t.rows[w].created
  {
    hide Sum, Refunded;
    var full := WithUpload(s, o, n);
    PruneLeavesNewest(full, t, pruned.Keys, o.user, Snapshot);
    if |LiveSet(s, o.user, Snapshot)| < s.tiers[o.user].snapshots {
      assert LiveSet(full, o.user, Snapshot) == LiveSet(s, o.user, Snapshot) + {o};
    } else {
      PruneKeeps(full, t, o.user, s.tiers[o.user].snapshots, pruned.Keys);
    }
  }

  /** After a failed prune the blob is deleted too, whatever stood under its key before. */
  ghost predicate PruneUndone(s: Server, t: Server, o: Object, f: Faults) {
    && (!f.removeRow ==> t.rows == s.rows)
    && (!f.removeBlob ==> t.blobs == s.blobs - {o})
    && (!f.refund ==> SameTotals(s, t))
    && t.rows - {o} == s.rows - {o} && t.blobs - {o} == s.blobs - {o}
  }

  lemma PruneRollbackUndoes(s: Server, t: Server, o: Object, n: nat, r: Row, f: Faults)
    requires o !in s.rows
    requires var reserved := s.usage[o.user := Total(s, o.user) + n];
             t.usage == if f.refund then reserved else Refunded(reserved, o.user, n)
    requires t.rows == if f.removeRow then s.rows[o := r] else s.rows[o := r] - {o}
    requires t.blobs == if f.removeBlob then s.blobs[o := n] else s.blobs[o := n] - {o}
    ensures PruneUndone(s, t, o, f)
  {
    assert s.rows[o := r] - {o} == s.rows;
    assert s.rows - {o} == s.rows;
    assert s.blobs[o := n] - {o} == s.blobs - {o};
  }

  lemma DeleteStep(s: Server, p: Pid, o: Object)
    requires p !in s.procs && o.kind == Bundle && Live(s, o)
    ensures Apply(s, BeginDelete(p, o)) ==
            s.(rows := SoftDelete(s, {o}).rows,
               procs := s.procs[p := GivingBack(o.user, map[o := s.rows[o].size], false)])
    ensures SoftDelete(s, {o}).rows == s.rows[o := s.rows[o].(deletedAt := Some(s.clock))]
  {
    assert SizesOf(s, {o}) == map[o := s.rows[o].size];
  }

  lemma DeleteAllStep(s: Server, p: Pid, u: User, k: Kind)
    requires p !in s.procs
    ensures var live := LiveSet(s, u, k);
            Apply(s, BeginAccountDelete(p, u, k)) ==
            s.(rows := SoftDelete(s, live).rows,
               procs := if live == {} then s.procs - {p} else s.procs[p := GivingBack(u, SizesOf(s, live), true)])
  {
  }

  /** Giving back in parts is giving back the sum, even where the counter is cut off at zero. */
  lemma RefundedTwice(usage: map<User, nat>, u: User, a: nat, b: nat)
    ensures Refunded(Refunded(usage, u, a), u, b) == Refunded(usage, u, a + b)
  {
  }

  lemma RefundedNothing(usage: map<User, nat>, u: User)
    ensures Refunded(usage, u, 0) == usage
  {
  }

  lemma NothingPrunedAway(s: Server, usage: map<User, nat>, u: User, none: map<Object, nat>)
    requires none == map[]
    ensures s.rows == SoftDelete(s, none.Keys).rows && none == SizesOf(s, none.Keys)
    ensures usage == Refunded(usage, u, Sum(none))
  {
    SumEmpty<Object>();
  }

  lemma NoBytesOf(sizes: map<Object, nat>)
    ensures sizes == map[] ==> Sum(sizes) == 0
  {
    SumEmpty<Object>();
  }

  lemma SameLive(s: Server, t: Server, u: User, k: Kind)
    requires s.rows == t.rows
    ensures LiveSet(s, u, k) == LiveSet(t, u, k)
  {
  }

  lemma NoneLeft(s: Server, t: Server, u: User, k: Kind)
    requires t.rows == SoftDelete(s, LiveSet(s, u, k)).rows
    ensures LiveSet(t, u, k) == {}
  {
  }

  lemma PurgeBegins(s: Server, p: Pid, k: Kind, before: Time, batch: seq<Object>)
    requires p !in s.procs && s.lock.None? && PurgePage(s, k, before, batch)
    ensures Apply(s, BeginPurge(p, k, before, batch)) == s.(lock := Some(p), procs := s.procs[p := Purging(batch, false)])
  {
  }

  lemma PurgeBlobStep(s: Server, p: Pid, o: Object, rest: seq<Object>, ok: bool)
    requires p in s.procs && s.procs[p] == Purging([o] + rest, false)
    ensures Apply(s, PurgeBlob(p, ok)) ==
            if ok then s.(blobs := s.blobs - {o}, procs := s.procs[p := Purging([o] + rest, true)])
            else s.(procs := s.procs[p := Purging(rest, false)])
  {
    assert ([o] + rest)[1..] == rest;
  }

  lemma PurgeRowStep(s: Server, p: Pid, o: Object, rest: seq<Object>, ok: bool)
    requires p in s.procs && s.procs[p] == Purging([o] + rest, true)
    ensures Apply(s, PurgeRow(p, ok)) ==
            s.(rows := if ok then s.rows - {o} else s.rows, procs := s.procs[p := Purging(rest, false)])
  {
    assert ([o] + rest)[1..] == rest;
  }

  lemma PurgeEnds(s: Server, p: Pid)
    requires p in s.procs && s.procs[p] == Purging([], false)
    ensures Apply(s, EndPurge(p)) == s.(lock := None, procs := s.procs - {p})
  {
  }

  /** The objects of a page whose deletion does not fail. */
  function Purgeable(batch: seq<Object>, failing: set<Object>): set<Object> {
    set o | o in batch && o !in failing
  }

  /** What the report of a page says. */
  function Outcome(rows: map<Object, Row>, batch: seq<Object>, failing: set<Object>): (r: Report)
    requires forall o :: o in batch ==> o in rows
    ensures r.expired + r.failed == |batch|
    decreases |batch|
  {
    if batch == [] then Report(0, 0, 0)
    else
      var r, o := Outcome(rows, batch[..|batch| - 1], failing), batch[|batch| - 1];
      if o in failing then r.(failed := r.failed + 1)
      else r.(expired := r.expired + 1, bytes := r.bytes + rows[o].size)
  }

  lemma NothingPurged(rows: map<Object, Row>, blobs: map<Object, nat>, blobFails: set<Object>, rowFails: set<Object>)
    ensures rows == rows - Purgeable([], blobFails + rowFails) && blobs == blobs - Purgeable([], blobFails)
    ensures Outcome(rows, [], blobFails + rowFails) == Report(0, 0, 0)
  {
  }

  lemma OnePurged(rows: map<Object, Row>, done: seq<Object>, o: Object, failing: set<Object>)
    requires forall d :: d in done + [o] ==> d in rows
    ensures var r := Outcome(rows, done, failing);
            Outcome(rows, done + [o], failing) ==
            if o in failing then r.(failed := r.failed + 1)
            else r.(expired := r.expired + 1, bytes := r.bytes + rows[o].size)
  {
    assert (done + [o])[..|done + [o]| - 1] == done;
  }

  lemma KeysPurged<V>(m: map<Object, V>, done: seq<Object>, o: Object, failing: set<Object>)
    ensures m - Purgeable(done + [o], failing) ==
            if o in failing then m - Purgeable(done, failing) else m - Purgeable(done, failing) - {o}
  {
  }

  lemma PageInRows(s: Server, k: Kind, before: Time, batch: seq<Object>)
    requires PurgePage(s, k, before, batch)
    ensures forall o :: o in batch ==> o in s.rows && s.rows[o].deletedAt.Some?
    ensures forall i, j :: 0 <= i < j < |batch| ==> batch[i] != batch[j]
  {
  }

  class Store {
    var clock: Time
    const tiers: map<User, Tier>
    var usage: map<User, nat>
    var rows: map<Object, Row>
    var blobs: map<Object, nat>
    var lock: Option<Pid>
    ghost var procs: map<Pid, Proc>
    ghost var leaked: map<User, nat>
    ghost var acked: set<Object>

    ghost function View(): Server
      reads this
    {
      Server(clock, tiers, usage, rows, blobs, lock, procs, leaked, acked)
    }

    ghost predicate At(p: Pid, o: Object, n: nat, st: Stage)
      reads this`procs
    {
      p in procs && procs[p] == Uploading(o, n, st)
    }

    // -------------------------------------------------------------- statements

    method ExistsById(id: ObjectId) returns (known: bool)
      ensures known <==> KnownBundleId(View(), id)
    {
      known := exists o :: o in rows && o.kind == Bundle && o.id == id;
    }

    method LiveObjects(u: User, k: Kind) returns (live: set<Object>)
      ensures live == LiveSet(View(), u, k) && live <= rows.Keys
    {
      live := set o | o in rows && o.user == u && o.kind == k && rows[o].deletedAt.None?;
    }

    method CountSnapshots(u: User) returns (count: nat)
      ensures count == |LiveSet(View(), u, Snapshot)|
    {
      var live := LiveObjects(u, Snapshot);
      count := |live|;
    }

    method EnsureUsageRow(u: User, ghost p: Pid, ghost o: Object, ghost n: nat, ghost c: nat)
      requires At(p, o, n, Admitted(c)) && o.user == u
      modifies this`usage, this`procs
      ensures View() == Apply(old(View()), EnsureUsage(p))
      ensures usage == old(usage)[u := Total(old(View()), u)]
      ensures procs == old(procs)[p := Uploading(o, n, Ensured(c))]
    {
      ghost var next := Apply(View(), EnsureUsage(p));
      if u !in usage {
        usage := usage[u := 0];
      }
      procs := next.procs;
      assert usage == next.usage;
    }

    method ConditionalAdd(u: User, n: nat, limit: nat, ghost p: Pid, ghost o: Object, ghost c: nat) returns (ok: bool)
      requires At(p, o, n, Ensured(c)) && o.user == u && limit == Limit(View(), u)
      modifies this`usage, this`procs
      ensures View() == Apply(old(View()), Reserve(p))
      ensures ok <==> u in old(usage) && old(usage[u]) + n <= limit
      ensures usage == if ok then old(usage)[u := old(usage[u]) + n] else old(usage)
      ensures procs == if ok then old(procs)[p := Uploading(o, n, Reserved(c))] else old(procs) - {p}
    {
      hide Sum, PruneSet, PurgePage, KnownBundleId, LiveSet, LiveSizes, LiveBytes, Returning, GivingBackPart, Live;
      ghost var next := Apply(View(), Reserve(p));
      ok := u in usage && usage[u] + n <= limit;
      if ok {
        usage := usage[u := usage[u] + n];
      }
      procs := next.procs;
    }

    /** TryAddBundleUsage and TryAddSnapshotUsage: the row is ensured first, so that no row
        updated means over quota. */
    method TryAddUsage(o: Object, n: nat, limit: nat, ghost p: Pid, ghost c: nat) returns (ok: bool, ghost trace: seq<Event>)
      requires At(p, o, n, Admitted(c)) && limit == Limit(View(), o.user)
      modifies this`usage, this`procs
      ensures View() == Exec(old(View()), trace)
      ensures ok <==> Total(old(View()), o.user) + n <= limit
      ensures usage == old(usage)[o.user := Total(old(View()), o.user) + if ok then n else 0]
      ensures procs == if ok then old(procs)[p := Uploading(o, n, Reserved(c))] else old(procs) - {p}
    {
      hide Apply, Enabled, Exec;
      ghost var start := View();
      EnsureUsageRow(o.user, p, o, n, c);
      ExecOne(start, EnsureUsage(p));
      ok := ConditionalAdd(o.user, n, limit, p, o, c);
      trace := [EnsureUsage(p)] + [Reserve(p)];
      ExecAppend(start, [EnsureUsage(p)], Reserve(p));
    }

    /** `GREATEST(total_bytes - n, 0) WHERE user_id = u`. */
    method RemoveUsage(u: User, n: nat)
      modifies this`usage
      ensures usage == Refunded(old(usage), u, n)
    {
      if u in usage {
        usage := usage[u := if usage[u] >= n then usage[u] - n else 0];
      }
    }

    /** The refund of a failed upload; its own failure is ignored. */
    method RefundUsage(u: User, n: nat, fails: bool, ghost p: Pid, ghost o: Object)
      requires At(p, o, n, Refunding) && o.user == u && lock != Some(p)
      modifies this`usage, this`procs, this`leaked
      ensures View() == Apply(old(View()), if fails then Crash(p) else GiveBack(p, {}))
      ensures usage == if fails then old(usage) else Refunded(old(usage), u, n)
      ensures procs == old(procs) - {p}
    {
      hide Sum, Apply, Refunded;
      ghost var next := Apply(View(), if fails then Crash(p) else GiveBack(p, {}));
      if fails {
        CrashStep(View(), p);
      } else {
        RefundStep(View(), p);
        RemoveUsage(u, n);
      }
      procs, leaked := next.procs, next.leaked;
    }

    method CreateRow(o: Object, n: nat, fails: bool, ghost p: Pid, ghost c: nat) returns (ok: bool)
      requires At(p, o, n, Reserved(c))
      modifies this`rows, this`procs, this`acked
      ensures View() == Apply(old(View()), Create(p, !fails))
      ensures ok <==> !fails && o !in old(rows)
      ensures rows == if ok then old(rows)[o := Row(n, clock, None)] else old(rows)
      ensures procs == old(procs)[p := Uploading(o, n, if ok then Recorded(c) else Refunding)]
    {
      ghost var next := Apply(View(), Create(p, !fails));
      ok := !fails && o !in rows;
      if ok {
        rows := rows[o := Row(n, clock, None)];
      }
      procs, acked := next.procs, next.acked;
    }

    method PutBlob(o: Object, n: nat, fails: bool, ghost p: Pid, ghost c: nat)
      requires At(p, o, n, Recorded(c))
      modifies this`blobs, this`procs
      ensures View() == Apply(old(View()), Put(p, !fails))
      ensures blobs == if fails then old(blobs) else old(blobs)[o := n]
      ensures procs == old(procs)[p := Uploading(o, n, if fails then Unrecording(false) else Stored(c))]
    {
      ghost var next := Apply(View(), Put(p, !fails));
      if !fails {
        blobs := blobs[o := n];
      }
      procs := next.procs;
    }

    method HardDelete(o: Object, fails: bool, ghost p: Pid, ghost n: nat, ghost blob: bool)
      requires At(p, o, n, Unrecording(blob))
      modifies this`rows, this`procs
      ensures View() == Apply(old(View()), RemoveRow(p, !fails))
      ensures rows == if fails then old(rows) else old(rows) - {o}
      ensures procs == old(procs)[p := Uploading(o, n, if blob then Unstoring else Refunding)]
    {
      ghost var next := Apply(View(), RemoveRow(p, !fails));
      if !fails {
        rows := rows - {o};
      }
      procs := next.procs;
    }

    method DeleteBlob(o: Object, fails: bool, ghost p: Pid, ghost n: nat)
      requires At(p, o, n, Unstoring)
      modifies this`blobs, this`procs
      ensures View() == Apply(old(View()), RemoveBlob(p, !fails))
      ensures blobs == if fails then old(blobs) else old(blobs) - {o}
      ensures procs == old(procs)[p := Uploading(o, n, Refunding)]
    {
      ghost var next := Apply(View(), RemoveBlob(p, !fails));
      if !fails {
        blobs := blobs - {o};
      }
      procs := next.procs;
    }

    // -------------------------------------------------------------- UploadBundle

    /** The admission and the return of an upload write nothing. */
    ghost method Admit(p: Pid, o: Object, n: nat)
      requires Enabled(View(), BeginUpload(p, o, n))
      modifies this`procs
      ensures View() == Apply(old(View()), BeginUpload(p, o, n))
      ensures procs == old(procs)[p := Uploading(o, n, Admitted(|LiveSet(old(View()), o.user, Snapshot)|))]
    {
      procs := Apply(View(), BeginUpload(p, o, n)).procs;
    }

    ghost method Return(p: Pid, o: Object, n: nat, c: nat)
      requires At(p, o, n, Stored(c)) && Enabled(View(), Finish(p))
      modifies this`procs, this`acked
      ensures View() == Apply(old(View()), Finish(p))
      ensures procs == old(procs) - {p} && acked == old(acked) + {o}
    {
      var next := Apply(View(), Finish(p));
      procs, acked := next.procs, next.acked;
    }

    /** The rollback after a failed Put, and after a failed prune when `blob` is set: row,
        then blob, then reservation; each failure is ignored. */
    method RollBack(o: Object, n: nat, blob: bool, f: Faults, ghost p: Pid) returns (ghost trace: seq<Event>)
      requires At(p, o, n, Unrecording(blob)) && lock != Some(p)
      modifies this`usage, this`rows, this`blobs, this`procs, this`leaked
      ensures View() == Exec(old(View()), trace) && procs == old(procs) - {p}
      ensures rows == if f.removeRow then old(rows) else old(rows) - {o}
      ensures blobs == if blob && !f.removeBlob then old(blobs) - {o} else old(blobs)
      ensures usage == if f.refund then old(usage) else Refunded(old(usage), o.user, n)
    {
      hide Apply, Enabled, Exec;
      ghost var start := View();
      HardDelete(o, f.removeRow, p, n, blob);
      trace := [RemoveRow(p, !f.removeRow)];
      ExecOne(start, RemoveRow(p, !f.removeRow));
      if blob {
        DeleteBlob(o, f.removeBlob, p, n);
        ExecAppend(start, trace, RemoveBlob(p, !f.removeBlob));
        trace := trace + [RemoveBlob(p, !f.removeBlob)];
      }
      RefundUsage(o.user, n, f.refund, p, o);
      ghost var last := if f.refund then Crash(p) else GiveBack(p, {});
      ExecAppend(start, trace, last);
      trace := trace + [last];
    }

    /** Row, then blob; what fails is rolled back. */
    method Persist(o: Object, n: nat, f: Faults, ghost p: Pid, ghost c: nat)
      returns (error: Option<UploadError>, ghost trace: seq<Event>)
      requires At(p, o, n, Reserved(c)) && lock != Some(p)
      modifies this`usage, this`rows, this`blobs, this`procs, this`leaked, this`acked
      ensures View() == Exec(old(View()), trace)
      ensures error == if f.create || o in old(rows) then Some(CreateFailed) else if f.put then Some(StoreFailed) else None
      ensures error.None? ==>
        && rows == old(rows)[o := Row(n, clock, None)] && blobs == old(blobs)[o := n] && usage == old(usage)
        && procs == old(procs)[p := Uploading(o, n, Stored(c))]
      ensures error.Some? ==>
        && procs == old(procs) - {p} && blobs == old(blobs)
        && rows == (if error == Some(StoreFailed) && f.removeRow then old(rows)[o := Row(n, clock, None)] else old(rows))
        && usage == if f.refund then old(usage) else Refunded(old(usage), o.user, n)
    {
      hide Apply, Enabled, Exec, Refunded;
      ghost var start := View();
      var ok := CreateRow(o, n, f.create, p, c);
      trace := [Create(p, !f.create)];
      ExecOne(start, Create(p, !f.create));
      if !ok {
        RefundUsage(o.user, n, f.refund, p, o);
        ghost var last := if f.refund then Crash(p) else GiveBack(p, {});
        ExecAppend(start, trace, last);
        return Some(CreateFailed), trace + [last];
      }
      PutBlob(o, n, f.put, p, c);
      ExecAppend(start, trace, Put(p, !f.put));
      trace := trace + [Put(p, !f.put)];
      if f.put {
        ghost var undo := RollBack(o, n, false, f, p);
        ExecConcat(start, trace, undo);
        assert old(rows)[o := Row(n, clock, None)] - {o} == old(rows);
        return Some(StoreFailed), trace + undo;
      }
      error := None;
    }

    /** Reserve, record, store: the part both kinds of upload share. On failure everything
        is undone; on success the caller still holds the stored object. */
    method Ingest(o: Object, n: nat, f: Faults, ghost p: Pid, ghost c: nat)
      returns (error: Option<UploadError>, ghost trace: seq<Event>)
      requires At(p, o, n, Admitted(c)) && lock != Some(p) && o.user in tiers
      modifies this`usage, this`rows, this`blobs, this`procs, this`leaked, this`acked
      ensures View() == Exec(old(View()), trace)
      ensures error.None? ==> UploadStored(old(View()), View(), o, n) && procs == old(procs)[p := Uploading(o, n, Stored(c))]
      ensures error.Some? ==> UploadUndone(old(View()), View(), o, f) && procs == old(procs) - {p}
      ensures error == IngestError(old(View()), o, n, f)
    {
      hide Apply, Enabled, Exec, UploadUndone, Refunded, SameTotals;
      ghost var start := View();
      var ok;
      ok, trace := TryAddUsage(o, n, tiers[o.user].storage, p, c);
      if !ok {
        RejectionUndoes(start, View(), o, f);
        return Some(QuotaExceeded), trace;
      }
      ghost var steps;
      error, steps := Persist(o, n, f, p, c);
      ExecConcat(start, trace, steps);
      trace := trace + steps;
      if error.Some? {
        PersistUndoes(start, View(), o, n, Row(n, clock, None), f);
      }
    }

    /** An admitted upload up to its stored object. */
    method AdmitAndIngest(o: Object, n: nat, f: Faults, ghost p: Pid)
      returns (error: Option<UploadError>, ghost c: nat, ghost trace: seq<Event>)
      requires p !in procs && lock != Some(p) && o.user in tiers && (o.kind == Bundle ==> !KnownBundleId(View(), o.id))
      modifies this`usage, this`rows, this`blobs, this`procs, this`leaked, this`acked
      ensures View() == Exec(old(View()), trace) && c == |LiveSet(old(View()), o.user, Snapshot)|
      ensures error == IngestError(old(View()), o, n, f)
      ensures error.None? ==> UploadStored(old(View()), View(), o, n) && procs == old(procs)[p := Uploading(o, n, Stored(c))]
      ensures error.Some? ==> UploadUndone(old(View()), View(), o, f) && procs == old(procs)
    {
      hide Apply, Exec, UploadUndone, KnownBundleId, LiveSet, IngestError;
      ghost var start := View();
      Admit(p, o, n);
      ExecOne(start, BeginUpload(p, o, n));
      c := procs[p].stage.count;
      ghost var admitted := View();
      SameIngest(start, admitted, o, n, f);
      ghost var steps;
      error, steps := Ingest(o, n, f, p, c);
      trace := [BeginUpload(p, o, n)] + steps;
      ExecConcat(start, [BeginUpload(p, o, n)], steps);
      assert procs - {p} == old(procs);
      if error.Some? {
        UndoneFrom(start, admitted, View(), o, f);
      }
    }

    /** The checks before anything is written, in order. */
    method Screen(o: Object, device: Device) returns (refused: Option<UploadError>)
      ensures refused == Refusal(View(), o, device)
      ensures refused.None? ==> o.user in tiers && !KnownBundleId(View(), o.id)
    {
      hide KnownBundleId;
      var known := ExistsById(o.id);
      if known { return Some(BundleExists); }
      if device.Unregistered? { return Some(DeviceNotRegistered); }
      if device.Revoked? { return Some(DeviceRevoked); }
      if o.user !in tiers { return Some(UserNotFound); }
      refused := None;
    }

    method UploadBundle(o: Object, n: nat, device: Device, f: Faults, ghost p: Pid)
      returns (r: Result<Row, UploadError>, ghost trace: seq<Event>)
      requires p !in procs && lock != Some(p) && o.kind == Bundle
      modifies this`usage, this`rows, this`blobs, this`procs, this`leaked, this`acked
      ensures View() == Exec(old(View()), trace) && procs == old(procs)
      ensures r.Ok? ==> UploadStored(old(View()), View(), o, n) && r.value == Row(n, clock, None) && o in acked
      ensures r.Err? ==> UploadUndone(old(View()), View(), o, f)
      ensures ErrorOf(r) == BundleError(old(View()), o, n, device, f)
    {
      hide Apply, Exec, UploadUndone, KnownBundleId, LiveSet, Refusal;
      ghost var start := View();
      assert UploadUndone(start, start, o, f) by { RejectedEarly(start, o, f); }
      assert Exec(start, []) == start by { ExecNone(start); }
      var refused := Screen(o, device);
      if refused.Some? {
        return Err(refused.value), [];
      }
      UnknownIdIsNew(start, o);
      var error; ghost var c;
      error, c, trace := AdmitAndIngest(o, n, f, p);
      if error.Some? {
        return Err(error.value), trace;
      }
      Return(p, o, n, c);
      ExecAppend(start, trace, Finish(p));
      trace := trace + [Finish(p)];
      r := Ok(rows[o]);
    }

    // -------------------------------------------------------------- UploadSnapshot

    /** `NOT IN (... ORDER BY created_at DESC LIMIT keep)`: the oldest go. */
    method OldestBeyond(u: User, keep: nat) returns (victims: set<Object>)
      ensures PruneSet(View(), u, keep, victims)
    {
      var live := LiveObjects(u, Snapshot);
      var left := live;
      while |left| > keep
        invariant left <= live
        invariant |left| >= keep || left == live
        invariant forall o, v :: o in left && v in live - left ==> rows[v].created <= rows[o].created
      {
        var v := Oldest(left);
        left := left - {v};
      }
      victims := live - left;
      assert live - victims == left;
    }

    method Oldest(os: set<Object>) returns (v: Object)
      requires os != {} && os <= rows.Keys
      ensures v in os && forall o :: o in os ==> rows[v].created <= rows[o].created
    {
      v :| v in os;
      var rest := os - {v};
      while rest != {}
        invariant rest <= os && v in os
        invariant forall o :: o in os - rest ==> rows[v].created <= rows[o].created
        decreases rest
      {
        var o :| o in rest;
        if rows[o].created < rows[v].created { v := o; }
        rest := rest - {o};
      }
    }

    /** `UPDATE ... SET deleted_at = now() ... AND deleted_at IS NULL`. */
    method SoftDeleteRows(os: set<Object>)
      modifies this`rows
      ensures rows == SoftDelete(old(View()), os).rows
    {
      rows := map v | v in rows ::
        if v in os && rows[v].deletedAt.None? then rows[v].(deletedAt := Some(clock)) else rows[v];
    }

    /** The ids and sizes the pruning statement returns. */
    method PruneCandidates(u: User, keep: nat) returns (pruned: map<Object, nat>)
      ensures PruneSet(View(), u, keep, pruned.Keys)
      ensures pruned == SizesOf(View(), pruned.Keys)
    {
      hide PruneSet, SizesOf;
      var victims := OldestBeyond(u, keep);
      PruneSetKnown(View(), u, keep, victims);
      pruned := SizesFrom(rows, victims);
      SizesFromView(View(), victims);
    }

    method PruneOldest(o: Object, n: nat, fails: bool, ghost p: Pid, ghost c: nat)
      returns (pruned: map<Object, nat>)
      requires At(p, o, n, Stored(c)) && o.kind == Snapshot && o.user in tiers && c >= tiers[o.user].snapshots
      modifies this`rows, this`procs, this`acked
      ensures PruneSet(old(View()), o.user, tiers[o.user].snapshots, pruned.Keys)
      ensures pruned == SizesOf(old(View()), pruned.Keys)
      ensures View() == Apply(old(View()), Prune(p, pruned.Keys, !fails))
      ensures !fails ==> procs == if pruned == map[] then old(procs) - {p}
                                  else old(procs)[p := GivingBack(o.user, pruned, false)]
      ensures fails ==> procs == old(procs)[p := Uploading(o, n, Unrecording(true))] && rows == old(rows)
      ensures !fails ==> rows == SoftDelete(old(View()), pruned.Keys).rows && acked == old(acked) + {o}
    {
      hide Sum, PruneSet, SizesOf, SoftDelete, Apply;
      ghost var start := View();
      pruned := PruneCandidates(o.user, tiers[o.user].snapshots);
      if fails {
        PruneFailStep(start, p, pruned.Keys);
        procs := procs[p := Uploading(o, n, Unrecording(true))];
      } else {
        PruneStep(start, p, pruned);
        SoftDeleteRows(pruned.Keys);
        acked := acked + {o};
        procs := if pruned == map[] then procs - {p} else procs[p := GivingBack(o.user, pruned, false)];
      }
    }

    /** One RemoveUsage of a give-back. */
    method ReturnUsage(u: User, n: nat, fails: bool, ghost p: Pid, ghost part: set<Object>)
      requires p in procs && procs[p].GivingBack? && procs[p].user == u && lock != Some(p)
      requires part <= procs[p].pending.Keys && part != {}
      requires if procs[p].atOnce then part == procs[p].pending.Keys else |part| == 1
      requires n == Sum(Only(procs[p].pending, part))
      modifies this`usage, this`procs, this`leaked
      ensures View() == Apply(old(View()), if fails then Crash(p) else GiveBack(p, part))
      ensures usage == if fails then old(usage) else Refunded(old(usage), u, n)
      ensures procs == if fails || old(procs[p].pending) - part == map[] then old(procs) - {p}
                       else old(procs)[p := old(procs[p]).(pending := old(procs[p].pending) - part)]
    {
      hide Sum, Apply, Refunded;
      ghost var next := Apply(View(), if fails then Crash(p) else GiveBack(p, part));
      if fails {
        CrashStep(View(), p);
      } else {
        ReturnStep(View(), p, part);
        RemoveUsage(u, n);
      }
      procs, leaked := next.procs, next.leaked;
    }

    /** The loop over the pruned snapshots; the first failing update ends it. */
    method ReturnPruned(u: User, pruned: map<Object, nat>, f: Faults, ghost p: Pid)
      returns (ok: bool, ghost trace: seq<Event>)
      requires lock != Some(p)
      requires if pruned == map[] then p !in procs else p in procs && procs[p] == GivingBack(u, pruned, false)
      modifies this`usage, this`procs, this`leaked
      ensures View() == Exec(old(View()), trace) && procs == old(procs) - {p}
      ensures ok <==> f.giveBack !! pruned.Keys
      ensures ok ==> usage == Refunded(old(usage), u, Sum(pruned))
    {
      hide Apply, Exec, Sum, Refunded;
      ghost var start := View();
      ghost var others := procs - {p};
      RefundedNothing(usage, u);
      SumEmpty<Object>();
      trace := [];
      assert Exec(start, []) == start by { ExecNone(start); }
      var rest := pruned;
      while rest != map[]
        invariant forall v :: v in pruned && v !in rest ==> v !in f.giveBack
        invariant forall v :: v in rest ==> v in pruned
        invariant procs - {p} == others && lock == old(lock)
        invariant if rest == map[] then p !in procs else p in procs && procs[p] == GivingBack(u, rest, false)
        invariant View() == Exec(start, trace)
        invariant Sum(rest) <= Sum(pruned) && usage == Refunded(old(usage), u, Sum(pruned) - Sum(rest))
        decreases rest.Keys
      {
        var v :| v in rest;
        assert rest[v] == Sum(Only(rest, {v})) by { SumSingle(rest, v); }
        SumTake(rest, v);
        RefundedTwice(old(usage), u, Sum(pruned) - Sum(rest), rest[v]);
        ReturnUsage(u, rest[v], v in f.giveBack, p, {v});
        ghost var step := if v in f.giveBack then Crash(p) else GiveBack(p, {v});
        ExecAppend(start, trace, step);
        trace := trace + [step];
        if v in f.giveBack {
          return false, trace;
        }
        assert (rest - {v}).Keys == rest.Keys - {v};
        rest := rest - {v};
      }
      ok := true;
    }

    /** The end of a snapshot upload: prune when the tier was full, and give back what went. */
    method KeepNewest(o: Object, n: nat, count: nat, f: Faults, ghost p: Pid)
      returns (error: Option<UploadError>, ghost pruned: map<Object, nat>, ghost trace: seq<Event>)
      requires At(p, o, n, Stored(count)) && lock != Some(p) && o.kind == Snapshot && o.user in tiers
      requires |LiveSet(View(), o.user, Snapshot)| == count + 1
      modifies this`usage, this`rows, this`blobs, this`procs, this`leaked, this`acked
      ensures View() == Exec(old(View()), trace) && procs == old(procs) - {p}
      ensures if count < tiers[o.user].snapshots then pruned == map[]
              else PruneSet(old(View()), o.user, tiers[o.user].snapshots, pruned.Keys)
      ensures pruned == SizesOf(old(View()), pruned.Keys)
      ensures error == if count < tiers[o.user].snapshots then None
                       else if f.prune then Some(PruneFailed)
                       else if !(f.giveBack !! pruned.Keys) then Some(ReturnFailed) else None
      ensures error != Some(PruneFailed) ==>
        rows == SoftDelete(old(View()), pruned.Keys).rows && blobs == old(blobs) && o in acked
      ensures error.None? ==> usage == Refunded(old(usage), o.user, Sum(pruned))
      ensures error == Some(PruneFailed) ==>
        && rows == (if f.removeRow then old(rows) else old(rows) - {o})
        && blobs == (if f.removeBlob then old(blobs) else old(blobs) - {o})
        && usage == if f.refund then old(usage) else Refunded(old(usage), o.user, n)
    {
      hide Apply, Exec, PruneSet, LiveSet, Refunded, Sum, SizesOf, SoftDelete;
      ghost var start := View();
      if count < tiers[o.user].snapshots {
        Return(p, o, n, count);
        ExecOne(start, Finish(p));
        NothingPrunedAway(start, usage, o.user, map[]);
        return None, map[], [Finish(p)];
      }
      var gone := PruneOldest(o, n, f.prune, p, count);
      pruned := gone;
      ghost var step := Prune(p, gone.Keys, !f.prune);
      ExecOne(start, step);
      if f.prune {
        ghost var undo := RollBack(o, n, true, f, p);
        ExecConcat(start, [step], undo);
        return Some(PruneFailed), pruned, [step] + undo;
      }
      var ok; ghost var gives;
      ok, gives := ReturnPruned(o.user, gone, f, p);
      ExecConcat(start, [step], gives);
      error, trace := if ok then None else Some(ReturnFailed), [step] + gives;
    }

    method UploadSnapshot(o: Object, n: nat, f: Faults, ghost p: Pid)
      returns (r: Result<Row, UploadError>, ghost pruned: map<Object, nat>, ghost trace: seq<Event>)
      requires p !in procs && lock != Some(p) && o.kind == Snapshot
      modifies this`usage, this`rows, this`blobs, this`procs, this`leaked, this`acked
      ensures View() == Exec(old(View()), trace) && procs == old(procs)
      ensures ErrorOf(r) == SnapshotError(old(View()), o, n, f, pruned.Keys)
      ensures r.Ok? ==> SnapshotStored(old(View()), View(), o, n, pruned, true) && r.value == Row(n, clock, None) && o in acked
      ensures ErrorOf(r) == Some(ReturnFailed) ==> SnapshotStored(old(View()), View(), o, n, pruned, false) && o in acked
      ensures ErrorOf(r) == Some(PruneFailed) ==> PruneUndone(old(View()), View(), o, f)
      ensures r.Err? && r.error != PruneFailed && r.error != ReturnFailed ==> UploadUndone(old(View()), View(), o, f)
    {
      hide Apply, Exec, UploadUndone, PruneUndone, LiveSet, Refunded, SnapshotStored, PruneSet, SizesOf, SoftDelete, IngestError, Sum;
      ghost var start := View();
      pruned := map[];
      var count := CountSnapshots(o.user);
      if o.user !in tiers {
        assert Exec(start, []) == start by { ExecNone(start); }
        assert UploadUndone(start, start, o, f) by { RejectedEarly(start, o, f); }
        return Err(UserNotFound), map[], [];
      }
      var error; ghost var c, steps;
      error, c, trace := AdmitAndIngest(o, n, f, p);
      if error.Some? {
        return Err(error.value), map[], trace;
      }
      ghost var stored := View();
      OneMoreSnapshot(start, stored, o, n);
      error, pruned, steps := KeepNewest(o, n, count, f, p);
      ExecConcat(start, trace, steps);
      trace := trace + steps;
      if error == Some(PruneFailed) {
        PruneRollbackUndoes(start, View(), o, n, Row(n, clock, None), f);
      } else {
        PrunedFromUpload(start, stored, View(), o, n, pruned, error.None?);
      }
      r := if error.Some? then Err(error.value) else Ok(Row(n, clock, None));
    }

    // -------------------------------------------------------------- deletion

    method DeleteBundle(o: Object, fails: bool, ghost p: Pid) returns (r: Result<nat, UploadError>, ghost trace: seq<Event>)
      requires p !in procs && lock != Some(p) && o.kind == Bundle
      modifies this`usage, this`rows, this`procs, this`leaked
      ensures View() == Exec(old(View()), trace) && procs == old(procs)
      ensures !old(Live(View(), o)) ==> r == Err(NotFound) && View() == old(View())
      ensures old(Live(View(), o)) ==>
        && rows == old(rows)[o := old(rows[o]).(deletedAt := Some(clock))]
        && usage == (if fails then old(usage) else Refunded(old(usage), o.user, old(rows[o].size)))
        && r == if fails then Err(ReturnFailed) else Ok(old(rows[o].size))
    {
      hide Apply, Exec, Refunded, SoftDelete, Sum;
      ghost var start := View();
      if o !in rows || rows[o].deletedAt.Some? {
        assert Exec(start, []) == start by { ExecNone(start); }
        return Err(NotFound), [];
      }
      var size := rows[o].size;
      DeleteStep(start, p, o);
      SoftDeleteRows({o});
      procs := procs[p := GivingBack(o.user, map[o := size], false)];
      ExecOne(start, BeginDelete(p, o));
      SumSingle(map[o := size], o);
      ReturnUsage(o.user, size, fails, p, {o});
      ghost var step := if fails then Crash(p) else GiveBack(p, {o});
      ExecAppend(start, [BeginDelete(p, o)], step);
      trace := [BeginDelete(p, o)] + [step];
      assert map[o := size] - {o} == map[];
      assert procs == old(procs);
      r := if fails then Err(ReturnFailed) else Ok(size);
    }

    method SumSizes(m: map<Object, nat>) returns (n: nat)
      ensures n == Sum(m)
    {
      hide Sum;
      n := 0;
      var rest := m;
      SumEmpty<Object>();
      while rest != map[]
        invariant n + Sum(rest) == Sum(m)
        decreases rest.Keys
      {
        var k :| k in rest;
        SumTake(rest, k);
        n := n + rest[k];
        assert (rest - {k}).Keys == rest.Keys - {k};
        rest := rest - {k};
      }
    }

    /** `UPDATE ... RETURNING size_bytes` over the live objects of one kind. */
    method SoftDeleteAllByUser(u: User, k: Kind, ghost p: Pid) returns (bytes: nat, ghost sizes: map<Object, nat>)
      requires p !in procs
      modifies this`rows, this`procs
      ensures sizes == SizesOf(old(View()), LiveSet(old(View()), u, k)) && sizes.Keys == LiveSet(old(View()), u, k)
      ensures bytes == Sum(sizes)
      ensures View() == Apply(old(View()), BeginAccountDelete(p, u, k))
      ensures rows == SoftDelete(old(View()), sizes.Keys).rows && LiveSet(View(), u, k) == {}
      ensures procs == if sizes == map[] then old(procs) else old(procs)[p := GivingBack(u, sizes, true)]
    {
      hide Apply, Sum, SoftDelete, LiveSet, SizesOf, SizesFrom;
      ghost var start := View();
      var live := LiveObjects(u, k);
      var found := SizesFrom(rows, live);
      SizesFromView(start, live);
      sizes := found;
      bytes := SumSizes(found);
      DeleteAllStep(start, p, u, k);
      SoftDeleteRows(live);
      assert procs - {p} == procs;
      assert sizes == map[] <==> live == {};
      procs := if live == {} then procs else procs[p := GivingBack(u, sizes, true)];
      NoneLeft(start, View(), u, k);
    }

    /** One subtraction of all the bytes, if there are any. */
    method ReturnAtOnce(u: User, bytes: nat, fails: bool, ghost p: Pid, ghost sizes: map<Object, nat>)
      returns (ok: bool, ghost trace: seq<Event>)
      requires lock != Some(p) && bytes == Sum(sizes)
      requires if sizes == map[] then p !in procs else p in procs && procs[p] == GivingBack(u, sizes, true)
      modifies this`usage, this`procs, this`leaked
      ensures View() == Exec(old(View()), trace) && procs == old(procs) - {p}
      ensures ok <==> !fails || bytes == 0
      ensures usage == if ok then Refunded(old(usage), u, bytes) else old(usage)
    {
      hide Apply, Sum, Refunded;
      ghost var start := View();
      trace, ok := [], true;
      RefundedNothing(usage, u);
      NoBytesOf(sizes);
      if bytes > 0 {
        assert Only(sizes, sizes.Keys) == sizes && sizes - sizes.Keys == map[];
        ReturnUsage(u, bytes, fails, p, sizes.Keys);
        ok := !fails;
        trace := [if fails then Crash(p) else GiveBack(p, sizes.Keys)];
        ExecOne(start, trace[0]);
      } else if sizes != map[] {
        assert Only(sizes, sizes.Keys) == sizes;
        ZeroReturn(start, p, sizes.Keys);
        procs := procs - {p};
        trace := [GiveBack(p, sizes.Keys)];
        ExecOne(start, trace[0]);
      }
    }

    /** SoftDeleteAllByUser for one kind, then one subtraction of all its bytes. */
    method DeleteAll(u: User, k: Kind, fails: bool, ghost p: Pid) returns (ok: bool, ghost trace: seq<Event>)
      requires p !in procs && lock != Some(p)
      modifies this`usage, this`rows, this`procs, this`leaked
      ensures View() == Exec(old(View()), trace) && procs == old(procs)
      ensures LiveSet(View(), u, k) == {}
      ensures rows == SoftDelete(old(View()), LiveSet(old(View()), u, k)).rows
      ensures ok <==> !fails || Sum(SizesOf(old(View()), LiveSet(old(View()), u, k))) == 0
      ensures usage == if !ok then old(usage) else Refunded(old(usage), u, Sum(SizesOf(old(View()), LiveSet(old(View()), u, k))))
    {
      hide Apply, Exec, Sum, Refunded, SoftDelete, LiveSet, SizesOf;
      ghost var start := View();
      var bytes; ghost var sizes;
      bytes, sizes := SoftDeleteAllByUser(u, k, p);
      ghost var thinned := View();
      ghost var steps;
      ok, steps := ReturnAtOnce(u, bytes, fails, p, sizes);
      ExecOne(start, BeginAccountDelete(p, u, k));
      trace := [BeginAccountDelete(p, u, k)] + steps;
      ExecConcat(start, [BeginAccountDelete(p, u, k)], steps);
      SameLive(thinned, View(), u, k);
    }

    /** The data part of DeleteAccount: bundles, then snapshots; the first error ends it. */
    method DeleteAccountData(u: User, bundlesFail: bool, snapshotsFail: bool, ghost p: Pid)
      returns (ok: bool, ghost trace: seq<Event>)
      requires p !in procs && lock != Some(p)
      modifies this`usage, this`rows, this`procs, this`leaked
      ensures View() == Exec(old(View()), trace) && procs == old(procs)
      ensures ok ==> forall o :: o in rows && o.user == u ==> rows[o].deletedAt.Some?
      ensures rows.Keys == old(rows).Keys
    {
      hide Apply, Exec, Sum, Refunded;
      ghost var start := View();
      ok, trace := DeleteAll(u, Bundle, bundlesFail, p);
      if ok {
        ghost var middle := View();
        ghost var steps;
        ok, steps := DeleteAll(u, Snapshot, snapshotsFail, p);
        ExecConcat(start, trace, steps);
        trace := trace + steps;
        forall o | o in rows && o.user == u ensures rows[o].deletedAt.Some? {
          assert o !in LiveSet(middle, u, Bundle) && o !in LiveSet(View(), u, Snapshot);
        }
      }
    }

    // -------------------------------------------------------------- purge

    /** `deleted_at < before ORDER BY deleted_at LIMIT 100`. */
    method ListDeletedBefore(k: Kind, before: Time) returns (batch: seq<Object>)
      ensures PurgePage(View(), k, before, batch)
    {
      batch := [];
      var rest := set o | o in rows && o.kind == k && rows[o].deletedAt.Some? && rows[o].deletedAt.value < before;
      while rest != {} && |batch| < PAGE
        invariant |batch| <= PAGE
        invariant forall o :: o in rest <==> o in rows && Expired(View(), o, k, before) && o !in batch
        invariant forall i :: 0 <= i < |batch| ==> Expired(View(), batch[i], k, before)
        invariant forall i, j :: 0 <= i < j < |batch| ==>
          batch[i] != batch[j] && rows[batch[i]].deletedAt.value <= rows[batch[j]].deletedAt.value
        invariant forall i, o :: 0 <= i < |batch| && o in rest ==>
          rows[batch[i]].deletedAt.value <= rows[o].deletedAt.value
        decreases rest
      {
        var o := EarliestDeleted(rest);
        batch := batch + [o];
        rest := rest - {o};
      }
    }

    method EarliestDeleted(os: set<Object>) returns (v: Object)
      requires os != {} && os <= rows.Keys && forall o :: o in os ==> rows[o].deletedAt.Some?
      ensures v in os && forall o :: o in os ==> rows[v].deletedAt.value <= rows[o].deletedAt.value
    {
      v :| v in os;
      var rest := os - {v};
      while rest != {}
        invariant rest <= os && v in os
        invariant forall o :: o in os - rest ==> rows[v].deletedAt.value <= rows[o].deletedAt.value
        decreases rest
      {
        var o :| o in rest;
        if rows[o].deletedAt.value < rows[v].deletedAt.value { v := o; }
        rest := rest - {o};
      }
    }

    /** pg_try_advisory_lock, then the page to purge. */
    method ElectPurger(p: Pid, k: Kind, before: Time) returns (won: bool, batch: seq<Object>)
      requires p !in procs
      modifies this`lock, this`procs
      ensures won <==> old(lock).None?
      ensures won ==> PurgePage(old(View()), k, before, batch) && procs == old(procs)[p := Purging(batch, false)]
      ensures won ==> View() == Apply(old(View()), BeginPurge(p, k, before, batch)) && lock == Some(p)
      ensures !won ==> View() == old(View())
    {
      hide PurgePage, Apply;
      if lock.Some? {
        return false, [];
      }
      batch := ListDeletedBefore(k, before);
      PurgeBegins(View(), p, k, before, batch);
      won := true;
      lock := Some(p);
      procs := procs[p := Purging(batch, false)];
    }

    /** Blob, then row; either failure leaves the row for a later run. */
    method PurgeOne(p: Pid, o: Object, ghost rest: seq<Object>, blobFails: bool, rowFails: bool)
      returns (ok: bool, ghost trace: seq<Event>)
      requires p in procs && procs[p] == Purging([o] + rest, false)
      modifies this`rows, this`blobs, this`procs
      ensures View() == Exec(old(View()), trace)
      ensures procs == old(procs)[p := Purging(rest, false)]
      ensures ok <==> !blobFails && !rowFails
      ensures blobs == if blobFails then old(blobs) else old(blobs) - {o}
      ensures rows == if ok then old(rows) - {o} else old(rows)
    {
      hide Apply, Exec;
      ghost var start := View();
      ExecOne(start, PurgeBlob(p, !blobFails));
      PurgeBlobStep(start, p, o, rest, !blobFails);
      if blobFails {
        procs := procs[p := Purging(rest, false)];
        return false, [PurgeBlob(p, false)];
      }
      blobs := blobs - {o};
      procs := procs[p := Purging([o] + rest, true)];
      PurgeRowStep(View(), p, o, rest, !rowFails);
      ExecAppend(start, [PurgeBlob(p, true)], PurgeRow(p, !rowFails));
      if !rowFails {
        rows := rows - {o};
      }
      procs := procs[p := Purging(rest, false)];
      ok, trace := !rowFails, [PurgeBlob(p, true)] + [PurgeRow(p, !rowFails)];
    }

    method PurgeBatch(p: Pid, batch: seq<Object>, blobFails: set<Object>, rowFails: set<Object>)
      returns (report: Report, ghost trace: seq<Event>)
      requires p in procs && procs[p] == Purging(batch, false)
      requires forall o :: o in batch ==> o in rows
      modifies this`rows, this`blobs, this`procs
      ensures View() == Exec(old(View()), trace) && procs == old(procs)[p := Purging([], false)]
      ensures rows == old(rows) - Purgeable(batch, blobFails + rowFails)
      ensures blobs == old(blobs) - Purgeable(batch, blobFails)
      ensures report == Outcome(old(rows), batch, blobFails + rowFails)
    {
      hide Apply, Exec, Outcome, Purgeable;
      ghost var start := View();
      report := Report(0, 0, 0);
      trace := [];
      var i, sizes := 0, rows;
      ExecNone(start);
      NothingPurged(rows, blobs, blobFails, rowFails);
      assert batch[..0] == [];
      while i < |batch|
        invariant 0 <= i <= |batch|
        invariant procs == old(procs)[p := Purging(batch[i..], false)]
        invariant View() == Exec(start, trace)
        invariant rows == sizes - Purgeable(batch[..i], blobFails + rowFails)
        invariant blobs == start.blobs - Purgeable(batch[..i], blobFails)
        invariant report == Outcome(sizes, batch[..i], blobFails + rowFails)
      {
        var o := batch[i];
        assert batch[i..] == [o] + batch[i + 1..] && batch[..i + 1] == batch[..i] + [o];
        OnePurged(sizes, batch[..i], o, blobFails + rowFails);
        KeysPurged(sizes, batch[..i], o, blobFails + rowFails);
        KeysPurged(start.blobs, batch[..i], o, blobFails);
        var ok; ghost var steps;
        ok, steps := PurgeOne(p, o, batch[i + 1..], o in blobFails, o in rowFails);
        ExecConcat(start, trace, steps);
        trace := trace + steps;
        report := if ok then report.(expired := report.expired + 1, bytes := report.bytes + sizes[o].size)
                  else report.(failed := report.failed + 1);
        i := i + 1;
      }
      assert batch[..i] == batch && batch[i..] == [];
    }

    /** One scheduler tick of the retention purge: at most one page, under the lock. Only
        rows that were soft-deleted before the cutoff go, and usage is not touched. */
    method PurgeExpired(p: Pid, k: Kind, before: Time, blobFails: set<Object>, rowFails: set<Object>)
      returns (ran: bool, report: Report, ghost batch: seq<Object>, ghost trace: seq<Event>)
      requires p !in procs
      modifies this`lock, this`rows, this`blobs, this`procs
      ensures View() == Exec(old(View()), trace) && procs == old(procs) && lock == old(lock)
      ensures ran <==> old(lock).None?
      ensures !ran ==> rows == old(rows) && blobs == old(blobs)
      ensures ran ==> PurgePage(old(View()), k, before, batch)
      ensures ran ==> rows == old(rows) - Purgeable(batch, blobFails + rowFails)
      ensures ran ==> blobs == old(blobs) - Purgeable(batch, blobFails)
      ensures ran ==> (forall o :: o in batch ==> o in old(rows)) && report == Outcome(old(rows), batch, blobFails + rowFails)
    {
      hide Apply, Exec, PurgePage, Outcome, Purgeable;
      ghost var start := View();
      ExecNone(start);
      var page;
      ran, page := ElectPurger(p, k, before);
      batch, trace, report := page, [], Report(0, 0, 0);
      if ran {
        PageInRows(start, k, before, page);
        ExecOne(start, BeginPurge(p, k, before, page));
        ghost var steps;
        report, steps := PurgeBatch(p, page, blobFails, rowFails);
        trace := [BeginPurge(p, k, before, page)] + steps;
        ExecConcat(start, [BeginPurge(p, k, before, page)], steps);
        PurgeEnds(View(), p);
        ExecAppend(start, trace, EndPurge(p));
        trace := trace + [EndPurge(p)];
        lock := None;
        procs := procs - {p};
        assert procs == start.procs;
      }
    }
  }
}
