/**
 The life of a synced object across the SQL tables, the blob store and the usage counters,
 as a state machine. One event is one SQL statement, one blob-store call or the death of a
 process; a list of events is therefore one interleaving of any number of uploads,
 deletions, prunes, purges, recalculations and account deletions. An event whose guard
 does not hold changes nothing, so the theorems range over every list of events.
 */
module Lifecycle {
  import opened Wrappers
  import opened MapSum

  type User(==, !new)  // uuid
  type ObjectId(==, !new)  // bundle_id or snapshot_id
  type Pid = nat
  type Time = nat

  const PAGE: nat := 100  // retentionCleanupBatchSize

  datatype Kind = Bundle | Snapshot

  /** Primary key of a metadata row, and the key of its blob. */
  datatype Object = Object(kind: Kind, user: User, id: ObjectId)

  datatype Row = Row(size: nat, created: Time, deletedAt: Option<Time>)

  datatype Tier = Tier(storage: nat, snapshots: nat)

  /** How far one upload has come. `Unwinding` stages undo an upload that failed. */
  datatype Stage =
    | Admitted(count: nat)    // existence check and snapshot count done
    | Ensured(count: nat)     // the usage row exists
    | Reserved(count: nat)    // bytes added to the usage row
    | Recorded(count: nat)    // metadata row inserted
    | Stored(count: nat)      // blob written
    | Unrecording(blob: bool) // Put or prune failed: the row goes next, then the blob if set
    | Unstoring               // prune failed: the blob goes next
    | Refunding               // the reservation goes next

  datatype Proc =
    | Uploading(obj: Object, size: nat, stage: Stage)
    | GivingBack(user: User, pending: map<Object, nat>, atOnce: bool)
    | Purging(batch: seq<Object>, blobGone: bool)

  /** `leaked` and `acked` are history: bytes whose owner died before giving them back, and
      objects whose upload returned success. */
  datatype Server = Server(
    clock: Time,
    tiers: map<User, Tier>,
    usage: map<User, nat>,
    rows: map<Object, Row>,
    blobs: map<Object, nat>,
    lock: Option<Pid>,
    procs: map<Pid, Proc>,
    leaked: map<User, nat>,
    acked: set<Object>)

  datatype Event =
    | Tick(elapsed: nat)
    | BeginUpload(p: Pid, obj: Object, size: nat)
    | EnsureUsage(p: Pid)
    | Reserve(p: Pid)
    | Create(p: Pid, ok: bool)
    | Put(p: Pid, ok: bool)
    | Prune(p: Pid, victims: set<Object>, ok: bool)
    | Finish(p: Pid)
    | RemoveRow(p: Pid, ok: bool)
    | RemoveBlob(p: Pid, ok: bool)
    | GiveBack(p: Pid, part: set<Object>)
    | BeginDelete(p: Pid, obj: Object)
    | BeginAccountDelete(p: Pid, user: User, kind: Kind)
    | BeginPurge(p: Pid, kind: Kind, before: Time, batch: seq<Object>)
    | PurgeBlob(p: Pid, ok: bool)
    | PurgeRow(p: Pid, ok: bool)
    | EndPurge(p: Pid)
    | Crash(p: Pid)
    | Recalculate(users: set<User>)
    | DropUsage(user: User)

  // ---------------------------------------------------------------- reading the state

  ghost predicate Live(s: Server, o: Object) {
    o in s.rows && s.rows[o].deletedAt.None?
  }

  ghost function Total(s: Server, u: User): nat {
    if u in s.usage then s.usage[u] else 0
  }

  ghost function Limit(s: Server, u: User): nat {
    if u in s.tiers then s.tiers[u].storage else 0
  }

  ghost function LiveSet(s: Server, u: User, k: Kind): set<Object> {
    set o | o in s.rows && o.user == u && o.kind == k && Live(s, o)
  }

  ghost function LiveSizes(s: Server, u: User): map<Object, nat> {
    map o | o in s.rows && o.user == u && Live(s, o) :: s.rows[o].size
  }

  ghost predicate Uploads(s: Server, p: Pid) {
    p in s.procs && s.procs[p].Uploading?
  }

  ghost predicate Returns(s: Server, p: Pid) {
    p in s.procs && s.procs[p].GivingBack?
  }

  ghost predicate Purges(s: Server, p: Pid) {
    p in s.procs && s.procs[p].Purging?
  }

  /** The bytes a process has taken from or not yet returned to the usage row of `u`. */
  ghost function Owes(pr: Proc, u: User): nat {
    match pr
    case Uploading(o, size, st) =>
      if o.user == u && (st.Reserved? || st.Unstoring? || st.Refunding?) then size else 0
    case GivingBack(v, pending, _) => if v == u then Sum(pending) else 0
    case Purging(_, _) => 0
  }

  ghost function Debts(s: Server, u: User): map<Pid, nat> {
    map p | p in s.procs :: Owes(s.procs[p], u)
  }

  ghost function LiveBytes(s: Server, u: User): nat { Sum(LiveSizes(s, u)) }

  ghost function OwedBytes(s: Server, u: User): nat { Sum(Debts(s, u)) }

  ghost function Leaked(s: Server, u: User): nat {
    if u in s.leaked then s.leaked[u] else 0
  }

  // ---------------------------------------------------------------- statement guards

  /** `snapshot_id NOT IN (the newest keep live snapshots)`. */
  ghost predicate PruneSet(s: Server, u: User, keep: nat, victims: set<Object>) {
    var live := LiveSet(s, u, Snapshot);
    && victims <= live
    && |live - victims| == (if |live| < keep then |live| else keep)
    && forall o, v | o in live - victims && v in victims :: s.rows[v].created <= s.rows[o].created
  }

  ghost predicate Expired(s: Server, o: Object, k: Kind, before: Time) {
    o in s.rows && o.kind == k && s.rows[o].deletedAt.Some? && s.rows[o].deletedAt.value < before
  }

  /** One page of `deleted_at < before ORDER BY deleted_at LIMIT 100`. */
  ghost predicate PurgePage(s: Server, k: Kind, before: Time, batch: seq<Object>) {
    && |batch| <= PAGE
    && (forall i | 0 <= i < |batch| :: Expired(s, batch[i], k, before))
    && (forall i, j | 0 <= i < j < |batch| ::
          batch[i] != batch[j] && s.rows[batch[i]].deletedAt.value <= s.rows[batch[j]].deletedAt.value)
    && (forall o | o in s.rows && Expired(s, o, k, before) && o !in batch ::
          |batch| == PAGE &&
          forall b | b in batch :: s.rows[b].deletedAt.value <= s.rows[o].deletedAt.value)
  }

  ghost predicate KnownBundleId(s: Server, id: ObjectId) {
    exists o :: o in s.rows && o.kind == Bundle && o.id == id
  }

  ghost predicate Enabled(s: Server, e: Event) {
    match e
    case Tick(_) => true
    case BeginUpload(p, o, _) =>
      p !in s.procs && o.user in s.tiers && (o.kind == Bundle ==> !KnownBundleId(s, o.id))
    case EnsureUsage(p) => Uploads(s, p) && s.procs[p].stage.Admitted?
    case Reserve(p) => Uploads(s, p) && s.procs[p].stage.Ensured?
    case Create(p, _) => Uploads(s, p) && s.procs[p].stage.Reserved?
    case Put(p, _) => Uploads(s, p) && s.procs[p].stage.Recorded?
    case Prune(p, victims, _) =>
      && Uploads(s, p) && s.procs[p].stage.Stored? && s.procs[p].obj.kind == Snapshot
      && var u := s.procs[p].obj.user;
      u in s.tiers && s.procs[p].stage.count >= s.tiers[u].snapshots &&
      PruneSet(s, u, s.tiers[u].snapshots, victims)
    case Finish(p) =>
      && Uploads(s, p) && s.procs[p].stage.Stored?
      && var o := s.procs[p].obj;
      o.kind == Snapshot ==> o.user in s.tiers && s.procs[p].stage.count < s.tiers[o.user].snapshots
    case RemoveRow(p, _) => Uploads(s, p) && s.procs[p].stage.Unrecording?
    case RemoveBlob(p, _) => Uploads(s, p) && s.procs[p].stage.Unstoring?
    case GiveBack(p, part) =>
      || (Uploads(s, p) && s.procs[p].stage.Refunding? && part == {})
      || (Returns(s, p) && part <= s.procs[p].pending.Keys && part != {} &&
          (if s.procs[p].atOnce then part == s.procs[p].pending.Keys else |part| == 1))
    case BeginDelete(p, o) => p !in s.procs && o.kind == Bundle && Live(s, o)
    case BeginAccountDelete(p, _, _) => p !in s.procs
    case BeginPurge(p, k, before, batch) => p !in s.procs && s.lock.None? && PurgePage(s, k, before, batch)
    case PurgeBlob(p, _) => Purges(s, p) && s.procs[p].batch != [] && !s.procs[p].blobGone
    case PurgeRow(p, _) => Purges(s, p) && s.procs[p].batch != [] && s.procs[p].blobGone
    case EndPurge(p) => Purges(s, p) && s.procs[p].batch == []
    case Crash(p) => p in s.procs
    case Recalculate(_) => true
    case DropUsage(_) => true
  }

  // ---------------------------------------------------------------- statement effects

  ghost function At(s: Server, p: Pid, st: Stage): Server
    requires Uploads(s, p)
  {
    s.(procs := s.procs[p := s.procs[p].(stage := st)])
  }

  ghost function Ended(s: Server, p: Pid): Server {
    s.(procs := s.procs - {p})
  }

  /** `GREATEST(total_bytes - n, 0) WHERE user_id = u`: a missing row stays missing. */
  ghost function Subtract(s: Server, u: User, n: nat): (t: Server)
    ensures t == s.(usage := t.usage)
  {
    if u in s.usage then s.(usage := s.usage[u := if s.usage[u] >= n then s.usage[u] - n else 0]) else s
  }

  /** `UPDATE ... SET deleted_at = now() WHERE key IN os AND deleted_at IS NULL`. */
  ghost function SoftDelete(s: Server, os: set<Object>): (t: Server)
    ensures t == s.(rows := t.rows) && t.rows.Keys == s.rows.Keys
  {
    s.(rows := map o | o in s.rows ::
         if o in os && s.rows[o].deletedAt.None? then s.rows[o].(deletedAt := Some(s.clock)) else s.rows[o])
  }

  ghost function SizesOf(s: Server, os: set<Object>): map<Object, nat> {
    map o | o in os && o in s.rows :: s.rows[o].size
  }

  ghost function Returning(s: Server, p: Pid, u: User, os: set<Object>, atOnce: bool): (t: Server)
    ensures t == s.(rows := SoftDelete(s, os).rows, procs := t.procs)
  {
    var less := SoftDelete(s, os);
    if os == {} then Ended(less, p)
    else less.(procs := s.procs[p := GivingBack(u, SizesOf(s, os), atOnce)])
  }

  ghost function Reserving(s: Server, p: Pid): Server
    requires Uploads(s, p) && s.procs[p].stage.Ensured?
  {
    var u, n := s.procs[p].obj.user, s.procs[p].size;
    if u in s.usage && s.usage[u] + n <= Limit(s, u)
    then At(s.(usage := s.usage[u := s.usage[u] + n]), p, Reserved(s.procs[p].stage.count))
    else Ended(s, p)
  }

  ghost function Creating(s: Server, p: Pid, ok: bool): Server
    requires Uploads(s, p) && s.procs[p].stage.Reserved?
  {
    var o := s.procs[p].obj;
    if ok && o !in s.rows
    then At(s.(rows := s.rows[o := Row(s.procs[p].size, s.clock, None)], acked := s.acked - {o}),
            p, Recorded(s.procs[p].stage.count))
    else At(s, p, Refunding)
  }

  ghost function Putting(s: Server, p: Pid, ok: bool): Server
    requires Uploads(s, p) && s.procs[p].stage.Recorded?
  {
    if ok then At(s.(blobs := s.blobs[s.procs[p].obj := s.procs[p].size]), p, Stored(s.procs[p].stage.count))
    else At(s, p, Unrecording(false))
  }

  ghost function Pruning(s: Server, p: Pid, victims: set<Object>, ok: bool): Server
    requires Uploads(s, p)
  {
    var o := s.procs[p].obj;
    if ok then Returning(s.(acked := s.acked + {o}), p, o.user, victims, false)
    else At(s, p, Unrecording(true))
  }

  ghost function RemovingRow(s: Server, p: Pid, ok: bool): Server
    requires Uploads(s, p) && s.procs[p].stage.Unrecording?
  {
    At(if ok then s.(rows := s.rows - {s.procs[p].obj}) else s, p,
       if s.procs[p].stage.blob then Unstoring else Refunding)
  }

  ghost function GivingBackPart(s: Server, p: Pid, part: set<Object>): (t: Server)
    requires Returns(s, p)
    requires part <= s.procs[p].pending.Keys
    ensures t == s.(usage := t.usage, procs := t.procs)
  {
    var pr := s.procs[p];
    var rest := pr.pending - part;
    var less := Subtract(s, pr.user, Sum(Only(pr.pending, part)));
    if rest == map[] then Ended(less, p) else less.(procs := s.procs[p := pr.(pending := rest)])
  }

  ghost function NextVictim(s: Server, p: Pid): Server
    requires Purges(s, p) && s.procs[p].batch != []
  {
    s.(procs := s.procs[p := Purging(s.procs[p].batch[1..], false)])
  }

  ghost function Purged(s: Server, p: Pid, ok: bool): Server
    requires Purges(s, p) && s.procs[p].batch != []
  {
    NextVictim(if ok then s.(rows := s.rows - {s.procs[p].batch[0]}) else s, p)
  }

  ghost function Dying(s: Server, p: Pid): (t: Server)
    requires p in s.procs
    ensures t == s.(lock := t.lock, leaked := t.leaked, procs := s.procs - {p})
    ensures t.lock == s.lock || s.lock == Some(p)
  {
    var pr := s.procs[p];
    var gone := Ended(s, p).(lock := if s.lock == Some(p) then None else s.lock);
    match pr
    case Uploading(o, _, _) => gone.(leaked := s.leaked[o.user := Leaked(s, o.user) + Owes(pr, o.user)])
    case GivingBack(u, _, _) => gone.(leaked := s.leaked[u := Leaked(s, u) + Owes(pr, u)])
    case Purging(_, _) => gone
  }

  ghost function Recalculated(s: Server, users: set<User>): Server {
    s.(usage := map u | u in s.usage.Keys + users :: if u in users then LiveBytes(s, u) else s.usage[u],
       leaked := s.leaked - users)
  }

  /** One atomic step of the server. */
  ghost function Apply(s: Server, e: Event): Server {
    if !Enabled(s, e) then s else
    match e
    case Tick(elapsed) => s.(clock := s.clock + elapsed)
    case BeginUpload(p, o, n) =>
      s.(procs := s.procs[p := Uploading(o, n, Admitted(|LiveSet(s, o.user, Snapshot)|))])
    case EnsureUsage(p) =>
      var u := s.procs[p].obj.user;
      At(s.(usage := s.usage[u := Total(s, u)]), p, Ensured(s.procs[p].stage.count))
    case Reserve(p) => Reserving(s, p)
    case Create(p, ok) => Creating(s, p, ok)
    case Put(p, ok) => Putting(s, p, ok)
    case Prune(p, victims, ok) => Pruning(s, p, victims, ok)
    case Finish(p) => Ended(s.(acked := s.acked + {s.procs[p].obj}), p)
    case RemoveRow(p, ok) => RemovingRow(s, p, ok)
    case RemoveBlob(p, ok) => At(if ok then s.(blobs := s.blobs - {s.procs[p].obj}) else s, p, Refunding)
    case GiveBack(p, part) =>
      if s.procs[p].Uploading? then Ended(Subtract(s, s.procs[p].obj.user, s.procs[p].size), p)
      else GivingBackPart(s, p, part)
    case BeginDelete(p, o) => Returning(s, p, o.user, {o}, false)
    case BeginAccountDelete(p, u, k) => Returning(s, p, u, LiveSet(s, u, k), true)
    case BeginPurge(p, _, _, batch) => s.(lock := Some(p), procs := s.procs[p := Purging(batch, false)])
    case PurgeBlob(p, ok) =>
      if ok then s.(blobs := s.blobs - {s.procs[p].batch[0]}, procs := s.procs[p := s.procs[p].(blobGone := true)])
      else NextVictim(s, p)
    case PurgeRow(p, ok) => Purged(s, p, ok)
    case EndPurge(p) => Ended(s, p).(lock := None)
    case Crash(p) => Dying(s, p)
    case Recalculate(users) => Recalculated(s, users)
    case DropUsage(u) => s.(usage := s.usage - {u}, leaked := s.leaked - {u})
  }

  /** A run: any interleaving of any processes. */
  ghost function Exec(s: Server, es: seq<Event>): Server
    decreases |es|
  {
    if es == [] then s else Apply(Exec(s, es[..|es| - 1]), es[|es| - 1])
  }

  lemma ExecStep(s: Server, es: seq<Event>, k: nat)
    requires k < |es|
    ensures Exec(s, es[..k + 1]) == Apply(Exec(s, es[..k]), es[k])
  {
    assert es[..k + 1][..k] == es[..k];
  }

  lemma {:induction false} ExecConcat(s: Server, a: seq<Event>, b: seq<Event>)
    ensures Exec(s, a + b) == Exec(Exec(s, a), b)
    decreases |b|
  {
    if b == [] {
      assert a + b == a;
    } else {
      var n := |b| - 1;
      assert (a + b)[..|a + b| - 1] == a + b[..n];
      ExecConcat(s, a, b[..n]);
    }
  }
}
