/**
 Who may touch a row and its blob. When objects are deleted or pruned only after their
 upload returned and rollback statements succeed, no interleaving - crashes included -
 orphans a bundle blob, purges live data, loses an acknowledged bundle or unbalances
 the books.
 */
module Custody {
  import opened Wrappers
  import opened MapSum
  import opened Lifecycle
  import opened Ledger

  /** The upload owns a metadata row: between its INSERT and its return. */
  ghost predicate Holds(pr: Proc) {
    pr.Uploading? && (pr.stage.Recorded? || pr.stage.Stored? || pr.stage.Unrecording?)
  }

  /** No upload other than `except` owns a row in `os`. */
  ghost predicate Unheld(s: Server, os: set<Object>, except: set<Pid>) {
    forall q :: q in s.procs && q !in except && Holds(s.procs[q]) ==> s.procs[q].obj !in os
  }

  ghost predicate Owner(pr: Proc, u: User) {
    match pr
    case Uploading(o, _, _) => o.user == u
    case GivingBack(v, _, _) => v == u
    case Purging(_, _) => false
  }

  /** Nothing of this user is in flight. */
  ghost predicate Idle(s: Server, u: User) {
    forall p: Pid :: p in s.procs ==> !Owner(s.procs[p], u)
  }

  /** The callers' side of the contract. */
  ghost predicate Careful(s: Server, e: Event) {
    match e
    case BeginDelete(_, o) => Unheld(s, {o}, {})
    case BeginAccountDelete(_, u, k) => Unheld(s, LiveSet(s, u, k), {})
    case Prune(p, victims, _) => Unheld(s, victims, {p})
    case RemoveRow(_, ok) => ok
    case Recalculate(users) => forall u :: u in users ==> Idle(s, u)
    case DropUsage(u) => Idle(s, u) && forall o :: o in s.rows && o.user == u ==> !Live(s, o)
    case _ => true
  }

  ghost predicate AllCareful(s: Server, es: seq<Event>) {
    forall k :: 0 <= k < |es| ==> Careful(Exec(s, es[..k]), es[k])
  }

  // ---------------------------------------------------------------- the invariant

  /** A running upload finds its own live row, and until its Put succeeds no blob; only the
      snapshot prune-failure path ever removes a row before its blob. */
  ghost predicate UploadSound(s: Server, pr: Proc)
    requires pr.Uploading?
  {
    && (Holds(pr) ==> Live(s, pr.obj) && s.rows[pr.obj].size == pr.size)
    && (pr.obj.kind == Bundle ==>
          && !pr.stage.Unstoring?
          && pr.stage != Unrecording(true)
          && (pr.stage.Stored? ==> pr.obj in s.blobs && s.blobs[pr.obj] == pr.size)
          && (pr.stage.Recorded? || pr.stage.Unrecording? ==> pr.obj !in s.blobs))
  }

  /** The one purger, elected by the advisory lock, has only soft-deleted rows on its page. */
  ghost predicate PurgerSound(s: Server, p: Pid, pr: Proc)
    requires pr.Purging?
  {
    && s.lock == Some(p)
    && (forall i, j :: 0 <= i < j < |pr.batch| ==> pr.batch[i] != pr.batch[j])
    && (forall o :: o in pr.batch ==> o in s.rows && !Live(s, o))
    && (pr.blobGone ==> pr.batch != [] && pr.batch[0] !in s.blobs)
  }

  ghost predicate ProcSound(s: Server, p: Pid, pr: Proc) {
    match pr
    case Uploading(_, _, _) => UploadSound(s, pr)
    case GivingBack(_, _, _) => true
    case Purging(_, _) => PurgerSound(s, p, pr)
  }

  ghost predicate ProcsSound(s: Server) {
    forall p :: p in s.procs ==> ProcSound(s, p, s.procs[p])
  }

  ghost predicate Exclusive(s: Server) {
    forall p, q ::
      p in s.procs && q in s.procs && Holds(s.procs[p]) && Holds(s.procs[q]) && s.procs[p].obj == s.procs[q].obj ==> p == q
  }

  /** Every stored bundle blob has a metadata row, live or soft-deleted. */
  ghost predicate NoOrphan(s: Server) {
    forall o :: o in s.blobs && o.kind == Bundle ==> o in s.rows
  }

  /** A bundle whose upload returned success keeps its blob for as long as it is live. */
  ghost predicate Durable(s: Server) {
    forall o :: o in s.acked && o.kind == Bundle && Live(s, o) ==> o in s.blobs && s.blobs[o] == s.rows[o].size
  }

  ghost predicate Sound(s: Server) {
    ProcsSound(s) && Exclusive(s) && NoOrphan(s) && Durable(s)
  }

  // ---------------------------------------------------------------- steps that move one process

  lemma SoundAfterMove(s: Server, t: Server, p: Pid, pr: Proc)
    requires Sound(s)
    requires t.rows == s.rows && t.blobs == s.blobs && t.lock == s.lock && t.acked == s.acked
    requires t.procs == s.procs[p := pr] && ProcSound(t, p, pr)
    requires Holds(pr) ==> p in s.procs && Holds(s.procs[p]) && s.procs[p].obj == pr.obj
    ensures Sound(t)
  {
  }

  lemma SoundAfterEnd(s: Server, t: Server, p: Pid)
    requires Sound(s)
    requires t.rows == s.rows && t.blobs == s.blobs && t.acked == s.acked
    requires t.lock == s.lock || s.lock == Some(p)
    requires t.procs == s.procs - {p}
    ensures Sound(t)
  {
  }

  /** Soft deletion of rows that no upload owns. */
  lemma SoundAfterSoftDelete(s: Server, t: Server, p: Pid, u: User, os: set<Object>, atOnce: bool)
    requires Sound(s) && Unheld(s, os, {p}) && t.rows == SoftDelete(s, os).rows
    requires p in s.procs ==> !s.procs[p].Purging?
    requires t.blobs == s.blobs && t.lock == s.lock
    requires forall o :: o in t.acked ==> o in s.acked || (Live(t, o) && o.kind == Bundle ==> o in t.blobs && t.blobs[o] == t.rows[o].size)
    requires t.procs == if os == {} then s.procs - {p} else s.procs[p := GivingBack(u, SizesOf(s, os), atOnce)]
    ensures Sound(t)
  {
    hide Sum;
    forall q | q in t.procs ensures ProcSound(t, q, t.procs[q]) {
      if q != p {
        assert ProcSound(s, q, s.procs[q]);
        if Holds(s.procs[q]) { assert s.procs[q].obj !in os; }
      }
    }
  }

  lemma SoundAfterTick(s: Server, d: nat)
    requires Sound(s) && Careful(s, Tick(d)) && Enabled(s, Tick(d))
    ensures Sound(Apply(s, Tick(d)))
  {
  }

  lemma SoundAfterBeginUpload(s: Server, p: Pid, o: Object, n: nat)
    requires Sound(s) && Careful(s, BeginUpload(p, o, n)) && Enabled(s, BeginUpload(p, o, n))
    ensures Sound(Apply(s, BeginUpload(p, o, n)))
  {
  }

  lemma SoundAfterEnsureUsage(s: Server, p: Pid)
    requires Sound(s) && Careful(s, EnsureUsage(p)) && Enabled(s, EnsureUsage(p))
    ensures Sound(Apply(s, EnsureUsage(p)))
  {
  }

  lemma SoundAfterReserve(s: Server, p: Pid)
    requires Sound(s) && Careful(s, Reserve(p)) && Enabled(s, Reserve(p))
    ensures Sound(Apply(s, Reserve(p)))
  {
    hide Sum;
    var t := Reserving(s, p);
    if p in t.procs {
      SoundAfterMove(s, t, p, t.procs[p]);
    } else {
      SoundAfterEnd(s, t, p);
    }
  }

  lemma RowInserted(s: Server, t: Server, p: Pid, o: Object)
    requires Sound(s) && o !in s.rows && p in s.procs && s.procs[p].Uploading? && s.procs[p].obj == o
    requires t.rows == s.rows[o := Row(s.procs[p].size, s.clock, None)] && t.acked == s.acked - {o}
    requires t.blobs == s.blobs && t.lock == s.lock && s.procs[p].stage.Reserved?
    requires t.procs == s.procs[p := s.procs[p].(stage := Recorded(s.procs[p].stage.count))]
    ensures Sound(t)
  {
  }

  lemma SoundAfterCreate(s: Server, p: Pid, ok: bool)
    requires Sound(s) && Careful(s, Create(p, ok)) && Enabled(s, Create(p, ok))
    ensures Sound(Apply(s, Create(p, ok)))
  {
    hide Sum;
    var t := Creating(s, p, ok);
    var o := s.procs[p].obj;
    if ok && o !in s.rows {
      RowInserted(s, t, p, o);
    } else {
      SoundAfterMove(s, t, p, t.procs[p]);
    }
  }

  lemma SoundAfterPut(s: Server, p: Pid, ok: bool)
    requires Sound(s) && Careful(s, Put(p, ok)) && Enabled(s, Put(p, ok))
    ensures Sound(Apply(s, Put(p, ok)))
  {
    hide Sum;
  }

  lemma Pruned(s: Server, p: Pid, victims: set<Object>)
    requires Sound(s) && Uploads(s, p) && s.procs[p].obj.kind == Snapshot && Unheld(s, victims, {p})
    ensures Sound(Pruning(s, p, victims, true))
  {
    hide Sum, LiveSet;
    SoundAfterSoftDelete(s, Pruning(s, p, victims, true), p, s.procs[p].obj.user, victims, false);
  }

  lemma SoundAfterPrune(s: Server, p: Pid, victims: set<Object>, ok: bool)
    requires Sound(s) && Careful(s, Prune(p, victims, ok)) && Enabled(s, Prune(p, victims, ok))
    ensures Sound(Apply(s, Prune(p, victims, ok)))
  {
    hide Sum, PruneSet, LiveSet;
    if ok {
      Pruned(s, p, victims);
    } else {
      assert ProcSound(s, p, s.procs[p]);
      SoundAfterMove(s, Pruning(s, p, victims, ok), p, s.procs[p].(stage := Unrecording(true)));
    }
  }

  lemma SoundAfterFinish(s: Server, p: Pid)
    requires Sound(s) && Careful(s, Finish(p)) && Enabled(s, Finish(p))
    ensures Sound(Apply(s, Finish(p)))
  {
  }

  lemma SoundAfterRemoveRow(s: Server, p: Pid, ok: bool)
    requires Sound(s) && Careful(s, RemoveRow(p, ok)) && Enabled(s, RemoveRow(p, ok))
    ensures Sound(Apply(s, RemoveRow(p, ok)))
  {
  }

  lemma SoundAfterRemoveBlob(s: Server, p: Pid, ok: bool)
    requires Sound(s) && Careful(s, RemoveBlob(p, ok)) && Enabled(s, RemoveBlob(p, ok))
    ensures Sound(Apply(s, RemoveBlob(p, ok)))
  {
    hide Sum;
  }

  lemma ReturnedPart(s: Server, p: Pid, part: set<Object>)
    requires Sound(s) && Returns(s, p) && part <= s.procs[p].pending.Keys
    ensures Sound(GivingBackPart(s, p, part))
  {
    hide Sum;
    var t := GivingBackPart(s, p, part);
    if s.procs[p].pending - part == map[] {
      SoundAfterEnd(s, t, p);
    } else {
      SoundAfterMove(s, t, p, t.procs[p]);
    }
  }

  lemma SoundAfterGiveBack(s: Server, p: Pid, part: set<Object>)
    requires Sound(s) && Careful(s, GiveBack(p, part)) && Enabled(s, GiveBack(p, part))
    ensures Sound(Apply(s, GiveBack(p, part)))
  {
    if s.procs[p].Uploading? {
      SoundAfterEnd(s, Apply(s, GiveBack(p, part)), p);
    } else {
      ReturnedPart(s, p, part);
    }
  }

  lemma SoundAfterBeginDelete(s: Server, p: Pid, o: Object)
    requires Sound(s) && Careful(s, BeginDelete(p, o)) && Enabled(s, BeginDelete(p, o))
    ensures Sound(Apply(s, BeginDelete(p, o)))
  {
    hide Sum;
    SoundAfterSoftDelete(s, Apply(s, BeginDelete(p, o)), p, o.user, {o}, false);
  }

  lemma SoundAfterBeginAccountDelete(s: Server, p: Pid, v: User, k: Kind)
    requires Sound(s) && Careful(s, BeginAccountDelete(p, v, k)) && Enabled(s, BeginAccountDelete(p, v, k))
    ensures Sound(Apply(s, BeginAccountDelete(p, v, k)))
  {
    hide Sum, LiveSet;
    SoundAfterSoftDelete(s, Apply(s, BeginAccountDelete(p, v, k)), p, v, LiveSet(s, v, k), true);
  }

  lemma SoundAfterBeginPurge(s: Server, p: Pid, k: Kind, before: Time, batch: seq<Object>)
    requires Sound(s) && Careful(s, BeginPurge(p, k, before, batch)) && Enabled(s, BeginPurge(p, k, before, batch))
    ensures Sound(Apply(s, BeginPurge(p, k, before, batch)))
  {
  }

  lemma SoundAfterPurgeBlob(s: Server, p: Pid, ok: bool)
    requires Sound(s) && Careful(s, PurgeBlob(p, ok)) && Enabled(s, PurgeBlob(p, ok))
    ensures Sound(Apply(s, PurgeBlob(p, ok)))
  {
    hide Sum;
  }

  lemma RowPurged(s: Server, p: Pid, ok: bool)
    requires Sound(s) && Purges(s, p) && s.procs[p].batch != [] && s.procs[p].blobGone
    ensures Sound(Purged(s, p, ok))
  {
    hide Sum, LiveSet;
    var t := Purged(s, p, ok);
    var o := s.procs[p].batch[0];
    assert ProcSound(s, p, s.procs[p]);
    assert o in s.rows && !Live(s, o) && o !in s.blobs;
    forall q | q in t.procs ensures ProcSound(t, q, t.procs[q]) {
      assert ProcSound(s, q, s.procs[q]);
    }
  }

  lemma SoundAfterPurgeRow(s: Server, p: Pid, ok: bool)
    requires Sound(s) && Careful(s, PurgeRow(p, ok)) && Enabled(s, PurgeRow(p, ok))
    ensures Sound(Apply(s, PurgeRow(p, ok)))
  {
    hide Sum;
    RowPurged(s, p, ok);
  }

  lemma SoundAfterEndPurge(s: Server, p: Pid)
    requires Sound(s) && Careful(s, EndPurge(p)) && Enabled(s, EndPurge(p))
    ensures Sound(Apply(s, EndPurge(p)))
  {
  }

  lemma SoundAfterCrash(s: Server, p: Pid)
    requires Sound(s) && Careful(s, Crash(p)) && Enabled(s, Crash(p))
    ensures Sound(Apply(s, Crash(p)))
  {
  }

  lemma SoundAfterRecalculate(s: Server, users: set<User>)
    requires Sound(s) && Careful(s, Recalculate(users)) && Enabled(s, Recalculate(users))
    ensures Sound(Apply(s, Recalculate(users)))
  {
  }

  lemma SoundAfterDropUsage(s: Server, u: User)
    requires Sound(s) && Careful(s, DropUsage(u)) && Enabled(s, DropUsage(u))
    ensures Sound(Apply(s, DropUsage(u)))
  {
  }

  lemma StepSound(s: Server, e: Event)
    requires Sound(s) && Careful(s, e)
    ensures Sound(Apply(s, e))
  {
    hide Sum, Sound;
    if Enabled(s, e) {
      match e
      case Tick(d) => SoundAfterTick(s, d);
      case BeginUpload(p, o, n) => SoundAfterBeginUpload(s, p, o, n);
      case EnsureUsage(p) => SoundAfterEnsureUsage(s, p);
      case Reserve(p) => SoundAfterReserve(s, p);
      case Create(p, ok) => SoundAfterCreate(s, p, ok);
      case Put(p, ok) => SoundAfterPut(s, p, ok);
      case Prune(p, victims, ok) => SoundAfterPrune(s, p, victims, ok);
      case Finish(p) => SoundAfterFinish(s, p);
      case RemoveRow(p, ok) => SoundAfterRemoveRow(s, p, ok);
      case RemoveBlob(p, ok) => SoundAfterRemoveBlob(s, p, ok);
      case GiveBack(p, part) => SoundAfterGiveBack(s, p, part);
      case BeginDelete(p, o) => SoundAfterBeginDelete(s, p, o);
      case BeginAccountDelete(p, v, k) => SoundAfterBeginAccountDelete(s, p, v, k);
      case BeginPurge(p, k, before, batch) => SoundAfterBeginPurge(s, p, k, before, batch);
      case PurgeBlob(p, ok) => SoundAfterPurgeBlob(s, p, ok);
      case PurgeRow(p, ok) => SoundAfterPurgeRow(s, p, ok);
      case EndPurge(p) => SoundAfterEndPurge(s, p);
      case Crash(p) => SoundAfterCrash(s, p);
      case Recalculate(users) => SoundAfterRecalculate(s, users);
      case DropUsage(u) => SoundAfterDropUsage(s, u);
    }
  }

  // ---------------------------------------------------------------- whole runs

  lemma {:induction false} SoundAt(s: Server, es: seq<Event>, k: nat)
    requires Sound(s) && AllCareful(s, es) && k <= |es|
    ensures Sound(Exec(s, es[..k]))
  {
    if k > 0 {
      SoundAt(s, es, k - 1);
      ExecStep(s, es, k - 1);
      assert Careful(Exec(s, es[..k - 1]), es[k - 1]);
      StepSound(Exec(s, es[..k - 1]), es[k - 1]);
    }
  }

  /** No orphan bundle blob, at any step of any careful run, crashes included. */
  lemma NoOrphanEver(s: Server, es: seq<Event>, k: nat, o: Object)
    requires Sound(s) && AllCareful(s, es) && k <= |es|
    ensures var t := Exec(s, es[..k]);
            o.kind == Bundle && o in t.blobs ==> o in t.rows
  {
    SoundAt(s, es, k);
  }

  /** Safe purge: there is one purger, and it touches the blob and the row of soft-deleted
      objects only. */
  lemma PurgeSparesLiveData(s: Server, es: seq<Event>, k: nat, p: Pid, q: Pid, o: Object)
    requires Sound(s) && AllCareful(s, es) && k <= |es|
    ensures var t := Exec(s, es[..k]);
            && (Purges(t, p) && Purges(t, q) ==> p == q)
            && (Purges(t, p) && o in t.procs[p].batch ==> o in t.rows && t.rows[o].deletedAt.Some?)
  {
    SoundAt(s, es, k);
    var t := Exec(s, es[..k]);
    assert Purges(t, p) ==> ProcSound(t, p, t.procs[p]);
    assert Purges(t, q) ==> ProcSound(t, q, t.procs[q]);
  }

  /** An acknowledged bundle is never lost while it is live. */
  lemma AcknowledgedBundlesStay(s: Server, es: seq<Event>, k: nat, o: Object)
    requires Sound(s) && AllCareful(s, es) && k <= |es|
    ensures var t := Exec(s, es[..k]);
            o in t.acked && o.kind == Bundle && Live(t, o) ==> o in t.blobs && t.blobs[o] == t.rows[o].size
  {
    SoundAt(s, es, k);
  }

  /** What final erasure needs: a user without rows has no bundle blob either. */
  lemma ErasedUserHasNoBundleBlob(s: Server, es: seq<Event>, k: nat, u: User, o: Object)
    requires Sound(s) && AllCareful(s, es) && k <= |es|
    requires forall r :: r in Exec(s, es[..k]).rows ==> r.user != u
    ensures o.user == u && o.kind == Bundle ==> o !in Exec(s, es[..k]).blobs
  {
    NoOrphanEver(s, es, k, o);
  }

  // ---------------------------------------------------------------- careful runs balance the books

  lemma IdleOwesNothing(s: Server, u: User)
    requires Idle(s, u)
    ensures OwedBytes(s, u) == 0
  {
    forall p | p in s.procs ensures Owes(s.procs[p], u) == 0 {
      assert !Owner(s.procs[p], u);
    }
    SumZero(Debts(s, u));
  }

  lemma CarefulStepsAreNoAccidents(s: Server, e: Event)
    requires Sound(s) && Careful(s, e)
    ensures !Accident(s, e)
  {
    forall u ensures Fault(s, e, u) == 0 {
      if e.RemoveRow? && Enabled(s, e) {
        assert ProcSound(s, e.p, s.procs[e.p]);
      } else if e.PurgeRow? && Enabled(s, e) {
        assert ProcSound(s, e.p, s.procs[e.p]);
        assert s.procs[e.p].batch[0] in s.procs[e.p].batch;
      } else if e.Recalculate? && u in e.users {
        IdleOwesNothing(s, u);
      } else if e.DropUsage? && u == e.user {
        IdleOwesNothing(s, u);
        assert LiveSizes(s, u) == map[];
        SumEmpty<Object>();
      }
    }
  }
}
