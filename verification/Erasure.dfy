/**
 Account erasure jobs on top of the sync server: the retention-gated job that may complete
 only when nothing of the user is left. One event is one statement; the sync server moves
 between any two of them.
 */
module Erasure {
  import opened Numbers
  import opened Wrappers
  import L = Lifecycle
  import Custody
  import MapSum

  type JobId(==, !new)
  type User = L.User
  type Time = nat
  type Pid = nat

  type ChallengeId(==, !new)

  /** The tables with rows of a user, but for challenges, usage, bundles, snapshots and jobs. */
  datatype Table =
    | Tokens | Devices | TwoFactor | Passkeys | Preferences | Limits
    | EmailVerifications | PasswordResets | DeviceRevocations
    | NotificationOutbox | NotificationOutboxArchive | AuditLogs | AuditLogsArchive

  /** No statement of an erasure job touches these. */
  predicate Spared(t: Table) {
    match t
    case Tokens | Devices | TwoFactor | Passkeys | Preferences | Limits => false
    case _ => true
  }

  datatype Target = Rows(table: Table) | Challenges | Usage

  /** What a job clears of the user's, in order. Challenges are used up and not deleted. */
  const TABLES: seq<Target> := [Rows(Tokens), Rows(Devices), Rows(TwoFactor), Rows(Passkeys), Challenges,
                                Rows(Preferences), Usage, Rows(Limits)]

  /** A row of one of the personal tables. */
  datatype Personal = Personal(user: User, table: Table, key: nat)

  /** A passkey challenge; one for a login has no user. */
  datatype Challenge = Challenge(user: Option<User>, expiresAt: Time, consumedAt: Option<Time>)

  datatype Account = Account(deletedAt: Option<Time>, anonymized: bool)

  datatype Status = Pending | Running | Completed | Failed

  datatype Job = Job(user: User, eligibleAt: Time, status: Status)

  datatype Stage =
    | Checking
    | Emptying(next: nat)
    | CountingBundles
    | CountingSnapshots(bundlesLeft: bool)
    | Anonymizing
    | Reporting
    | Completing
    | Failing

  /** `now` is the time of the pass that claimed the job. */
  datatype Run = Run(job: JobId, stage: Stage, now: Time)

  datatype State = State(server: L.Server, users: map<User, Account>, personal: set<Personal>,
                         challenges: map<ChallengeId, Challenge>, jobs: map<JobId, Job>, runs: map<Pid, Run>)

  datatype Event =
    | Sync(event: L.Event)
    | Write(row: Personal)
    | Remove(row: Personal)
    | Save(id: ChallengeId, owner: Option<User>, expiresAt: Time)
    | Consume(id: ChallengeId)
    | Expire(user: User)  // as the deletion of the account does
    | Request(job: JobId, user: User, grace: nat)
    | SoftDelete(user: User)
    | Begin(p: Pid, job: JobId, now: Time)
    | Step(p: Pid, ok: bool)
    | Die(p: Pid)

  // ---------------------------------------------------------------- reading the state

  ghost predicate Deleted(s: State, u: User) { u in s.users && s.users[u].deletedAt.Some? }

  ghost predicate RowsLeft(rows: map<L.Object, L.Row>, u: User, k: L.Kind) {
    exists o :: o in rows && o.user == u && o.kind == k
  }

  function IsOf(challenges: map<ChallengeId, Challenge>, c: ChallengeId, u: User): bool {
    c in challenges && challenges[c].user == Some(u)
  }

  ghost predicate Empty(s: State, u: User, t: Target) {
    match t
    case Usage => u !in s.server.usage
    case Challenges => forall c :: IsOf(s.challenges, c, u) ==> s.challenges[c].consumedAt.Some?
    case Rows(table) => forall x :: x in s.personal ==> x.user != u || x.table != table
  }

  function Eligible(j: Job, now: Time): bool {
    (j.status.Pending? || j.status.Failed?) && j.eligibleAt <= now
  }

  /** The tombstone test at the head of an attempt. */
  ghost predicate Erasable(s: State, j: Job) {
    Deleted(s, j.user) && s.users[j.user].deletedAt.value <= j.eligibleAt
  }

  function DeleteFrom(personal: set<Personal>, u: User, t: Table): set<Personal> {
    set x | x in personal && !(x.user == u && x.table == t)
  }

  /** `SET consumed_at = now, expires_at = LEAST(expires_at, now) WHERE consumed_at IS NULL`. */
  function ExpireFor(challenges: map<ChallengeId, Challenge>, u: User, now: Time): map<ChallengeId, Challenge> {
    map c | c in challenges ::
      if IsOf(challenges, c, u) && challenges[c].consumedAt.None?
      then challenges[c].(consumedAt := Some(now), expiresAt := Min(challenges[c].expiresAt, now))
      else challenges[c]
  }

  ghost predicate AtWork(s: State, p: Pid) {
    p in s.runs && s.runs[p].job in s.jobs
  }

  // ---------------------------------------------------------------- steps of an attempt

  ghost function At(s: State, p: Pid, st: Stage): State
    requires p in s.runs
  {
    s.(runs := s.runs[p := s.runs[p].(stage := st)])
  }

  ghost function Emptied(s: State, u: User, t: Target, now: Time): State {
    match t
    case Usage => s.(server := L.Apply(s.server, L.DropUsage(u)))
    case Challenges => s.(challenges := ExpireFor(s.challenges, u, now))
    case Rows(table) => s.(personal := DeleteFrom(s.personal, u, table))
  }

  ghost function Finished(s: State, p: Pid, status: Status): State
    requires AtWork(s, p)
  {
    var j := s.runs[p].job;
    s.(jobs := s.jobs[j := s.jobs[j].(status := status)], runs := s.runs - {p})
  }

  /** The stage once `k` tables are empty. */
  ghost function After(k: nat): Stage {
    if k < |TABLES| then Emptying(k) else CountingBundles
  }

  ghost function Attempt(s: State, p: Pid, ok: bool): State
    requires AtWork(s, p)
  {
    var j := s.jobs[s.runs[p].job];
    match s.runs[p].stage
    case Checking => At(s, p, if ok && Erasable(s, j) then Emptying(0) else Failing)
    case Emptying(k) =>
      if ok && k < |TABLES| then At(Emptied(s, j.user, TABLES[k], s.runs[p].now), p, After(k + 1)) else At(s, p, Failing)
    case CountingBundles => At(s, p, if ok then CountingSnapshots(RowsLeft(s.server.rows, j.user, L.Bundle)) else Failing)
    case CountingSnapshots(left) =>
      At(s, p, if ok && !left && !RowsLeft(s.server.rows, j.user, L.Snapshot) then Anonymizing else Failing)
    case Anonymizing =>
      if ok then
        At(if Deleted(s, j.user) then s.(users := s.users[j.user := s.users[j.user].(anonymized := true)]) else s, p, Reporting)
      else At(s, p, Failing)
    case Reporting => At(s, p, if ok then Completing else Failing)
    case Completing => if ok then Finished(s, p, Completed) else At(s, p, Failing)
    case Failing => if ok then Finished(s, p, Failed) else s.(runs := s.runs - {p})
  }

  ghost predicate Enabled(s: State, e: Event) {
    match e
    case Sync(_) => true
    case Write(_) => true
    case Remove(_) => true
    case Save(c, _, _) => c !in s.challenges
    case Consume(c) => c in s.challenges && s.challenges[c].consumedAt.None? && s.challenges[c].expiresAt > s.server.clock
    case Expire(_) => true
    case Request(j, u, _) => j !in s.jobs && u in s.users && !Deleted(s, u)
    case SoftDelete(u) => u in s.users && !Deleted(s, u)
    case Begin(p, j, now) => p !in s.runs && j in s.jobs && now <= s.server.clock && Eligible(s.jobs[j], now)
    case Step(p, _) => AtWork(s, p)
    case Die(p) => p in s.runs
  }

  ghost function Apply(s: State, e: Event): State {
    if !Enabled(s, e) then s else
    match e
    case Sync(x) => s.(server := L.Apply(s.server, x))
    case Write(x) => s.(personal := s.personal + {x})
    case Remove(x) => s.(personal := s.personal - {x})
    case Save(c, u, expires) => s.(challenges := s.challenges[c := Challenge(u, expires, None)])
    case Consume(c) => s.(challenges := s.challenges[c := s.challenges[c].(consumedAt := Some(s.server.clock))])
    case Expire(u) => s.(challenges := ExpireFor(s.challenges, u, s.server.clock))
    case Request(j, u, grace) => s.(jobs := s.jobs[j := Job(u, s.server.clock + grace, Pending)])
    case SoftDelete(u) => s.(users := s.users[u := s.users[u].(deletedAt := Some(s.server.clock))])
    case Begin(p, j, now) => s.(jobs := s.jobs[j := s.jobs[j].(status := Running)], runs := s.runs[p := Run(j, Checking, now)])
    case Step(p, ok) => Attempt(s, p, ok)
    case Die(p) => s.(runs := s.runs - {p})
  }

  ghost function Exec(s: State, es: seq<Event>): State
    decreases |es|
  {
    if es == [] then s else Apply(Exec(s, es[..|es| - 1]), es[|es| - 1])
  }

  lemma ExecStep(s: State, es: seq<Event>, k: nat)
    requires k < |es|
    ensures Exec(s, es[..k + 1]) == Apply(Exec(s, es[..k]), es[k])
  {
    assert es[..k + 1][..k] == es[..k];
  }

  // ---------------------------------------------------------------- deleted accounts are quiet

  /** Nothing in flight and nothing live: what DeleteAccount leaves once uploads have returned. */
  ghost predicate Quiet(v: L.Server, u: User) {
    Custody.Idle(v, u) && forall o :: o in v.rows && o.user == u ==> !L.Live(v, o)
  }

  /** The account on whose behalf a sync event starts or refreshes something. */
  ghost predicate Concerns(e: L.Event, u: User) {
    match e
    case BeginUpload(_, o, _) => o.user == u
    case BeginDelete(_, o) => o.user == u
    case BeginAccountDelete(_, v, _) => v == u
    case Recalculate(us) => u in us
    case DropUsage(_) => true
    case _ => false
  }

  /** Deleted accounts are logged out: nothing starts for them and nothing is written for them,
      except in the spared tables, such as the audit log. */
  ghost predicate Calm(s: State, e: Event) {
    match e
    case Sync(x) => Custody.Careful(s.server, x) && forall u :: u in s.users && Deleted(s, u) ==> !Concerns(x, u)
    case Write(x) => Spared(x.table) || !Deleted(s, x.user)
    case Save(_, u, _) => u.Some? ==> !Deleted(s, u.value)
    case SoftDelete(u) => Quiet(s.server, u)
    case _ => true
  }

  ghost predicate AllCalm(s: State, es: seq<Event>) {
    forall k :: 0 <= k < |es| ==> Calm(Exec(s, es[..k]), es[k])
  }

  ghost predicate OnlyGoes(v: L.Server, w: L.Server, u: User) {
    && (forall o :: o in w.rows && o.user == u ==> o in v.rows)
    && (u !in v.usage ==> u !in w.usage)
  }

  lemma QuietAfterUploadStep(v: L.Server, e: L.Event, u: User)
    requires Quiet(v, u) && !Concerns(e, u) && L.Enabled(v, e)
    requires e.EnsureUsage? || e.Reserve? || e.Put? || e.Finish?
    ensures Quiet(L.Apply(v, e), u) && OnlyGoes(v, L.Apply(v, e), u)
  {
    assert !Custody.Owner(v.procs[e.p], u);
  }

  lemma QuietAfterCreate(v: L.Server, p: L.Pid, ok: bool, u: User)
    requires Quiet(v, u) && L.Enabled(v, L.Create(p, ok))
    ensures Quiet(L.Apply(v, L.Create(p, ok)), u) && OnlyGoes(v, L.Apply(v, L.Create(p, ok)), u)
  {
  }

  lemma QuietAfterRowStep(v: L.Server, e: L.Event, u: User)
    requires Quiet(v, u) && !Concerns(e, u) && L.Enabled(v, e)
    requires e.RemoveRow? || e.RemoveBlob?
    ensures Quiet(L.Apply(v, e), u) && OnlyGoes(v, L.Apply(v, e), u)
  {
    assert !Custody.Owner(v.procs[e.p], u);
  }

  lemma QuietAfterPrune(v: L.Server, p: L.Pid, victims: set<L.Object>, ok: bool, u: User)
    requires Quiet(v, u) && L.Enabled(v, L.Prune(p, victims, ok))
    ensures Quiet(L.Apply(v, L.Prune(p, victims, ok)), u) && OnlyGoes(v, L.Apply(v, L.Prune(p, victims, ok)), u)
  {
  }

  lemma QuietAfterGiveBack(v: L.Server, p: L.Pid, part: set<L.Object>, u: User)
    requires Quiet(v, u) && L.Enabled(v, L.GiveBack(p, part))
    ensures Quiet(L.Apply(v, L.GiveBack(p, part)), u) && OnlyGoes(v, L.Apply(v, L.GiveBack(p, part)), u)
  {
    hide MapSum.Sum;
    assert !Custody.Owner(v.procs[p], u);
    var w := L.Apply(v, L.GiveBack(p, part));
    GiveBackFrame(v, p, part);
    hide L.Apply, L.Enabled, L.GivingBackPart, L.Subtract;
    assert forall o :: o in w.rows && o.user == u ==> !L.Live(v, o);
  }

  lemma GiveBackFrame(v: L.Server, p: L.Pid, part: set<L.Object>)
    requires L.Enabled(v, L.GiveBack(p, part))
    ensures GaveBack(v, L.Apply(v, L.GiveBack(p, part)), p)
  {
    hide MapSum.Sum;
    var w := L.Apply(v, L.GiveBack(p, part));
    if v.procs[p].Uploading? {
      assert w == L.Ended(L.Subtract(v, v.procs[p].obj.user, v.procs[p].size), p);
    } else {
      assert w == L.GivingBackPart(v, p, part);
      PartFrame(v, p, part);
    }
  }

  ghost predicate GaveBack(v: L.Server, w: L.Server, p: L.Pid) {
    && w.rows == v.rows && w.usage.Keys == v.usage.Keys
    && (forall q: L.Pid :: q in w.procs ==> q in v.procs && (q != p ==> w.procs[q] == v.procs[q]))
    && (p in w.procs ==> p in v.procs && w.procs[p].GivingBack? && v.procs[p].GivingBack? && w.procs[p].user == v.procs[p].user)
  }

  lemma PartFrame(v: L.Server, p: L.Pid, part: set<L.Object>)
    requires L.Returns(v, p) && part <= v.procs[p].pending.Keys
    ensures GaveBack(v, L.GivingBackPart(v, p, part), p)
  {
  }

  lemma QuietAfterDelete(v: L.Server, e: L.Event, u: User)
    requires Quiet(v, u) && !Concerns(e, u) && L.Enabled(v, e) && (e.BeginDelete? || e.BeginAccountDelete?)
    ensures Quiet(L.Apply(v, e), u) && OnlyGoes(v, L.Apply(v, e), u)
  {
  }

  lemma QuietAfterOther(v: L.Server, e: L.Event, u: User)
    requires Quiet(v, u) && !Concerns(e, u) && L.Enabled(v, e)
    requires e.Tick? || e.BeginUpload? || e.EndPurge? || e.Crash? || e.Recalculate?
    ensures Quiet(L.Apply(v, e), u) && OnlyGoes(v, L.Apply(v, e), u)
  {
  }

  lemma QuietAfterBeginPurge(v: L.Server, e: L.Event, u: User)
    requires Quiet(v, u) && L.Enabled(v, e) && e.BeginPurge?
    ensures Quiet(L.Apply(v, e), u) && OnlyGoes(v, L.Apply(v, e), u)
  {
  }

  lemma QuietAfterPurge(v: L.Server, e: L.Event, u: User)
    requires Quiet(v, u) && L.Enabled(v, e) && (e.PurgeBlob? || e.PurgeRow?)
    ensures Quiet(L.Apply(v, e), u) && OnlyGoes(v, L.Apply(v, e), u)
  {
    hide L.PurgePage;
    assert !Custody.Owner(v.procs[e.p], u);
  }

  lemma QuietAfterSync(v: L.Server, e: L.Event, u: User)
    requires Quiet(v, u) && !Concerns(e, u)
    ensures Quiet(L.Apply(v, e), u) && OnlyGoes(v, L.Apply(v, e), u)
  {
    hide Quiet;
    if L.Enabled(v, e) {
      match e
      case Prune(p, victims, ok) => QuietAfterPrune(v, p, victims, ok, u);
      case GiveBack(p, part) => QuietAfterGiveBack(v, p, part, u);
      case BeginDelete(_, _) => QuietAfterDelete(v, e, u);
      case BeginAccountDelete(_, _, _) => QuietAfterDelete(v, e, u);
      case EnsureUsage(_) => QuietAfterUploadStep(v, e, u);
      case Reserve(_) => QuietAfterUploadStep(v, e, u);
      case Create(p, ok) => QuietAfterCreate(v, p, ok, u);
      case Put(_, _) => QuietAfterUploadStep(v, e, u);
      case Finish(_) => QuietAfterUploadStep(v, e, u);
      case RemoveRow(_, _) => QuietAfterRowStep(v, e, u);
      case RemoveBlob(_, _) => QuietAfterRowStep(v, e, u);
      case BeginPurge(_, _, _, _) => QuietAfterBeginPurge(v, e, u);
      case PurgeBlob(_, _) => QuietAfterPurge(v, e, u);
      case PurgeRow(_, _) => QuietAfterPurge(v, e, u);
      case _ => QuietAfterOther(v, e, u);
    }
  }

  // ---------------------------------------------------------------- invariant

  function Reached(st: Stage): nat {
    match st
    case Checking => 0
    case Failing => 0
    case Emptying(k) => Min(k, |TABLES|)
    case _ => |TABLES|
  }

  ghost predicate RunOk(s: State, r: Run) {
    && r.job in s.jobs && s.jobs[r.job].status.Running?
    && var j := s.jobs[r.job]; var u := j.user;
    && (!r.stage.Checking? && !r.stage.Failing? ==> Erasable(s, j))
    && (forall k :: 0 <= k < Reached(r.stage) ==> Empty(s, u, TABLES[k]))
    && (r.stage.CountingSnapshots? && !r.stage.bundlesLeft ==> !RowsLeft(s.server.rows, u, L.Bundle))
    && (r.stage.Anonymizing? || r.stage.Reporting? || r.stage.Completing? ==> NoRows(s, u))
    && (r.stage.Reporting? || r.stage.Completing? ==> s.users[u].anonymized)
  }

  ghost predicate NoRows(s: State, u: User) { forall o :: o in s.server.rows ==> o.user != u }

  /** Everything an attempt clears is clear: the emptied tables, usage and metadata rows hold
      nothing of the user, its challenges are used up, and its tombstone is anonymized. */
  ghost predicate Erased(s: State, u: User) {
    && Deleted(s, u) && s.users[u].anonymized && NoRows(s, u)
    && (forall k :: 0 <= k < |TABLES| ==> Empty(s, u, TABLES[k]))
  }

  ghost predicate RunsOk(s: State) {
    && (forall p :: p in s.runs ==> RunOk(s, s.runs[p]))
    && (forall p, q :: p in s.runs && q in s.runs && s.runs[p].job == s.runs[q].job ==> p == q)
  }

  ghost predicate CompletedOk(s: State) {
    forall j :: j in s.jobs && s.jobs[j].status.Completed? ==> Erased(s, s.jobs[j].user) && Erasable(s, s.jobs[j])
  }

  ghost predicate DeletedQuiet(s: State) {
    forall u :: u in s.users && Deleted(s, u) ==> Quiet(s.server, u)
  }

  ghost predicate Inv(s: State) {
    RunsOk(s) && CompletedOk(s) && DeletedQuiet(s) && Custody.Sound(s.server)
  }

  // ---------------------------------------------------------------- what may change under a job

  /** A challenge is used up once; after that it never changes. */
  ghost predicate OnlyConsumed(a: Challenge, b: Challenge) {
    && b.user == a.user && b.expiresAt <= a.expiresAt
    && (a.consumedAt.Some? || b.consumedAt.None? ==> b == a)
  }

  /** From `s` to `t` the personal data of deleted users only goes, outside the spared tables,
      and challenges are only used up. */
  ghost predicate Shrinks(s: State, t: State) {
    && (forall u :: u in s.users && Deleted(s, u) ==>
          u in t.users && t.users[u].deletedAt == s.users[u].deletedAt && (s.users[u].anonymized ==> t.users[u].anonymized)
          && OnlyGoes(s.server, t.server, u))
    && (forall x :: x in t.personal && Deleted(s, x.user) && !Spared(x.table) ==> x in s.personal)
    && (forall c :: c in s.challenges ==> c in t.challenges && OnlyConsumed(s.challenges[c], t.challenges[c]))
    && (forall c, u :: Deleted(s, u) && IsOf(t.challenges, c, u) ==> c in s.challenges)
  }

  lemma EmptiedNotSpared()
    ensures forall k :: 0 <= k < |TABLES| && TABLES[k].Rows? ==> !Spared(TABLES[k].table)
  {
  }

  lemma RunOkStays(s: State, t: State, r: Run)
    requires RunOk(s, r) && Shrinks(s, t)
    requires r.job in t.jobs && t.jobs[r.job] == s.jobs[r.job]
    ensures RunOk(t, r)
  {
    EmptiedNotSpared();
  }

  lemma ErasedStays(s: State, t: State, u: User)
    requires Erased(s, u) && Shrinks(s, t)
    ensures Erased(t, u)
  {
    EmptiedNotSpared();
  }

  lemma ErasableStays(s: State, t: State, j: Job)
    requires Erasable(s, j) && Shrinks(s, t)
    ensures Erasable(t, j)
  {
  }

  lemma RunHasJob(s: State, r: Run)
    requires RunOk(s, r)
    ensures r.job in s.jobs && s.jobs[r.job].status.Running?
  {
  }

  /** Steps that leave runs and jobs alone. */
  lemma InvAfterShrink(s: State, t: State)
    requires RunsOk(s) && CompletedOk(s) && Shrinks(s, t) && t.runs == s.runs
    requires forall j :: j in s.jobs ==> j in t.jobs && t.jobs[j] == s.jobs[j]
    requires forall j :: j in t.jobs && j !in s.jobs ==> t.jobs[j].status.Pending?
    ensures RunsOk(t) && CompletedOk(t)
  {
    hide Shrinks, RunOk, Erased, Erasable;
    forall q | q in t.runs ensures RunOk(t, t.runs[q]) {
      assert RunOk(s, s.runs[q]);
      RunHasJob(s, s.runs[q]);
      RunOkStays(s, t, t.runs[q]);
    }
    forall j | j in t.jobs && t.jobs[j].status.Completed? ensures Erased(t, t.jobs[j].user) && Erasable(t, t.jobs[j]) {
      assert j in s.jobs;
      ErasedStays(s, t, t.jobs[j].user);
      ErasableStays(s, t, t.jobs[j]);
    }
  }

  /** Steps of attempt `p` itself. */
  lemma InvAfterAttempt(s: State, t: State, p: Pid)
    requires RunsOk(s) && CompletedOk(s) && Shrinks(s, t) && AtWork(s, p)
    requires forall q :: q in t.runs && q != p ==> q in s.runs && t.runs[q] == s.runs[q]
    requires p in t.runs ==> t.runs[p].job == s.runs[p].job && RunOk(t, t.runs[p])
    requires t.jobs.Keys == s.jobs.Keys
    requires forall j :: j in s.jobs && j != s.runs[p].job ==> t.jobs[j] == s.jobs[j]
    requires var j := t.jobs[s.runs[p].job]; j.status.Completed? ==> Erased(t, j.user) && Erasable(t, j)
    ensures RunsOk(t) && CompletedOk(t)
  {
    hide Shrinks, RunOk, Erased, Erasable;
    forall q | q in t.runs ensures RunOk(t, t.runs[q]) {
      if q != p {
        assert RunOk(s, s.runs[q]);
        RunHasJob(s, s.runs[q]);
        RunOkStays(s, t, t.runs[q]);
      }
    }
    forall j | j in t.jobs && t.jobs[j].status.Completed? ensures Erased(t, t.jobs[j].user) && Erasable(t, t.jobs[j]) {
      if j != s.runs[p].job {
        ErasedStays(s, t, t.jobs[j].user);
        ErasableStays(s, t, t.jobs[j]);
      }
    }
  }

  lemma ShrinksToSelf(s: State, t: State)
    requires t.server == s.server && t.users == s.users && t.personal == s.personal && t.challenges == s.challenges
    ensures Shrinks(s, t)
  {
  }

  lemma ShrinksOn(s: State, t: State, v: State)
    requires Shrinks(s, t) && Shrinks(t, v)
    ensures Shrinks(s, v)
  {
    forall c | c in s.challenges ensures c in v.challenges && OnlyConsumed(s.challenges[c], v.challenges[c]) {
      assert c in t.challenges;
    }
  }

  /** Emptying a table of one user empties that table and touches no other user. */
  lemma EmptiedShrinks(s: State, u: User, tab: Target, now: Time)
    requires DeletedQuiet(s) && Deleted(s, u)
    ensures var t := Emptied(s, u, tab, now);
            Shrinks(s, t) && Empty(t, u, tab) && DeletedQuiet(t) && t.runs == s.runs && t.jobs == s.jobs && t.users == s.users
  {
  }

  lemma AttemptChecking(s: State, p: Pid, ok: bool)
    requires RunsOk(s) && CompletedOk(s) && DeletedQuiet(s) && AtWork(s, p) && s.runs[p].stage.Checking?
    ensures var t := Attempt(s, p, ok); RunsOk(t) && CompletedOk(t) && DeletedQuiet(t) && Shrinks(s, t)
  {
    hide CompletedOk, Quiet, Emptied, Shrinks, Empty, NoRows, RowsLeft;
    var t := Attempt(s, p, ok);
    ShrinksToSelf(s, t);
    assert RunOk(s, s.runs[p]);
    InvAfterAttempt(s, t, p);
  }

  lemma NextTableOk(mid: State, r: Run, k: nat, t: State)
    requires RunOk(mid, r) && r.stage == Emptying(k) && k < |TABLES| && Empty(mid, mid.jobs[r.job].user, TABLES[k])
    requires t == mid.(runs := t.runs)
    ensures RunOk(t, r.(stage := After(k + 1)))
  {
  }

  lemma AttemptEmptying(s: State, p: Pid, ok: bool)
    requires RunsOk(s) && CompletedOk(s) && DeletedQuiet(s) && AtWork(s, p) && s.runs[p].stage.Emptying?
    ensures var t := Attempt(s, p, ok); RunsOk(t) && CompletedOk(t) && DeletedQuiet(t) && Shrinks(s, t)
  {
    var t := Attempt(s, p, ok);
    var r := s.runs[p];
    var k := r.stage.next;
    assert RunOk(s, r);
    if ok && k < |TABLES| {
      EmptyingAttempt(s, p);
    } else {
      hide CompletedOk, Quiet, Empty, NoRows, RowsLeft, Emptied;
      ShrinksToSelf(s, t);
      hide Shrinks;
      InvAfterAttempt(s, t, p);
    }
  }

  lemma EmptyingAttempt(s: State, p: Pid)
    requires RunsOk(s) && CompletedOk(s) && DeletedQuiet(s) && AtWork(s, p)
    requires s.runs[p].stage.Emptying? && s.runs[p].stage.next < |TABLES|
    ensures var t := Attempt(s, p, true); RunsOk(t) && CompletedOk(t) && DeletedQuiet(t) && Shrinks(s, t)
  {
    hide CompletedOk, Quiet, Empty, NoRows, RowsLeft, Emptied, Shrinks, OnlyGoes, OnlyConsumed;
    var t := Attempt(s, p, true);
    var r := s.runs[p];
    var k := r.stage.next;
    assert RunOk(s, r);
    var u := s.jobs[r.job].user;
    var mid := Emptied(s, u, TABLES[k], r.now);
    EmptiedShrinks(s, u, TABLES[k], r.now);
    RunOkStays(s, mid, r);
    ShrinksToSelf(mid, t);
    ShrinksOn(s, mid, t);
    NextTableOk(mid, r, k, t);
    hide RunsOk, RunOk;
    RunHasJob(s, r);
    InvAfterAttempt(s, t, p);
  }

  lemma AttemptCounting(s: State, p: Pid, ok: bool)
    requires RunsOk(s) && CompletedOk(s) && DeletedQuiet(s) && AtWork(s, p)
    requires s.runs[p].stage.CountingBundles? || s.runs[p].stage.CountingSnapshots?
    ensures var t := Attempt(s, p, ok); RunsOk(t) && CompletedOk(t) && DeletedQuiet(t) && Shrinks(s, t)
  {
    hide CompletedOk, Quiet, Emptied, Shrinks;
    var t := Attempt(s, p, ok);
    var r := s.runs[p];
    ShrinksToSelf(s, t);
    assert RunOk(s, r);
    CountedOk(s, t, r, t.runs[p].stage);
    hide Attempt;
    InvAfterAttempt(s, t, p);
  }

  lemma CountedOk(s: State, t: State, r: Run, st: Stage)
    requires RunOk(s, r) && t == s.(runs := t.runs) && (r.stage.CountingBundles? || r.stage.CountingSnapshots?)
    requires var u := s.jobs[r.job].user;
             || st.Failing?
             || (r.stage.CountingBundles? && st == CountingSnapshots(RowsLeft(s.server.rows, u, L.Bundle)))
             || (r.stage.CountingSnapshots? && !r.stage.bundlesLeft && st.Anonymizing? && !RowsLeft(s.server.rows, u, L.Snapshot))
    ensures RunOk(t, r.(stage := st))
  {
  }

  lemma AttemptFinishing(s: State, p: Pid, ok: bool)
    requires RunsOk(s) && CompletedOk(s) && DeletedQuiet(s) && AtWork(s, p)
    requires var st := s.runs[p].stage; st.Completing? || st.Failing?
    ensures var t := Attempt(s, p, ok); RunsOk(t) && CompletedOk(t) && DeletedQuiet(t) && Shrinks(s, t)
  {
    var t := Attempt(s, p, ok);
    var r := s.runs[p];
    ShrinksToSelf(s, t);
    assert RunOk(s, r);
    if r.stage.Completing? && ok {
      ErasedStays(s, t, s.jobs[r.job].user);
    }
    InvAfterAttempt(s, t, p);
  }

  lemma AnonymizedShrinks(s: State, u: User)
    requires Deleted(s, u)
    ensures Shrinks(s, s.(users := s.users[u := s.users[u].(anonymized := true)]))
  {
  }

  lemma AnonymizedOk(s: State, r: Run, p: Pid)
    requires RunOk(s, r) && r.stage.Anonymizing?
    ensures var u := s.jobs[r.job].user;
            u in s.users && RunOk(At(s.(users := s.users[u := s.users[u].(anonymized := true)], runs := s.runs[p := r]), p, Reporting), r.(stage := Reporting))
  {
  }

  lemma AttemptAnonymizing(s: State, p: Pid)
    requires RunsOk(s) && CompletedOk(s) && DeletedQuiet(s) && AtWork(s, p) && s.runs[p].stage.Anonymizing?
    ensures var t := Attempt(s, p, true); RunsOk(t) && CompletedOk(t) && DeletedQuiet(t) && Shrinks(s, t)
  {
    hide CompletedOk, Quiet, Empty, NoRows, RowsLeft, Emptied, OnlyGoes, OnlyConsumed;
    var t := Attempt(s, p, true);
    var r := s.runs[p];
    assert RunOk(s, r);
    var u := s.jobs[r.job].user;
    AnonymizedOk(s, r, p);
    AnonymizedShrinks(s, u);
    var mid := s.(users := s.users[u := s.users[u].(anonymized := true)]);
    ShrinksToSelf(mid, t);
    assert s.runs[p := r] == s.runs;
    hide Shrinks;
    ShrinksOn(s, mid, t);
    InvAfterAttempt(s, t, p);
  }

  lemma ReportingOk(s: State, t: State, r: Run, st: Stage)
    requires RunOk(s, r) && t == s.(runs := t.runs)
    requires (r.stage.Reporting? && st.Completing?) || st.Failing?
    ensures RunOk(t, r.(stage := st))
  {
  }

  lemma AttemptReporting(s: State, p: Pid, ok: bool)
    requires RunsOk(s) && CompletedOk(s) && DeletedQuiet(s) && AtWork(s, p)
    requires var st := s.runs[p].stage; st.Anonymizing? || st.Reporting?
    ensures var t := Attempt(s, p, ok); RunsOk(t) && CompletedOk(t) && DeletedQuiet(t) && Shrinks(s, t)
  {
    if ok && s.runs[p].stage.Anonymizing? {
      AttemptAnonymizing(s, p);
    } else {
      hide CompletedOk, Quiet, Empty, NoRows, RowsLeft, Emptied, Shrinks;
      var t := Attempt(s, p, ok);
      var r := s.runs[p];
      assert RunOk(s, r);
      ShrinksToSelf(s, t);
      ReportingOk(s, t, r, t.runs[p].stage);
      InvAfterAttempt(s, t, p);
    }
  }

  lemma AttemptInv(s: State, p: Pid, ok: bool)
    requires RunsOk(s) && CompletedOk(s) && DeletedQuiet(s) && AtWork(s, p)
    ensures var t := Attempt(s, p, ok); RunsOk(t) && CompletedOk(t) && DeletedQuiet(t) && Shrinks(s, t)
  {
    hide Attempt, RunsOk, CompletedOk, DeletedQuiet;
    match s.runs[p].stage
    case Checking => AttemptChecking(s, p, ok);
    case Emptying(_) => AttemptEmptying(s, p, ok);
    case CountingBundles => AttemptCounting(s, p, ok);
    case CountingSnapshots(_) => AttemptCounting(s, p, ok);
    case Anonymizing => AttemptReporting(s, p, ok);
    case Reporting => AttemptReporting(s, p, ok);
    case _ => AttemptFinishing(s, p, ok);
  }

  lemma SyncInv(s: State, x: L.Event)
    requires Inv(s) && Calm(s, Sync(x))
    ensures Inv(Apply(s, Sync(x))) && Shrinks(s, Apply(s, Sync(x)))
  {
    hide RunsOk, CompletedOk, Quiet, Concerns, Custody.Sound, Custody.Careful;
    var t := Apply(s, Sync(x));
    forall u | u in s.users && Deleted(s, u) ensures Quiet(t.server, u) && OnlyGoes(s.server, t.server, u) {
      QuietAfterSync(s.server, x, u);
    }
    Custody.StepSound(s.server, x);
    InvAfterShrink(s, t);
  }

  lemma StepInv(s: State, p: Pid, ok: bool)
    requires Inv(s) && AtWork(s, p)
    ensures Inv(Attempt(s, p, ok)) && Shrinks(s, Attempt(s, p, ok))
  {
    AttemptInv(s, p, ok);
    hide RunsOk, CompletedOk, DeletedQuiet, Custody.Sound;
    AttemptSound(s, p, ok);
  }

  /** Deleting the usage row of a quiet account is a careful step of the sync server. */
  lemma AttemptSound(s: State, p: Pid, ok: bool)
    requires Inv(s) && AtWork(s, p)
    ensures Custody.Sound(Attempt(s, p, ok).server)
  {
    hide CompletedOk, Custody.Sound;
    var r := s.runs[p];
    if r.stage.Emptying? && ok && r.stage.next < |TABLES| {
      var u := s.jobs[r.job].user;
      assert RunOk(s, r) && Deleted(s, u) && Quiet(s.server, u);
      assert Custody.Careful(s.server, L.DropUsage(u));
      Custody.StepSound(s.server, L.DropUsage(u));
    }
  }

  lemma OtherInv(s: State, e: Event)
    requires Inv(s) && Calm(s, e) && Enabled(s, e) && (e.Request? || e.SoftDelete?)
    ensures Inv(Apply(s, e)) && Shrinks(s, Apply(s, e))
  {
    hide RunsOk, CompletedOk, Custody.Sound, Quiet, L.Apply, Attempt;
    var t := Apply(s, e);
    assert Shrinks(s, t);
    hide Shrinks;
    InvAfterShrink(s, t);
  }

  lemma RowInv(s: State, e: Event)
    requires Inv(s) && Calm(s, e) && Enabled(s, e) && (e.Write? || e.Remove? || e.Save? || e.Consume? || e.Expire?)
    ensures Inv(Apply(s, e)) && Shrinks(s, Apply(s, e))
  {
    hide RunsOk, CompletedOk, Custody.Sound, Quiet, L.Apply, Attempt;
    var t := Apply(s, e);
    assert Shrinks(s, t);
    hide Shrinks;
    InvAfterShrink(s, t);
  }

  lemma BeginInv(s: State, p: Pid, j: JobId, now: Time)
    requires Inv(s) && Enabled(s, Begin(p, j, now))
    ensures Inv(Apply(s, Begin(p, j, now))) && Shrinks(s, Apply(s, Begin(p, j, now)))
  {
    hide Custody.Sound, Quiet, Shrinks, Erased, Erasable, L.Apply, Empty, NoRows, RowsLeft;
    var t := Apply(s, Begin(p, j, now));
    ShrinksToSelf(s, t);
    forall q | q in t.runs ensures RunOk(t, t.runs[q]) && (t.runs[q].job == j ==> q == p) {
      if q != p {
        assert RunOk(s, s.runs[q]);
        RunOkStays(s, t, s.runs[q]);
      }
    }
    forall k | k in t.jobs && t.jobs[k].status.Completed? ensures Erased(t, t.jobs[k].user) && Erasable(t, t.jobs[k]) {
      ErasedStays(s, t, t.jobs[k].user);
      ErasableStays(s, t, t.jobs[k]);
    }
  }

  lemma DieInv(s: State, p: Pid)
    requires Inv(s)
    ensures Inv(Apply(s, Die(p))) && Shrinks(s, Apply(s, Die(p)))
  {
    hide Custody.Sound, Quiet, Shrinks, RunOk, Erased, Erasable, L.Apply;
    var t := Apply(s, Die(p));
    ShrinksToSelf(s, t);
    forall q | q in t.runs ensures RunOk(t, t.runs[q]) {
      assert RunOk(s, s.runs[q]);
      RunHasJob(s, s.runs[q]);
      RunOkStays(s, t, s.runs[q]);
    }
    forall k | k in t.jobs && t.jobs[k].status.Completed? ensures Erased(t, t.jobs[k].user) && Erasable(t, t.jobs[k]) {
      ErasedStays(s, t, t.jobs[k].user);
      ErasableStays(s, t, t.jobs[k]);
    }
  }

  lemma ApplyInv(s: State, e: Event)
    requires Inv(s) && Calm(s, e)
    ensures Inv(Apply(s, e)) && Shrinks(s, Apply(s, e))
  {
    hide Inv, Calm, Shrinks, Attempt;
    if !Enabled(s, e) {
      ShrinksToSelf(s, s);
    } else {
      match e
      case Sync(x) => SyncInv(s, x);
      case Begin(p, j, now) => BeginInv(s, p, j, now);
      case Step(p, ok) => StepInv(s, p, ok);
      case Die(p) => DieInv(s, p);
      case Request(_, _, _) => OtherInv(s, e);
      case SoftDelete(_) => OtherInv(s, e);
      case _ => RowInv(s, e);
    }
  }

  lemma {:induction false} InvAt(s: State, es: seq<Event>, k: nat)
    requires Inv(s) && AllCalm(s, es) && k <= |es|
    ensures Inv(Exec(s, es[..k]))
  {
    hide Inv, Calm, Apply;
    if k > 0 {
      InvAt(s, es, k - 1);
      ExecStep(s, es, k - 1);
      assert Calm(Exec(s, es[..k - 1]), es[k - 1]);
      ApplyInv(Exec(s, es[..k - 1]), es[k - 1]);
    }
  }

  /** Over a run, too, the personal data of deleted users only goes. */
  lemma {:induction false} RunShrinks(s: State, es: seq<Event>, i: nat, j: nat)
    requires Inv(s) && AllCalm(s, es) && i <= j <= |es|
    ensures Shrinks(Exec(s, es[..i]), Exec(s, es[..j]))
    decreases j
  {
    hide Inv, Calm, Apply, Shrinks;
    if i < j {
      RunShrinks(s, es, i, j - 1);
      InvAt(s, es, j - 1);
      ExecStep(s, es, j - 1);
      assert Calm(Exec(s, es[..j - 1]), es[j - 1]);
      ApplyInv(Exec(s, es[..j - 1]), es[j - 1]);
      ShrinksOn(Exec(s, es[..i]), Exec(s, es[..j - 1]), Exec(s, es[..j]));
    } else {
      ShrinksToSelf(Exec(s, es[..i]), Exec(s, es[..j]));
    }
  }

  lemma TombstoneStays(s: State, es: seq<Event>, i: nat, j: nat, u: User)
    requires Inv(s) && AllCalm(s, es) && i <= j <= |es| && Deleted(Exec(s, es[..i]), u)
    ensures Deleted(Exec(s, es[..j]), u)
    ensures Exec(s, es[..j]).users[u].deletedAt == Exec(s, es[..i]).users[u].deletedAt
  {
    hide Inv, Calm, Apply, Exec;
    RunShrinks(s, es, i, j);
  }

  // ---------------------------------------------------------------- theorems over every calm run

  /** A completed job means that nothing is left of the user in the tables it empties, no usage,
      bundle or snapshot row, no bundle blob, no challenge that could still be answered, and an
      anonymized tombstone. Rows of the spared tables and used-up challenges may be left. */
  lemma CompletedMeansErased(s: State, es: seq<Event>, k: nat, j: JobId)
    requires Inv(s) && AllCalm(s, es) && k <= |es|
    requires var t := Exec(s, es[..k]); j in t.jobs && t.jobs[j].status.Completed?
    ensures var t := Exec(s, es[..k]); var u := t.jobs[j].user;
            && u in t.users && t.users[u].anonymized && u !in t.server.usage
            && (forall x :: x in t.personal ==> x.user != u || Spared(x.table))
            && (forall c :: IsOf(t.challenges, c, u) ==> t.challenges[c].consumedAt.Some?)
            && (forall o :: o in t.server.rows ==> o.user != u)
            && (forall o :: o in t.server.blobs && o.kind == L.Bundle ==> o.user != u)
  {
    hide Apply, Exec, Erased, RunsOk, DeletedQuiet, Calm;
    InvAt(s, es, k);
    ErasedMeans(Exec(s, es[..k]), Exec(s, es[..k]).jobs[j].user);
  }

  lemma ErasedMeans(t: State, u: User)
    requires Erased(t, u) && Custody.Sound(t.server)
    ensures u in t.users && t.users[u].anonymized && u !in t.server.usage
    ensures forall o :: o in t.server.rows ==> o.user != u
    ensures forall x :: x in t.personal ==> x.user != u || Spared(x.table)
    ensures forall c :: IsOf(t.challenges, c, u) ==> t.challenges[c].consumedAt.Some?
    ensures forall o :: o in t.server.blobs && o.kind == L.Bundle ==> o.user != u
  {
    forall table | !Spared(table) ensures Empty(t, u, Rows(table)) {
      TablesComplete(table);
    }
    forall x | x in t.personal ensures x.user != u || Spared(x.table) {
      assert Spared(x.table) || Empty(t, u, Rows(x.table));
    }
    assert Empty(t, u, TABLES[4]) && Empty(t, u, TABLES[6]);
  }

  /** The tables a job empties are those that are not spared. */
  lemma TablesComplete(t: Table)
    ensures Spared(t) <==> forall k :: 0 <= k < |TABLES| ==> TABLES[k] != Rows(t)
  {
    assert TABLES[0] == Rows(Tokens) && TABLES[1] == Rows(Devices) && TABLES[2] == Rows(TwoFactor) && TABLES[3] == Rows(Passkeys);
    assert TABLES[5] == Rows(Preferences) && TABLES[7] == Rows(Limits);
  }

  /** The data of one user, as far as the erasure promises speak of it. */
  datatype UserData = UserData(account: Account, personal: set<Personal>, openChallenges: set<ChallengeId>, hasUsage: bool,
                               rows: set<L.Object>, bundleBlobs: set<L.Object>)

  ghost function DataOf(s: State, u: User): UserData
    requires u in s.users
  {
    UserData(s.users[u], (set x | x in s.personal && x.user == u && !Spared(x.table)),
             (set c | c in s.challenges && IsOf(s.challenges, c, u) && s.challenges[c].consumedAt.None?), u in s.server.usage,
             (set o | o in s.server.rows && o.user == u),
             (set o | o in s.server.blobs && o.user == u && o.kind == L.Bundle))
  }

  /** The challenges of the user are the same ones, all used up; the ones that were used up
      before are unchanged. */
  ghost predicate UsedUp(a: map<ChallengeId, Challenge>, b: map<ChallengeId, Challenge>, u: User) {
    && (forall c :: IsOf(a, c, u) <==> IsOf(b, c, u))
    && (forall c :: IsOf(b, c, u) ==> b[c].consumedAt.Some? && OnlyConsumed(a[c], b[c]))
  }

  lemma JobStep(s: State, e: Event, j: JobId)
    requires j in s.jobs
    ensures var t := Apply(s, e); j in t.jobs && t.jobs[j] == s.jobs[j].(status := t.jobs[j].status)
  {
    hide L.Apply, ExpireFor, DeleteFrom, Erasable, RowsLeft;
  }

  lemma {:induction false} JobStays(s: State, es: seq<Event>, k: nat, j: JobId)
    requires j in s.jobs && k <= |es|
    ensures j in Exec(s, es[..k]).jobs
    ensures Exec(s, es[..k]).jobs[j] == s.jobs[j].(status := Exec(s, es[..k]).jobs[j].status)
  {
    hide Apply;
    if k > 0 {
      JobStays(s, es, k - 1, j);
      ExecStep(s, es, k - 1);
      JobStep(Exec(s, es[..k - 1]), es[k - 1], j);
    }
  }

  /** Confluence: however many attempts failed, wherever they stopped and whatever was purged
      in between, two runs that complete the job leave the same user data. They may differ only
      in when the challenges that were open were used up. */
  lemma RetriesAreConfluent(s: State, es: seq<Event>, fs: seq<Event>, j: JobId)
    requires Inv(s) && AllCalm(s, es) && AllCalm(s, fs)
    requires j in s.jobs && Deleted(s, s.jobs[j].user)
    requires var a, b := Exec(s, es), Exec(s, fs);
             j in a.jobs && a.jobs[j].status.Completed? && j in b.jobs && b.jobs[j].status.Completed?
    ensures var u := s.jobs[j].user; var a, b := Exec(s, es), Exec(s, fs);
            && u in a.users && u in b.users && DataOf(a, u) == DataOf(b, u)
            && UsedUp(s.challenges, a.challenges, u) && UsedUp(s.challenges, b.challenges, u)
    ensures var u := s.jobs[j].user;
            DataOf(Exec(s, es), u) == UserData(Account(s.users[u].deletedAt, true), {}, {}, false, {}, {})
  {
    hide Apply, Inv, UsedUp;
    CompletedData(s, es, j);
    CompletedData(s, fs, j);
  }

  lemma CompletedData(s: State, es: seq<Event>, j: JobId)
    requires Inv(s) && AllCalm(s, es) && j in s.jobs && Deleted(s, s.jobs[j].user)
    requires var a := Exec(s, es); j in a.jobs && a.jobs[j].status.Completed?
    ensures var u := s.jobs[j].user; var a := Exec(s, es);
            && u in a.users && DataOf(a, u) == UserData(Account(s.users[u].deletedAt, true), {}, {}, false, {}, {})
            && UsedUp(s.challenges, a.challenges, u)
  {
    hide Apply, Inv;
    assert es[..|es|] == es && es[..0] == [];
    JobStays(s, es, |es|, j);
    var u := s.jobs[j].user;
    TombstoneStays(s, es, 0, |es|, u);
    CompletedMeansErased(s, es, |es|, j);
    RunShrinks(s, es, 0, |es|);
  }

  /** Completed, or running with nobody at work on it. */
  ghost predicate Closed(s: State, j: JobId) {
    && j in s.jobs
    && (s.jobs[j].status.Completed? || (s.jobs[j].status.Running? && forall p :: p in s.runs ==> s.runs[p].job != j))
  }

  /** An attempt at another job. */
  lemma AttemptElsewhere(s: State, p: Pid, ok: bool, j: JobId)
    requires AtWork(s, p) && s.runs[p].job != j && j in s.jobs
    ensures var t := Attempt(s, p, ok);
            && t.jobs.Keys == s.jobs.Keys && t.jobs[j] == s.jobs[j]
            && forall q :: q in t.runs ==> q in s.runs && t.runs[q].job == s.runs[q].job
  {
    hide Emptied, Erasable, RowsLeft, Deleted;
    var r := s.runs[p];
    if r.stage.Emptying? && r.stage.next < |TABLES| {
      EmptiedKeepsJobs(s, s.jobs[r.job].user, TABLES[r.stage.next], r.now);
    }
  }

  lemma EmptiedKeepsJobs(s: State, u: User, tab: Target, now: Time)
    ensures var t := Emptied(s, u, tab, now); t.jobs == s.jobs && t.runs == s.runs && t.users == s.users
  {
  }

  lemma ClosedStep(s: State, e: Event, j: JobId)
    requires Inv(s) && Closed(s, j)
    ensures Closed(Apply(s, e), j) && Apply(s, e).jobs[j] == s.jobs[j]
  {
    forall p | p in s.runs ensures s.runs[p].job in s.jobs && s.runs[p].job != j {
      assert RunOk(s, s.runs[p]);
      RunHasJob(s, s.runs[p]);
    }
    hide Inv, RunOk, L.Apply, ExpireFor, Deleted, Attempt;
    if e.Step? && Enabled(s, e) {
      AttemptElsewhere(s, e.p, e.ok, j);
    }
  }

  /** A completed job is never claimed again. Nor is one whose attempt died, or could not
      record its failure, between MarkRunning and the end: `running` is then final. */
  lemma {:induction false} ClosedForever(s: State, es: seq<Event>, i: nat, k: nat, j: JobId)
    requires Inv(s) && AllCalm(s, es) && i <= k <= |es| && Closed(Exec(s, es[..i]), j)
    ensures Closed(Exec(s, es[..k]), j) && Exec(s, es[..k]).jobs[j] == Exec(s, es[..i]).jobs[j]
    decreases k
  {
    hide *;
    if i < k {
      ClosedForever(s, es, i, k - 1, j);
      InvAt(s, es, k - 1);
      ExecStep(s, es, k - 1);
      ClosedStep(Exec(s, es[..k - 1]), es[k - 1], j);
    }
  }

  /** Whoever is at work on a job can fail at the next statement, and record that. */
  lemma FailsNext(s: State, p: Pid) returns (es: seq<Event>)
    requires AtWork(s, p)
    ensures AllCalm(s, es) && var j := s.runs[p].job; j in Exec(s, es).jobs && Exec(s, es).jobs[j].status.Failed?
  {
    var first := if s.runs[p].stage.Failing? then Step(p, true) else Step(p, false);
    es := [first, Step(p, true)];
    ExecTwo(s, first, Step(p, true));
    TwoCalm(s, first, Step(p, true));
    if s.runs[p].stage.Failing? {
      RecordsFailure(s, p);
    } else {
      FailsAnywhere(s, p);
      RecordsFailure(At(s, p, Failing), p);
    }
  }

  lemma FailsAnywhere(s: State, p: Pid)
    requires AtWork(s, p) && !s.runs[p].stage.Failing?
    ensures Apply(s, Step(p, false)) == At(s, p, Failing)
  {
  }

  lemma RecordsFailure(s: State, p: Pid)
    requires AtWork(s, p) && s.runs[p].stage.Failing?
    ensures Apply(s, Step(p, true)) == Finished(s, p, Failed) && Apply(Apply(s, Step(p, true)), Step(p, true)) == Apply(s, Step(p, true))
  {
  }

  lemma TwoCalm(s: State, a: Event, b: Event)
    requires Calm(s, a) && Calm(Apply(s, a), b)
    ensures AllCalm(s, [a, b])
  {
  }

  lemma ExecTwo(s: State, a: Event, b: Event)
    ensures Exec(s, [a, b]) == Apply(Apply(s, a), b)
    ensures Exec(s, [a]) == Apply(s, a)
  {
    hide Apply;
    assert [a, b][..0] == [] && [a, b][..1] == [a] && [a, b][..2] == [a, b] && [a][..0] == [] && [a][..1] == [a];
    ExecStep(s, [a], 0);
    ExecStep(s, [a, b], 1);
  }

  lemma ClaimedWhenDue(s: State, j: JobId) returns (es: seq<Event>)
    requires j in s.jobs && (s.jobs[j].status.Pending? || s.jobs[j].status.Failed?)
    ensures AllCalm(s, es) && j in Exec(s, es).jobs && Exec(s, es).jobs[j].status.Running?
  {
    var p := Above(s.runs.Keys);
    var wait, claim := Sync(L.Tick(s.jobs[j].eligibleAt)), Begin(p, j, s.server.clock + s.jobs[j].eligibleAt);
    es := [wait, claim];
    ExecTwo(s, wait, claim);
    TwoCalm(s, wait, claim);
    var due := Apply(s, wait);
    assert due.server.clock == s.server.clock + s.jobs[j].eligibleAt && due.jobs == s.jobs && p !in due.runs;
    assert Enabled(due, claim);
  }

  /** No calm continuation ever moves a job exactly if it is closed. */
  lemma ClosedExactly(s: State, j: JobId)
    requires Inv(s) && j in s.jobs
    ensures Closed(s, j) <==> forall es :: AllCalm(s, es) ==> j in Exec(s, es).jobs && Exec(s, es).jobs[j] == s.jobs[j]
  {
    hide Apply, Inv, AllCalm, Attempt;
    if Closed(s, j) {
      forall es | AllCalm(s, es) ensures j in Exec(s, es).jobs && Exec(s, es).jobs[j] == s.jobs[j] {
        assert es[..0] == [] && es[..|es|] == es;
        ClosedForever(s, es, 0, |es|, j);
      }
    } else if s.jobs[j].status.Running? {
      var p :| p in s.runs && s.runs[p].job == j;
      RunAtWork(s, p);
      var es := FailsNext(s, p);
      assert AllCalm(s, es);
    } else {
      var es := ClaimedWhenDue(s, j);
      assert AllCalm(s, es);
    }
  }

  lemma RunAtWork(s: State, p: Pid)
    requires Inv(s) && p in s.runs
    ensures AtWork(s, p)
  {
  }

  /** Requested, tombstoned `elapsed` later. */
  ghost function Deletion(j: JobId, u: User, grace: nat, elapsed: nat): seq<Event> {
    [Request(j, u, grace), Sync(L.Tick(elapsed)), SoftDelete(u)]
  }

  lemma DeletionLeaves(s: State, j: JobId, u: User, grace: nat, elapsed: nat)
    requires Inv(s) && Enabled(s, Request(j, u, grace)) && Quiet(s.server, u)
    ensures var t := Exec(s, Deletion(j, u, grace, elapsed));
            && Inv(t) && t.jobs == s.jobs[j := Job(u, s.server.clock + grace, Pending)] && t.runs == s.runs
            && Deleted(t, u) && t.users[u].deletedAt == Some(s.server.clock + elapsed) && t.server.clock == s.server.clock + elapsed
  {
    var ds := Deletion(j, u, grace, elapsed);
    hide RunsOk, CompletedOk, DeletedQuiet, Custody.Sound, Quiet, Shrinks, L.Apply, Attempt, ExpireFor;
    ExecStep(s, ds, 0);
    ExecStep(s, ds, 1);
    ExecStep(s, ds, 2);
    assert ds[..0] == [] && ds[..3] == ds;
    var a := Apply(s, ds[0]);
    var b := Apply(a, ds[1]);
    OtherInv(s, ds[0]);
    TickKeepsQuiet(a.server, elapsed, u);
    assert Calm(a, ds[1]);
    SyncInv(a, L.Tick(elapsed));
    OtherInv(b, ds[2]);
  }

  /** An attempt that dies right after its claim gets a job there. */
  lemma DeadAttemptClosesJob(s: State, j: JobId, u: User, grace: nat, p: Pid)
    requires Inv(s) && Enabled(s, Request(j, u, grace)) && Quiet(s.server, u) && p !in s.runs
    ensures var t := Exec(s, Deletion(j, u, grace, grace) + [Begin(p, j, s.server.clock + grace), Die(p)]);
            Inv(t) && Closed(t, j) && t.jobs[j] == Job(u, s.server.clock + grace, Running)
  {
    var now := s.server.clock + grace;
    var d := Exec(s, Deletion(j, u, grace, grace));
    hide Exec, Deletion, Apply, Inv, Quiet, Closed, Shrinks;
    DeletionLeaves(s, j, u, grace, grace);
    ExecConcat(s, Deletion(j, u, grace, grace), [Begin(p, j, now), Die(p)]);
    ExecTwo(d, Begin(p, j, now), Die(p));
    BeginInv(d, p, j, now);
    DieInv(Apply(d, Begin(p, j, now)), p);
    ClaimThenDie(d, p, j, now);
  }

  lemma ClaimThenDie(s: State, p: Pid, j: JobId, now: Time)
    requires Inv(s) && Enabled(s, Begin(p, j, now))
    ensures var t := Apply(Apply(s, Begin(p, j, now)), Die(p)); Closed(t, j) && t.jobs[j] == s.jobs[j].(status := Running)
  {
    forall q | q in s.runs ensures s.runs[q].job != j {
      assert RunOk(s, s.runs[q]);
      RunHasJob(s, s.runs[q]);
    }
    hide RunsOk, RunOk, Attempt, L.Apply;
  }

  /** A job whose user was tombstoned after the job became eligible never completes. */
  lemma LateTombstoneBlocks(s: State, es: seq<Event>, k: nat, j: JobId)
    requires Inv(s) && AllCalm(s, es) && k <= |es| && j in s.jobs
    requires Deleted(s, s.jobs[j].user) && s.users[s.jobs[j].user].deletedAt.value > s.jobs[j].eligibleAt
    ensures j in Exec(s, es[..k]).jobs && !Exec(s, es[..k]).jobs[j].status.Completed?
  {
    hide Apply;
    assert es[..0] == [];
    InvAt(s, es, k);
    JobStays(s, es, k, j);
    TombstoneStays(s, es, 0, k, s.jobs[j].user);
  }

  /** With no grace period that is every job whose account deletion took any time at all. */
  lemma ZeroGraceNeverCompletes(s: State, j: JobId, u: User, elapsed: nat, es: seq<Event>, k: nat)
    requires Inv(s) && elapsed > 0 && Enabled(s, Request(j, u, 0)) && Quiet(s.server, u)
    requires AllCalm(Exec(s, Deletion(j, u, 0, elapsed)), es) && k <= |es|
    ensures var t := Exec(s, Deletion(j, u, 0, elapsed));
            j in Exec(t, es[..k]).jobs && !Exec(t, es[..k]).jobs[j].status.Completed?
  {
    hide Apply, Inv, Quiet, Deletion;
    DeletionLeaves(s, j, u, 0, elapsed);
    LateTombstoneBlocks(Exec(s, Deletion(j, u, 0, elapsed)), es, k, j);
  }

  lemma TickKeepsQuiet(v: L.Server, elapsed: nat, u: User)
    requires Quiet(v, u)
    ensures var w := L.Apply(v, L.Tick(elapsed)); Quiet(w, u) && w.clock == v.clock + elapsed
  {
  }

  /** What belongs to `v`, but for its counter, is as it was. */
  ghost predicate Untouched(s: State, t: State, v: User) {
    && v in s.users && v in t.users && t.users[v] == s.users[v]
    && (forall x: Personal :: x.user == v ==> (x in t.personal <==> x in s.personal))
    && (forall c :: IsOf(t.challenges, c, v) <==> IsOf(s.challenges, c, v))
    && (forall c :: IsOf(s.challenges, c, v) ==> t.challenges[c] == s.challenges[c])
    && (v in t.server.usage <==> v in s.server.usage) && t.server.rows == s.server.rows && t.server.blobs == s.server.blobs
  }

  lemma EmptyingTouchesOne(s: State, u: User, tab: Target, now: Time, v: User)
    requires v in s.users && v != u
    ensures Untouched(s, Emptied(s, u, tab, now), v)
  {
  }

  /** No attempt ever touches an account that was not deleted. */
  lemma LiveAccountsUntouched(s: State, p: Pid, ok: bool, v: User)
    requires Inv(s) && v in s.users && !Deleted(s, v)
    ensures Untouched(s, Apply(s, Step(p, ok)), v)
  {
    hide CompletedOk, DeletedQuiet, Custody.Sound, Emptied, ExpireFor, DeleteFrom, RowsLeft;
    if AtWork(s, p) {
      var r := s.runs[p];
      assert RunOk(s, r);
      if r.stage.Emptying? && r.stage.next < |TABLES| {
        EmptyingTouchesOne(s, s.jobs[r.job].user, TABLES[r.stage.next], r.now, v);
      }
    }
  }

  lemma FreshInv(s: State)
    requires Custody.Sound(s.server) && s.jobs == map[] && s.runs == map[]
    requires forall u :: u in s.users ==> s.users[u].deletedAt.None?
    ensures Inv(s)
  {
  }

  // ---------------------------------------------------------------- the store and the service

  const PAGE: nat := 50

  /** What a job needs to complete in an undisturbed attempt. */
  ghost predicate Completable(s: State, j: Job) { Erasable(s, j) && NoRows(s, j.user) }

  /** Statements of an attempt, numbered in order; MarkFailed is the last. */
  const MARK_FAILED: nat := 14

  ghost predicate Faultless(faults: set<nat>) { forall i :: i in faults ==> i >= MARK_FAILED }

  /** `status IN ('pending','failed') AND eligible_at <= now ORDER BY eligible_at LIMIT 50`. */
  ghost predicate EligiblePage(jobs: map<JobId, Job>, now: Time, page: seq<JobId>) {
    && |page| <= PAGE
    && (forall i :: 0 <= i < |page| ==> page[i] in jobs && Eligible(jobs[page[i]], now))
    && (forall i, k :: 0 <= i < k < |page| ==> page[i] != page[k] && jobs[page[i]].eligibleAt <= jobs[page[k]].eligibleAt)
    && (forall j :: j in jobs && Eligible(jobs[j], now) && j !in page ==>
          |page| == PAGE && forall i :: 0 <= i < |page| ==> jobs[page[i]].eligibleAt <= jobs[j].eligibleAt)
  }

  lemma ExecSnoc(s: State, es: seq<Event>, e: Event)
    ensures Exec(s, es + [e]) == Apply(Exec(s, es), e)
  {
  }

  lemma {:induction false} ExecConcat(s: State, a: seq<Event>, b: seq<Event>)
    ensures Exec(s, a + b) == Exec(Exec(s, a), b)
    decreases |b|
  {
    hide Apply;
    if b == [] {
      assert a + b == a;
    } else {
      var n := |b| - 1;
      assert (a + b)[..|a + b| - 1] == a + b[..n];
      ExecConcat(s, a, b[..n]);
    }
  }

  /** From `s` to `t` no challenge was deleted, and no row of a spared table was touched. */
  ghost predicate Spares(s: State, t: State) {
    && t.challenges.Keys == s.challenges.Keys
    && (forall x: Personal :: Spared(x.table) ==> (x in t.personal <==> x in s.personal))
  }

  ghost function PassTime(s: State, p: Pid): Time { if p in s.runs then s.runs[p].now else 0 }

  /** From `s` to `t` attempt `p` may have emptied tables, and nothing else moved. */
  ghost predicate OnlyAttempt(s: State, t: State, p: Pid, job: JobId, st: Stage) {
    && t.server.rows == s.server.rows && t.server.clock == s.server.clock && t.users == s.users && t.jobs == s.jobs
    && t.runs == s.runs[p := Run(job, st, PassTime(s, p))] && Spares(s, t)
  }

  lemma EmptyingStep(s: State, p: Pid, k: nat, ok: bool)
    requires AtWork(s, p) && s.runs[p].stage == Emptying(k) && k < |TABLES|
    ensures var t := Apply(s, Step(p, ok)); var u := s.jobs[s.runs[p].job].user;
            && OnlyAttempt(s, t, p, s.runs[p].job, if ok then After(k + 1) else Failing)
            && t.personal == (if ok && TABLES[k].Rows? then DeleteFrom(s.personal, u, TABLES[k].table) else s.personal)
            && t.challenges == (if ok && TABLES[k].Challenges? then ExpireFor(s.challenges, u, s.runs[p].now) else s.challenges)
            && t.server == (if ok && TABLES[k].Usage? then s.server.(usage := s.server.usage - {u}, leaked := s.server.leaked - {u})
                            else s.server)
  {
  }

  /** The first `k` tables hold nothing of the user. */
  ghost predicate EmptyUpTo(s: State, u: User, k: nat) {
    forall i :: 0 <= i < k && i < |TABLES| ==> Empty(s, u, TABLES[i])
  }

  lemma EmptyOneMore(s: State, p: Pid, k: nat)
    requires AtWork(s, p) && s.runs[p].stage == Emptying(k) && k < |TABLES| && EmptyUpTo(s, s.jobs[s.runs[p].job].user, k)
    ensures EmptyUpTo(Apply(s, Step(p, true)), s.jobs[s.runs[p].job].user, k + 1)
  {
    EmptyingStep(s, p, k, true);
    hide Apply;
    var t := Apply(s, Step(p, true));
    var u := s.jobs[s.runs[p].job].user;
    forall i | 0 <= i < k + 1 && i < |TABLES| ensures Empty(t, u, TABLES[i]) {
      assert i < k ==> Empty(s, u, TABLES[i]);
    }
  }

  /** Every other step of an attempt before its end. */
  lemma PlainStep(s: State, p: Pid, ok: bool)
    requires AtWork(s, p)
    ensures var t := Apply(s, Step(p, ok)); var j := s.jobs[s.runs[p].job]; var job := s.runs[p].job;
            match s.runs[p].stage
            case Checking => t == At(s, p, if ok && Erasable(s, j) then Emptying(0) else Failing)
            case CountingBundles => t == At(s, p, if ok then CountingSnapshots(RowsLeft(s.server.rows, j.user, L.Bundle)) else Failing)
            case CountingSnapshots(left) =>
              t == At(s, p, if ok && !left && !RowsLeft(s.server.rows, j.user, L.Snapshot) then Anonymizing else Failing)
            case Reporting => t == At(s, p, if ok then Completing else Failing)
            case Completing => t == if ok then Finished(s, p, Completed) else At(s, p, Failing)
            case Failing => t == if ok then Finished(s, p, Failed) else s.(runs := s.runs - {p})
            case _ => true
  {
  }

  lemma AnonymizingStep(s: State, p: Pid, ok: bool)
    requires AtWork(s, p) && s.runs[p].stage.Anonymizing? && Deleted(s, s.jobs[s.runs[p].job].user)
    ensures var t := Apply(s, Step(p, ok)); var u := s.jobs[s.runs[p].job].user;
            t == if ok then At(s.(users := s.users[u := s.users[u].(anonymized := true)]), p, Reporting) else At(s, p, Failing)
  {
  }

  ghost function Traced(s: State, es: seq<Event>, e: Event): (fs: seq<Event>)
    ensures Exec(s, fs) == Apply(Exec(s, es), e) && Exec(s, []) == s
  {
    ExecSnoc(s, es, e);
    es + [e]
  }

  /** Same accounts, same deletion times. */
  ghost predicate SameTombstones(a: map<User, Account>, b: map<User, Account>) {
    a.Keys == b.Keys && forall u :: u in a ==> b[u].deletedAt == a[u].deletedAt
  }

  class ErasureStore {
    var server: L.Server
    var users: map<User, Account>
    var personal: set<Personal>
    var challenges: map<ChallengeId, Challenge>
    var jobs: map<JobId, Job>
    ghost var runs: map<Pid, Run>

    ghost function View(): State
      reads this
    {
      State(server, users, personal, challenges, jobs, runs)
    }

    /** DELETE of one user's rows in one table. */
    method DeleteByUser(u: User, t: Target, fails: bool, ghost k: nat, ghost p: Pid)
      requires AtWork(View(), p) && runs[p].stage == Emptying(k) && k < |TABLES| && TABLES[k] == t && jobs[runs[p].job].user == u
      requires !t.Challenges?
      modifies this`server, this`personal, this`runs
      ensures View() == Apply(old(View()), Step(p, !fails))
      ensures OnlyAttempt(old(View()), View(), p, old(runs)[p].job, if fails then Failing else After(k + 1))
      ensures !fails && EmptyUpTo(old(View()), u, k) ==> EmptyUpTo(View(), u, k + 1)
    {
      hide Apply, EmptyUpTo, Spares;
      if EmptyUpTo(View(), u, k) { EmptyOneMore(View(), p, k); }
      EmptyingStep(View(), p, k, !fails);
      ghost var next := Apply(View(), Step(p, !fails));
      if !fails {
        if t == Usage {
          server := server.(usage := server.usage - {u}, leaked := server.leaked - {u});
        } else {
          personal := DeleteFrom(personal, u, t.table);
        }
      }
      runs := next.runs;
    }

    /** UPDATE of one user's open challenges; no row goes. */
    method ExpireChallengesByUser(u: User, now: Time, fails: bool, ghost k: nat, ghost p: Pid)
      requires AtWork(View(), p) && runs[p].stage == Emptying(k) && k < |TABLES| && TABLES[k] == Challenges && jobs[runs[p].job].user == u
      requires now == runs[p].now
      modifies this`challenges, this`runs
      ensures View() == Apply(old(View()), Step(p, !fails))
      ensures challenges == if fails then old(challenges) else ExpireFor(old(challenges), u, now)
      ensures OnlyAttempt(old(View()), View(), p, old(runs)[p].job, if fails then Failing else After(k + 1))
      ensures !fails && EmptyUpTo(old(View()), u, k) ==> EmptyUpTo(View(), u, k + 1)
    {
      hide Apply, EmptyUpTo, Spares;
      if EmptyUpTo(View(), u, k) { EmptyOneMore(View(), p, k); }
      EmptyingStep(View(), p, k, !fails);
      ghost var next := Apply(View(), Step(p, !fails));
      if !fails {
        challenges := ExpireFor(challenges, u, now);
      }
      runs := next.runs;
    }

    method ListEligible(now: Time) returns (page: seq<JobId>)
      ensures EligiblePage(jobs, now, page)
    {
      page := [];
      var rest := set j | j in jobs && Eligible(jobs[j], now);
      while rest != {} && |page| < PAGE
        invariant |page| <= PAGE
        invariant forall j :: j in rest <==> j in jobs && Eligible(jobs[j], now) && j !in page
        invariant forall i :: 0 <= i < |page| ==> page[i] in jobs && Eligible(jobs[page[i]], now)
        invariant forall i, k :: 0 <= i < k < |page| ==> page[i] != page[k] && jobs[page[i]].eligibleAt <= jobs[page[k]].eligibleAt
        invariant forall i, j :: 0 <= i < |page| && j in rest ==> jobs[page[i]].eligibleAt <= jobs[j].eligibleAt
        decreases rest
      {
        var j := EarliestEligible(rest);
        page := page + [j];
        rest := rest - {j};
      }
    }

    method EarliestEligible(js: set<JobId>) returns (first: JobId)
      requires js != {} && js <= jobs.Keys
      ensures first in js && forall j :: j in js ==> jobs[first].eligibleAt <= jobs[j].eligibleAt
    {
      first :| first in js;
      var rest := js - {first};
      while rest != {}
        invariant rest <= js && first in js
        invariant forall j :: j in js - rest ==> jobs[first].eligibleAt <= jobs[j].eligibleAt
        decreases rest
      {
        var j :| j in rest;
        if jobs[j].eligibleAt < jobs[first].eligibleAt { first := j; }
        rest := rest - {j};
      }
    }

    /** The guarded UPDATE that claims a job. */
    method MarkRunning(j: JobId, now: Time, ghost p: Pid) returns (claimed: bool)
      requires now <= server.clock && p !in runs
      modifies this`jobs, this`runs
      ensures claimed <==> j in old(jobs) && Eligible(old(jobs)[j], now)
      ensures View() == Apply(old(View()), Begin(p, j, now))
      ensures claimed ==> jobs == old(jobs)[j := old(jobs)[j].(status := Running)] && runs == old(runs)[p := Run(j, Checking, now)]
      ensures !claimed ==> View() == old(View())
    {
      claimed := j in jobs && Eligible(jobs[j], now);
      if claimed {
        jobs := jobs[j := jobs[j].(status := Running)];
        runs := runs[p := Run(j, Checking, now)];
      }
    }

    method CountRows(u: User, k: L.Kind) returns (left: bool)
      ensures left <==> RowsLeft(server.rows, u, k)
    {
      var rows := set o | o in server.rows && o.user == u && o.kind == k;
      left := rows != {};
      forall o | o in server.rows && o.user == u && o.kind == k ensures left {
        assert o in rows;
      }
    }
  }

  ghost predicate IsTable(k: nat, t: Target) { k < |TABLES| && TABLES[k] == t }

  lemma TableOrder()
    ensures IsTable(0, Rows(Tokens)) && IsTable(1, Rows(Devices)) && IsTable(2, Rows(TwoFactor)) && IsTable(3, Rows(Passkeys))
    ensures IsTable(4, Challenges) && IsTable(5, Rows(Preferences)) && IsTable(6, Usage) && IsTable(7, Rows(Limits))
    ensures After(0) == Emptying(0) && After(8) == CountingBundles
  {
  }

  /** None of the statements 1 to n fails. */
  ghost predicate NoFaultUpTo(faults: set<nat>, n: nat) { forall i :: 1 <= i <= n ==> i !in faults }

  /** The eight statements in order; the first that fails ends the attempt. */
  method EmptyTables(store: ErasureStore, u: User, now: Time, faults: set<nat>, ghost p: Pid) returns (ok: bool, ghost trace: seq<Event>)
    requires AtWork(store.View(), p) && store.runs[p].stage == Emptying(0) && store.jobs[store.runs[p].job].user == u
    requires now == store.runs[p].now
    modifies store`server, store`personal, store`challenges, store`runs
    ensures store.View() == Exec(old(store.View()), trace)
    ensures OnlyAttempt(old(store.View()), store.View(), p, old(store.runs)[p].job, if ok then CountingBundles else Failing)
    ensures ok <==> NoFaultUpTo(faults, 8)
    ensures ok ==> EmptyUpTo(store.View(), u, |TABLES|)
  {
    ghost var start := store.View();
    TableOrder();
    hide Apply, Exec, OnlyAttempt, NoFaultUpTo, After, IsTable, EmptyUpTo;
    ok, trace := EmptyCredentials(store, u, now, faults, p);
    ok, trace := EmptyNext(store, u, now, Challenges, 4, ok, faults, start, trace, p);
    ok, trace := EmptyNext(store, u, now, Rows(Preferences), 5, ok, faults, start, trace, p);
    ok, trace := EmptyNext(store, u, now, Usage, 6, ok, faults, start, trace, p);
    ok, trace := EmptyNext(store, u, now, Rows(Limits), 7, ok, faults, start, trace, p);
  }

  method EmptyCredentials(store: ErasureStore, u: User, now: Time, faults: set<nat>, ghost p: Pid) returns (ok: bool, ghost trace: seq<Event>)
    requires AtWork(store.View(), p) && store.runs[p].stage == Emptying(0) && store.jobs[store.runs[p].job].user == u
    requires now == store.runs[p].now
    modifies store`server, store`personal, store`challenges, store`runs
    ensures store.View() == Exec(old(store.View()), trace)
    ensures OnlyAttempt(old(store.View()), store.View(), p, old(store.runs)[p].job, if ok then After(4) else Failing)
    ensures ok <==> NoFaultUpTo(faults, 4)
    ensures ok ==> EmptyUpTo(store.View(), u, 4)
  {
    ghost var start := store.View();
    ExecEmpty(start);
    NothingDone(start, p);
    TableOrder();
    assert NoFaultUpTo(faults, 0) && EmptyUpTo(start, u, 0);
    hide Apply, Exec, OnlyAttempt, NoFaultUpTo, After, IsTable, EmptyUpTo;
    trace, ok := [], true;
    ok, trace := EmptyNext(store, u, now, Rows(Tokens), 0, ok, faults, start, trace, p);
    ok, trace := EmptyNext(store, u, now, Rows(Devices), 1, ok, faults, start, trace, p);
    ok, trace := EmptyNext(store, u, now, Rows(TwoFactor), 2, ok, faults, start, trace, p);
    ok, trace := EmptyNext(store, u, now, Rows(Passkeys), 3, ok, faults, start, trace, p);
  }

  lemma NothingDone(s: State, p: Pid)
    requires p in s.runs
    ensures OnlyAttempt(s, s, p, s.runs[p].job, s.runs[p].stage)
  {
  }

  lemma ExecEmpty(s: State)
    ensures Exec(s, []) == s
  {
  }

  /** One `if err := ...DeleteByUser(...); err != nil { return err }`. */
  method EmptyNext(store: ErasureStore, u: User, now: Time, t: Target, k: nat, so: bool, faults: set<nat>,
                   ghost start: State, ghost before: seq<Event>, ghost p: Pid)
    returns (ok: bool, ghost trace: seq<Event>)
    requires IsTable(k, t) && store.View() == Exec(start, before)
    requires p in start.runs && start.runs[p].job in start.jobs && start.jobs[start.runs[p].job].user == u
    requires now == start.runs[p].now
    requires OnlyAttempt(start, store.View(), p, start.runs[p].job, if so then After(k) else Failing)
    requires so <==> NoFaultUpTo(faults, k)
    requires so ==> EmptyUpTo(store.View(), u, k)
    modifies store`server, store`personal, store`challenges, store`runs
    ensures store.View() == Exec(start, trace)
    ensures ok <==> NoFaultUpTo(faults, k + 1)
    ensures ok ==> EmptyUpTo(store.View(), u, k + 1)
    ensures OnlyAttempt(start, store.View(), p, start.runs[p].job, if ok then After(k + 1) else Failing)
  {
    hide Apply, Exec, EmptyUpTo;
    ok, trace := so, before;
    if ok {
      var fails := k + 1 in faults;
      ExecSnoc(start, before, Step(p, !fails));
      if t == Challenges {
        store.ExpireChallengesByUser(u, now, fails, k, p);
      } else {
        store.DeleteByUser(u, t, fails, k, p);
      }
      trace := before + [Step(p, !fails)];
      ok := !fails;
    }
  }

  /** One attempt, undisturbed: it completes exactly when no statement fails, the account was
      tombstoned in time and no metadata row is left. */
  method CompleteErasureJob(store: ErasureStore, id: JobId, now: Time, faults: set<nat>, ghost p: Pid) returns (ok: bool, ghost trace: seq<Event>)
    requires AtWork(store.View(), p) && store.runs[p] == Run(id, Checking, now)
    modifies store
    ensures store.View() == Exec(old(store.View()), trace)
    ensures ok <==> Completable(old(store.View()), old(store.jobs)[id]) && Faultless(faults)
    ensures ok ==> Erased(store.View(), old(store.jobs)[id].user)
    ensures ok ==> store.jobs == old(store.jobs)[id := old(store.jobs)[id].(status := Completed)] && store.runs == old(store.runs) - {p}
    ensures !ok ==> store.jobs == old(store.jobs) && store.runs == old(store.runs)[p := Run(id, Failing, now)]
    ensures store.server.rows == old(store.server).rows && store.server.clock == old(store.server).clock
    ensures SameTombstones(old(store.users), store.users) && Spares(old(store.View()), store.View())
  {
    hide Apply, Exec, Erased, EmptyUpTo;
    ghost var start := store.View();
    ExecEmpty(start);
    var u := store.jobs[id].user;
    // the tombstone
    ghost var ready := 0 !in faults;
    var eligible := 0 !in faults && u in store.users && store.users[u].deletedAt.Some?
                    && store.users[u].deletedAt.value <= store.jobs[id].eligibleAt;
    PlainStep(start, p, ready);
    store.runs := store.runs[p := Run(id, if eligible then Emptying(0) else Failing, now)];
    trace := [Step(p, ready)];
    ExecSnoc(start, [], Step(p, ready));
    assert [] + [Step(p, ready)] == trace;
    if !eligible {
      return false, trace;
    }
    // the personal tables
    ghost var steps;
    ghost var mid := store.View();
    ok, steps := EmptyTables(store, u, now, faults, p);
    ExecConcat(start, trace, steps);
    trace := trace + steps;
    if !ok {
      return false, trace;
    }
    ghost var emptied := store.View();
    ok, steps := CloseJob(store, id, now, faults, p);
    ExecConcat(start, trace, steps);
    trace := trace + steps;
    if ok {
      ErasedAtLast(emptied, store.View(), u);
    }
  }

  lemma ErasedAtLast(s: State, t: State, u: User)
    requires EmptyUpTo(s, u, |TABLES|) && NoRows(s, u) && t.server == s.server && t.personal == s.personal && t.challenges == s.challenges
    requires Deleted(t, u) && t.users[u].anonymized
    ensures Erased(t, u)
  {
  }

  lemma NoRowsByKind(s: State, u: User)
    ensures NoRows(s, u) <==> !RowsLeft(s.server.rows, u, L.Bundle) && !RowsLeft(s.server.rows, u, L.Snapshot)
  {
  }

  /** Count, anonymize, report, complete. */
  method CloseJob(store: ErasureStore, id: JobId, now: Time, faults: set<nat>, ghost p: Pid) returns (ok: bool, ghost trace: seq<Event>)
    requires AtWork(store.View(), p) && store.runs[p] == Run(id, CountingBundles, now) && Deleted(store.View(), store.jobs[id].user)
    modifies store`users, store`jobs, store`runs
    ensures store.View() == Exec(old(store.View()), trace)
    ensures ok <==> NoRows(old(store.View()), old(store.jobs)[id].user) && forall i :: i in faults ==> i < 9 || i >= MARK_FAILED
    ensures ok ==> Deleted(store.View(), old(store.jobs)[id].user) && store.users[old(store.jobs)[id].user].anonymized
    ensures ok ==> store.jobs == old(store.jobs)[id := old(store.jobs)[id].(status := Completed)] && store.runs == old(store.runs) - {p}
    ensures !ok ==> store.jobs == old(store.jobs) && store.runs == old(store.runs)[p := Run(id, Failing, now)]
    ensures SameTombstones(old(store.users), store.users)
  {
    hide Apply, Exec, RowsLeft, NoRows;
    ghost var start := store.View();
    var u := store.jobs[id].user;
    NoRowsByKind(start, u);
    var bundles := store.CountRows(u, L.Bundle);
    var snapshots := store.CountRows(u, L.Snapshot);
    PlainStep(start, p, 9 !in faults);
    trace := Traced(start, [], Step(p, 9 !in faults));
    if 9 in faults {
      store.runs := store.runs[p := Run(id, Failing, now)];
      return false, trace;
    }
    store.runs := store.runs[p := Run(id, CountingSnapshots(bundles), now)];
    PlainStep(store.View(), p, 10 !in faults);
    trace := Traced(start, trace, Step(p, 10 !in faults));
    if 10 in faults || bundles || snapshots {
      store.runs := store.runs[p := Run(id, Failing, now)];
      return false, trace;
    }
    store.runs := store.runs[p := Run(id, Anonymizing, now)];
    AnonymizingStep(store.View(), p, 11 !in faults);
    trace := Traced(start, trace, Step(p, 11 !in faults));
    if 11 in faults {
      store.runs := store.runs[p := Run(id, Failing, now)];
      return false, trace;
    }
    store.users := store.users[u := store.users[u].(anonymized := true)];
    store.runs := store.runs[p := Run(id, Reporting, now)];
    ghost var steps;
    ok, steps := CertifyJob(store, id, now, faults, p);
    ExecConcat(start, trace, steps);
    trace := trace + steps;
  }

  /** The edition's report and the certificate, then MarkCompleted. */
  method CertifyJob(store: ErasureStore, id: JobId, now: Time, faults: set<nat>, ghost p: Pid) returns (ok: bool, ghost trace: seq<Event>)
    requires AtWork(store.View(), p) && store.runs[p] == Run(id, Reporting, now)
    modifies store`jobs, store`runs
    ensures store.View() == Exec(old(store.View()), trace)
    ensures ok <==> 12 !in faults && 13 !in faults
    ensures ok ==> store.jobs == old(store.jobs)[id := old(store.jobs)[id].(status := Completed)] && store.runs == old(store.runs) - {p}
    ensures !ok ==> store.jobs == old(store.jobs) && store.runs == old(store.runs)[p := Run(id, Failing, now)]
  {
    hide Apply, Exec;
    ghost var start := store.View();
    ghost var reported := 12 !in faults;
    PlainStep(start, p, reported);
    trace := Traced(start, [], Step(p, reported));
    if 12 in faults {
      store.runs := store.runs[p := Run(id, Failing, now)];
      return false, trace;
    }
    store.runs := store.runs[p := Run(id, Completing, now)];
    PlainStep(store.View(), p, 13 !in faults);
    trace := Traced(start, trace, Step(p, 13 !in faults));
    if 13 in faults {
      store.runs := store.runs[p := Run(id, Failing, now)];
      return false, trace;
    }
    store.jobs := store.jobs[id := store.jobs[id].(status := Completed)];
    store.runs := store.runs - {p};
    ok := true;
  }

  datatype Report = Report(checked: nat, completed: nat, failed: nat, skipped: nat)

  /** What one pass leaves of a job it lists: `faults` are the statements that fail for it. */
  ghost function StatusAfter(s: State, j: JobId, faults: set<nat>): Status
    requires j in s.jobs
  {
    if Completable(s, s.jobs[j]) && Faultless(faults) then Completed
    else if MARK_FAILED in faults then Running
    else Failed
  }

  ghost function ReportOf(s: State, page: seq<JobId>, faults: nat -> set<nat>, done: nat): (r: Report)
    requires done <= |page| && forall i :: 0 <= i < |page| ==> page[i] in s.jobs
    ensures r.checked == done == r.completed + r.failed && r.skipped == 0
  {
    if done == 0 then Report(0, 0, 0, 0)
    else Counted(ReportOf(s, page, faults, done - 1), Completable(s, s.jobs[page[done - 1]]) && Faultless(faults(done - 1)))
  }

  function Counted(r: Report, completed: bool): Report {
    if completed then r.(checked := r.checked + 1, completed := r.completed + 1)
    else r.(checked := r.checked + 1, failed := r.failed + 1)
  }

  /** After `done` jobs of the page: these are settled, the others untouched. */
  ghost predicate PassProgress(s: State, t: State, page: seq<JobId>, faults: nat -> set<nat>, done: nat) {
    && t.server.rows == s.server.rows && t.server.clock == s.server.clock && t.runs == s.runs
    && t.jobs.Keys == s.jobs.Keys && SameTombstones(s.users, t.users)
    && (forall i :: 0 <= i < done && i < |page| ==>
          page[i] in s.jobs && t.jobs[page[i]] == s.jobs[page[i]].(status := StatusAfter(s, page[i], faults(i))))
    && (forall j :: j in s.jobs && (forall i :: 0 <= i < done && i < |page| ==> page[i] != j) ==> t.jobs[j] == s.jobs[j])
  }

  lemma PassStep(s: State, mid: State, t: State, page: seq<JobId>, faults: nat -> set<nat>, done: nat)
    requires PassProgress(s, mid, page, faults, done) && done < |page| && page[done] in s.jobs
    requires forall i, k :: 0 <= i < k < |page| ==> page[i] != page[k]
    requires t.server.rows == mid.server.rows && t.server.clock == mid.server.clock && t.runs == mid.runs
    requires SameTombstones(mid.users, t.users)
    requires page[done] in mid.jobs
    requires t.jobs == mid.jobs[page[done] := mid.jobs[page[done]].(status := StatusAfter(mid, page[done], faults(done)))]
    ensures PassProgress(s, t, page, faults, done + 1)
    ensures mid.jobs[page[done]] == s.jobs[page[done]]
    ensures Completable(mid, mid.jobs[page[done]]) <==> Completable(s, s.jobs[page[done]])
  {
  }

  /** Claim one listed job, attempt it, and record a failure. */
  method RunJob(store: ErasureStore, id: JobId, now: Time, faults: set<nat>, ghost p: Pid) returns (completed: bool, ghost trace: seq<Event>)
    requires p !in store.runs && id in store.jobs && Eligible(store.jobs[id], now) && now <= store.server.clock
    modifies store
    ensures store.View() == Exec(old(store.View()), trace)
    ensures store.jobs == old(store.jobs)[id := old(store.jobs)[id].(status := StatusAfter(old(store.View()), id, faults))]
    ensures store.runs == old(store.runs) && SameTombstones(old(store.users), store.users)
    ensures store.server.rows == old(store.server).rows && store.server.clock == old(store.server).clock
    ensures completed <==> Completable(old(store.View()), old(store.jobs)[id]) && Faultless(faults)
  {
    hide Apply, Exec, Faultless;
    ghost var start := store.View();
    var claimed := store.MarkRunning(id, now, p);
    ghost var mid := store.View();
    trace := Traced(start, [], Begin(p, id, now));
    assert Completable(mid, mid.jobs[id]) <==> Completable(start, start.jobs[id]);
    ghost var steps;
    completed, steps := CompleteErasureJob(store, id, now, faults, p);
    ExecConcat(start, trace, steps);
    trace := trace + steps;
    if !completed {
      ghost var recorded := MARK_FAILED !in faults;
      PlainStep(store.View(), p, recorded);
      trace := Traced(start, trace, Step(p, recorded));
      if MARK_FAILED !in faults {
        store.jobs := store.jobs[id := store.jobs[id].(status := Failed)];
      }
      store.runs := store.runs - {p};
    }
  }

  /** One pass over the eligible jobs; a cancelled context stops it between two jobs. */
  method RunErasureJobs(store: ErasureStore, faults: nat -> set<nat>, cancelled: nat -> bool, ghost p: Pid)
    returns (ok: bool, report: Report, ghost page: seq<JobId>, ghost trace: seq<Event>)
    requires p !in store.runs
    modifies store
    ensures store.View() == Exec(old(store.View()), trace)
    ensures EligiblePage(old(store.jobs), old(store.server).clock, page)
    ensures report.checked <= |page| && (ok <==> report.checked == |page|)
    ensures report == ReportOf(old(store.View()), page, faults, report.checked)
    ensures PassProgress(old(store.View()), store.View(), page, faults, report.checked)
  {
    hide Apply, Exec, PassProgress, StatusAfter, Faultless, Completable, EligiblePage, ReportOf;
    ghost var start := store.View();
    var now := store.server.clock;
    var jobs := store.ListEligible(now);
    page := jobs;
    var i := 0;
    report, ok, trace := Report(0, 0, 0, 0), true, [];
    ExecEmpty(start);
    PageKnown(start, page);
    PassOpens(start, page, faults);
    while i < |jobs|
      invariant 0 <= i <= |jobs| && report.checked == i
      invariant report == ReportOf(start, page, faults, i)
      invariant store.View() == Exec(start, trace)
      invariant PassProgress(start, store.View(), page, faults, i)
    {
      if cancelled(i) {
        return false, report, page, trace;
      }
      ghost var mid := store.View();
      PassMiddle(start, mid, page, faults, i);
      ghost var steps;
      var completed;
      completed, steps := RunJob(store, jobs[i], now, faults(i), p);
      ExecConcat(start, trace, steps);
      trace := trace + steps;
      PassStep(start, mid, store.View(), page, faults, i);
      ReportStep(start, page, faults, i);
      report := Counted(report, completed);
      i := i + 1;
    }
  }

  lemma PageKnown(s: State, page: seq<JobId>)
    requires EligiblePage(s.jobs, s.server.clock, page)
    ensures forall i :: 0 <= i < |page| ==> page[i] in s.jobs
    ensures forall i, k :: 0 <= i < k < |page| ==> page[i] != page[k]
  {
  }

  lemma ReportStep(s: State, page: seq<JobId>, faults: nat -> set<nat>, i: nat)
    requires i < |page| && forall k :: 0 <= k < |page| ==> page[k] in s.jobs
    ensures ReportOf(s, page, faults, i + 1)
            == Counted(ReportOf(s, page, faults, i), Completable(s, s.jobs[page[i]]) && Faultless(faults(i)))
  {
  }

  lemma PassOpens(s: State, page: seq<JobId>, faults: nat -> set<nat>)
    requires forall k :: 0 <= k < |page| ==> page[k] in s.jobs
    ensures PassProgress(s, s, page, faults, 0) && ReportOf(s, page, faults, 0) == Report(0, 0, 0, 0)
  {
  }

  lemma PassMiddle(s: State, mid: State, page: seq<JobId>, faults: nat -> set<nat>, done: nat)
    requires PassProgress(s, mid, page, faults, done) && EligiblePage(s.jobs, s.server.clock, page) && done < |page|
    ensures page[done] in mid.jobs && mid.jobs[page[done]] == s.jobs[page[done]]
    ensures Eligible(mid.jobs[page[done]], mid.server.clock) && mid.server.clock == s.server.clock && mid.runs == s.runs
  {
  }
}
