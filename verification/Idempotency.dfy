/**
 Request idempotency: claim a key, execute, mark the outcome, replay it. The machine has one
 event per store transaction, so a list of events is any interleaving of any callers.
 */
module Idempotency {
  import opened Numbers
  import opened Wrappers

  type Key(==, !new)          // (scope, SHA-256 of the trimmed key)
  type Fingerprint(==, !new)  // SHA-256 of the payload
  type Body = string          // encoded response
  type Time = nat
  type Pid = nat

  const LOCK_TTL: nat := 30  // seconds, when the caller gives none

  datatype Status = Processing | Succeeded | Failed

  datatype Record = Record(fp: Fingerprint, status: Status, lockedUntil: Option<Time>,
                           responseStatus: Option<int>, body: Body)

  datatype Claimed = Started | Replayed(record: Record) | Conflict | InProgress

  datatype Execution = Execution(key: Key, fp: Fingerprint, lockedUntil: Time)

  datatype Win = Win(key: Key, fp: Fingerprint, status: int, body: Body)

  /** `running` are the executors at work; `wins` is the history of successful marks, `effects`
      that of the keys for which `execute` returned without an error. */
  datatype State = State(clock: Time, records: map<Key, Record>, running: map<Pid, Execution>, wins: seq<Win>,
                         effects: seq<Key>)

  datatype Event =
    | Tick(elapsed: nat)
    | Call(p: Pid, key: Key, fp: Fingerprint, lock: nat)
    | Succeed(p: Pid, status: int, body: Body)
    | Fail(p: Pid, effect: bool)  // `effect`: it executed, and its value could not be encoded
    | Die(p: Pid, effect: bool)   // the executor dies, or the statement that marks its outcome fails

  function LockEnd(now: Time, lock: nat): Time {
    now + if lock == 0 then LOCK_TTL else lock
  }

  /** What the claiming transaction answers. */
  function Answer(records: map<Key, Record>, now: Time, key: Key, fp: Fingerprint): Claimed {
    if key !in records then Started
    else
      var r := records[key];
      if r.fp != fp then Conflict
      else if r.status.Succeeded? then Replayed(r)
      else if r.status.Processing? && r.lockedUntil.Some? && r.lockedUntil.value > now then InProgress
      else Started
  }

  function Fresh(fp: Fingerprint, lockedUntil: Time): Record {
    Record(fp, Processing, Some(lockedUntil), None, "{}")
  }

  function MarkedSucceeded(r: Record, status: int, body: Body): Record {
    r.(status := Succeeded, lockedUntil := None, responseStatus := Some(status),
       body := if body == "" then "{}" else body)
  }

  function MarkedFailed(r: Record): Record {
    r.(status := Failed, lockedUntil := None)
  }

  ghost function Apply(s: State, e: Event): State {
    match e
    case Tick(d) => s.(clock := s.clock + d)
    case Call(p, key, fp, lock) =>
      if p !in s.running && Answer(s.records, s.clock, key, fp).Started? then
        var end := LockEnd(s.clock, lock);
        s.(records := s.records[key := Fresh(fp, end)], running := s.running[p := Execution(key, fp, end)])
      else s
    case Succeed(p, status, body) =>
      if p in s.running && s.running[p].key in s.records then
        var x := s.running[p];
        var r := MarkedSucceeded(s.records[x.key], status, body);
        s.(records := s.records[x.key := r], running := s.running - {p},
           wins := s.wins + [Win(x.key, x.fp, status, r.body)], effects := s.effects + [x.key])
      else s
    case Fail(p, effect) =>
      if p in s.running && s.running[p].key in s.records then
        var k := s.running[p].key;
        s.(records := s.records[k := MarkedFailed(s.records[k])], running := s.running - {p},
           effects := if effect then s.effects + [k] else s.effects)
      else s
    case Die(p, effect) =>
      s.(running := s.running - {p},
         effects := if effect && p in s.running then s.effects + [s.running[p].key] else s.effects)
  }

  ghost function Exec(s: State, es: seq<Event>): State
    decreases |es|
  {
    if es == [] then s else Apply(Exec(s, es[..|es| - 1]), es[|es| - 1])
  }

  lemma ExecStep(s: State, es: seq<Event>, k: nat)
    requires k < |es|
    ensures Exec(s, es[..k + 1]) == Apply(Exec(s, es[..k]), es[k])
  {
    assert es[..k + 1][..k] == es[..k];
  }

  const EMPTY: map<Key, Record> := map[]

  ghost function Init(): State { State(0, EMPTY, map[], [], []) }

  // ---------------------------------------------------------------- without any assumption on time

  /** A key belongs to the first fingerprint that claimed it. */
  ghost predicate FingerprintsKept(s: State, t: State) {
    forall k :: k in s.records ==> k in t.records && t.records[k].fp == s.records[k].fp
  }

  /** Whoever runs for a key runs that fingerprint. */
  ghost predicate RunnersMatch(s: State) {
    forall p :: p in s.running ==>
      s.running[p].key in s.records && s.records[s.running[p].key].fp == s.running[p].fp
  }

  lemma StepKeepsFingerprints(s: State, e: Event)
    requires RunnersMatch(s)
    ensures RunnersMatch(Apply(s, e)) && FingerprintsKept(s, Apply(s, e))
  {
  }

  lemma {:induction false} RunnersMatchAt(s: State, es: seq<Event>, k: nat)
    requires RunnersMatch(s) && k <= |es|
    ensures RunnersMatch(Exec(s, es[..k]))
  {
    hide Apply, RunnersMatch;
    if k > 0 {
      RunnersMatchAt(s, es, k - 1);
      ExecStep(s, es, k - 1);
      StepKeepsFingerprints(Exec(s, es[..k - 1]), es[k - 1]);
    }
  }

  /** Whatever the timing, a key keeps the fingerprint that claimed it first. */
  lemma {:induction false} FingerprintNeverChanges(s: State, es: seq<Event>, i: nat, j: nat)
    requires RunnersMatch(s) && i <= j <= |es|
    ensures FingerprintsKept(Exec(s, es[..i]), Exec(s, es[..j]))
    decreases j
  {
    hide Apply, RunnersMatch;
    if i < j {
      FingerprintNeverChanges(s, es, i, j - 1);
      ExecStep(s, es, j - 1);
      RunnersMatchAt(s, es, j - 1);
      StepKeepsFingerprints(Exec(s, es[..j - 1]), es[j - 1]);
    }
  }

  /** Whatever the timing, a payload other than the first is never started under a key. */
  lemma OtherPayloadNeverStarts(s: State, es: seq<Event>, i: nat, j: nat, key: Key, fp: Fingerprint, p: Pid)
    requires RunnersMatch(s) && i <= j <= |es|
    requires var a := Exec(s, es[..i]); key in a.records && a.records[key].fp != fp
    ensures var b := Exec(s, es[..j]);
            && Answer(b.records, b.clock, key, fp) == Conflict
            && (p in b.running && b.running[p].key == key ==> b.running[p].fp != fp)
  {
    hide Apply;
    FingerprintNeverChanges(s, es, i, j);
    RunnersMatchAt(s, es, j);
  }

  // ---------------------------------------------------------------- with locks that outlast executions

  /** No executor is still at work when its lock ends. */
  ghost predicate Prompt(s: State, e: Event) {
    e.Tick? ==> forall p :: p in s.running ==> s.clock + e.elapsed < s.running[p].lockedUntil
  }

  ghost predicate AllPrompt(s: State, es: seq<Event>) {
    forall k :: 0 <= k < |es| ==> Prompt(Exec(s, es[..k]), es[k])
  }

  ghost predicate Locked(s: State) {
    && (forall p :: p in s.running ==>
          && s.running[p].key in s.records
          && s.records[s.running[p].key].status.Processing?
          && s.records[s.running[p].key].lockedUntil == Some(s.running[p].lockedUntil)
          && s.records[s.running[p].key].fp == s.running[p].fp
          && s.clock < s.running[p].lockedUntil)
    && (forall p, q :: p in s.running && q in s.running && s.running[p].key == s.running[q].key ==> p == q)
  }

  ghost predicate IsOf(w: Win, k: Key, r: Record) {
    && w.key == k && w.fp == r.fp && r.status.Succeeded?
    && r.responseStatus == Some(w.status) && r.body == w.body
  }

  /** The wins and the succeeded records are the same thing. */
  ghost predicate WinsRecorded(s: State) {
    && (forall i, j :: 0 <= i < j < |s.wins| ==> s.wins[i].key != s.wins[j].key)
    && (forall i :: 0 <= i < |s.wins| ==>
          s.wins[i].key in s.records && IsOf(s.wins[i], s.wins[i].key, s.records[s.wins[i].key]))
    && (forall k :: k in s.records && s.records[k].status.Succeeded? ==> exists i :: 0 <= i < |s.wins| && s.wins[i].key == k)
  }

  ghost predicate Inv(s: State) { Locked(s) && WinsRecorded(s) }

  lemma StepLocked(s: State, e: Event)
    requires Locked(s) && Prompt(s, e)
    ensures Locked(Apply(s, e))
  {
  }

  /** A step that leaves the records of `keep` alone and adds no win keeps the wins recorded. */
  lemma WinsUntouched(s: State, t: State)
    requires WinsRecorded(s) && t.wins == s.wins
    requires forall k :: k in s.records && s.records[k].status.Succeeded? ==> k in t.records && t.records[k] == s.records[k]
    requires forall k :: k in t.records && t.records[k].status.Succeeded? ==> k in s.records && t.records[k] == s.records[k]
    ensures WinsRecorded(t)
  {
  }

  lemma WinRecorded(s: State, p: Pid, status: int, body: Body)
    requires Locked(s) && WinsRecorded(s) && p in s.running
    ensures WinsRecorded(Apply(s, Succeed(p, status, body)))
  {
    var t := Apply(s, Succeed(p, status, body));
    var k := s.running[p].key;
    assert t.wins[|s.wins|].key == k;
    forall x | x in t.records && t.records[x].status.Succeeded?
      ensures exists i :: 0 <= i < |t.wins| && t.wins[i].key == x
    {
      if x != k {
        var i :| 0 <= i < |s.wins| && s.wins[i].key == x;
        assert t.wins[i].key == x;
      }
    }
  }

  lemma StepInv(s: State, e: Event)
    requires Inv(s) && Prompt(s, e)
    ensures Inv(Apply(s, e))
  {
    StepLocked(s, e);
    if e.Succeed? && e.p in s.running {
      WinRecorded(s, e.p, e.status, e.body);
    } else {
      hide WinsRecorded;
      WinsUntouched(s, Apply(s, e));
    }
  }

  lemma {:induction false} InvAt(s: State, es: seq<Event>, k: nat)
    requires Inv(s) && AllPrompt(s, es) && k <= |es|
    ensures Inv(Exec(s, es[..k]))
  {
    hide Apply, Inv, Prompt;
    if k > 0 {
      InvAt(s, es, k - 1);
      ExecStep(s, es, k - 1);
      assert Prompt(Exec(s, es[..k - 1]), es[k - 1]);
      StepInv(Exec(s, es[..k - 1]), es[k - 1]);
    }
  }

  /** For each key at most one executor is at work, and at most one success is ever stored. */
  lemma ExclusiveExecution(s: State, es: seq<Event>, k: nat, p: Pid, q: Pid, i: nat, j: nat)
    requires Inv(s) && AllPrompt(s, es) && k <= |es|
    ensures var t := Exec(s, es[..k]);
            && (p in t.running && q in t.running && t.running[p].key == t.running[q].key ==> p == q)
            && (i < |t.wins| && j < |t.wins| && t.wins[i].key == t.wins[j].key ==> i == j)
  {
    InvAt(s, es, k);
  }

  // ---------------------------------------------------------------- exactly when it is exclusive

  ghost predicate OneAtWork(s: State) {
    forall p, q :: p in s.running && q in s.running && s.running[p].key == s.running[q].key ==> p == q
  }

  ghost predicate SuccessesStand(s: State) {
    forall i :: 0 <= i < |s.wins| ==> s.wins[i].key in s.records && s.records[s.wins[i].key].status.Succeeded?
  }

  /** Whoever calls next, one executor is at work for each key. */
  ghost predicate ExclusiveNext(s: State) {
    forall q, key, fp, lock :: OneAtWork(Apply(s, Call(q, key, fp, lock)))
  }

  /** Whoever calls next and succeeds, no failing executor takes a success back. */
  ghost predicate StandsNext(s: State) {
    forall q, key, fp, lock, status, body, p ::
      SuccessesStand(Apply(Apply(Apply(s, Call(q, key, fp, lock)), Succeed(q, status, body)), Fail(p, false)))
  }

  lemma InvServesNext(s: State)
    requires Inv(s)
    ensures ExclusiveNext(s) && StandsNext(s)
  {
    hide Apply, WinsRecorded;
    forall q, key, fp, lock ensures OneAtWork(Apply(s, Call(q, key, fp, lock))) {
      StepInv(s, Call(q, key, fp, lock));
    }
    forall q, key, fp, lock, status, body, p
      ensures SuccessesStand(Apply(Apply(Apply(s, Call(q, key, fp, lock)), Succeed(q, status, body)), Fail(p, false)))
    {
      var t := Apply(s, Call(q, key, fp, lock));
      StepInv(s, Call(q, key, fp, lock));
      StepInv(t, Succeed(q, status, body));
      StepInv(Apply(t, Succeed(q, status, body)), Fail(p, false));
      WinsStand(Apply(Apply(t, Succeed(q, status, body)), Fail(p, false)));
    }
  }

  lemma WinsStand(s: State)
    requires WinsRecorded(s)
    ensures SuccessesStand(s)
  {
  }

  /** An executor that is at work when its lock ends lets a second one start beside it; and when
      the first then fails, it takes back the success of the second. */
  lemma LateTickLetsSecondStart(s: State, d: nat, p: Pid)
    requires Inv(s) && p in s.running && s.running[p].lockedUntil <= s.clock + d
    ensures !ExclusiveNext(Apply(s, Tick(d))) && !StandsNext(Apply(s, Tick(d)))
  {
    var x := s.running[p];
    var q := Above(s.running.Keys);
    var late := Apply(s, Tick(d));
    var t := Apply(late, Call(q, x.key, x.fp, 0));
    assert p in t.running && q in t.running && t.running[p].key == t.running[q].key && p != q;
    assert !OneAtWork(t);
    var u := Apply(t, Succeed(q, 200, ""));
    assert u.wins[|s.wins|].key == x.key;
    var v := Apply(u, Fail(p, false));
    assert !SuccessesStand(v) by {
      assert v.wins[|s.wins|].key == x.key && v.records[x.key].status.Failed?;
    }
  }

  /** Executions are exclusive at every step, and successes final, exactly in the runs in which
      every executor is done when its lock ends. */
  lemma {:induction false} ExclusiveExactlyWhenPrompt(s: State, es: seq<Event>)
    requires Inv(s)
    ensures AllPrompt(s, es) <==> forall k :: 0 <= k <= |es| ==> ExclusiveNext(Exec(s, es[..k]))
    ensures AllPrompt(s, es) <==> forall k :: 0 <= k <= |es| ==> StandsNext(Exec(s, es[..k]))
  {
    hide Apply, Inv, ExclusiveNext, StandsNext;
    if AllPrompt(s, es) {
      forall k | 0 <= k <= |es| ensures ExclusiveNext(Exec(s, es[..k])) && StandsNext(Exec(s, es[..k])) {
        InvAt(s, es, k);
        InvServesNext(Exec(s, es[..k]));
      }
    } else {
      var k := FirstLate(s, es, |es|);
      ExecStep(s, es, k);
      LateStep(Exec(s, es[..k]), es[k]);
      assert !ExclusiveNext(Exec(s, es[..k + 1])) && !StandsNext(Exec(s, es[..k + 1]));
    }
  }

  lemma LateStep(s: State, e: Event)
    requires Inv(s) && !Prompt(s, e)
    ensures !ExclusiveNext(Apply(s, e)) && !StandsNext(Apply(s, e))
  {
    var p :| p in s.running && s.clock + e.elapsed >= s.running[p].lockedUntil;
    hide Inv, Apply, ExclusiveNext, StandsNext;
    LateTickLetsSecondStart(s, e.elapsed, p);
  }

  /** The first late tick of a run: up to there the invariant holds. */
  lemma {:induction false} FirstLate(s: State, es: seq<Event>, n: nat) returns (k: nat)
    requires Inv(s) && n <= |es|
    requires exists i :: 0 <= i < n && !Prompt(Exec(s, es[..i]), es[i])
    ensures k < n && Inv(Exec(s, es[..k])) && !Prompt(Exec(s, es[..k]), es[k])
  {
    hide Apply, Inv, Prompt;
    if i: int :| 0 <= i < n - 1 && !Prompt(Exec(s, es[..i]), es[i]) {
      k := FirstLate(s, es, n - 1);
    } else {
      k := n - 1;
      forall i | 0 <= i < k ensures Prompt(Exec(s, es[..k][..i]), es[..k][i]) {
        assert es[..k][..i] == es[..i];
      }
      InvAt(s, es[..k], k);
      assert es[..k][..k] == es[..k];
    }
  }

  // ---------------------------------------------------------------- exactly when it happens once

  /** A step in which an execution took place that no success will ever be stored for. */
  ghost predicate Lost(s: State, e: Event) {
    (e.Fail? || e.Die?) && e.effect && e.p in s.running
  }

  ghost predicate NeverLost(s: State, es: seq<Event>) {
    forall k :: 0 <= k < |es| ==> !Lost(Exec(s, es[..k]), es[k])
  }

  ghost predicate EffectOnce(s: State) {
    forall i, j :: 0 <= i < j < |s.effects| ==> s.effects[i] != s.effects[j]
  }

  ghost predicate AllMarked(s: State) {
    && EffectOnce(s)
    && forall i :: 0 <= i < |s.effects| ==> s.effects[i] in s.records && s.records[s.effects[i]].status.Succeeded?
  }

  /** Whatever time passes, whoever calls next and succeeds, no key takes effect twice. */
  ghost predicate OnceNext(s: State) {
    forall d, q, key, fp, lock, status, body ::
      EffectOnce(Apply(Apply(Apply(s, Tick(d)), Call(q, key, fp, lock)), Succeed(q, status, body)))
  }

  lemma StepMarked(s: State, e: Event)
    requires Locked(s) && AllMarked(s) && !Lost(s, e)
    ensures AllMarked(Apply(s, e))
  {
  }

  lemma CalledMarked(s: State, d: nat, q: Pid, key: Key, fp: Fingerprint, lock: nat)
    requires Locked(s) && AllMarked(s)
    ensures var u := Apply(Apply(s, Tick(d)), Call(q, key, fp, lock));
            && AllMarked(u)
            && (q in u.running ==> u.running[q].key in u.records && u.records[u.running[q].key].status.Processing?)
  {
  }

  lemma SucceedOnce(u: State, q: Pid, status: int, body: Body)
    requires AllMarked(u)
    requires q in u.running ==> u.running[q].key in u.records && u.records[u.running[q].key].status.Processing?
    ensures EffectOnce(Apply(u, Succeed(q, status, body)))
  {
  }

  lemma MarkedServesNext(s: State)
    requires Locked(s) && AllMarked(s)
    ensures OnceNext(s)
  {
    hide Apply, Locked, AllMarked, EffectOnce;
    forall d, q, key, fp, lock, status, body
      ensures EffectOnce(Apply(Apply(Apply(s, Tick(d)), Call(q, key, fp, lock)), Succeed(q, status, body)))
    {
      CalledMarked(s, d, q, key, fp, lock);
      SucceedOnce(Apply(Apply(s, Tick(d)), Call(q, key, fp, lock)), q, status, body);
    }
  }

  /** A lost effect is repeated by the next call, at the latest when the lock has ended. */
  lemma LostIsRepeated(s: State, e: Event)
    requires Locked(s) && Lost(s, e)
    ensures !OnceNext(Apply(s, e))
  {
    var x := s.running[e.p];
    var n := |s.effects|;
    var lost := Apply(s, e);
    var q := Above(s.running.Keys);
    assert lost.effects[n] == x.key;
    var t := Apply(lost, Tick(x.lockedUntil));
    var u := Apply(t, Call(q, x.key, x.fp, 0));
    var v := Apply(u, Succeed(q, 200, ""));
    assert !EffectOnce(v) by {
      assert v.effects[n] == x.key && v.effects[n + 1] == x.key;
    }
  }

  lemma {:induction false} MarkedAt(s: State, es: seq<Event>, k: nat)
    requires Inv(s) && AllMarked(s) && AllPrompt(s, es) && k <= |es|
    requires forall i :: 0 <= i < k ==> !Lost(Exec(s, es[..i]), es[i])
    ensures AllMarked(Exec(s, es[..k]))
  {
    hide Apply, Locked, WinsRecorded, AllMarked, Prompt;
    if k > 0 {
      MarkedAt(s, es, k - 1);
      InvAt(s, es, k - 1);
      ExecStep(s, es, k - 1);
      assert !Lost(Exec(s, es[..k - 1]), es[k - 1]);
      StepMarked(Exec(s, es[..k - 1]), es[k - 1]);
    }
  }

  /** With prompt executors an execution takes effect at most once for each key, whatever comes
      next at any step, exactly in the runs that lose no effect. */
  lemma {:induction false} EffectOnceExactlyWhenMarked(s: State, es: seq<Event>)
    requires Inv(s) && AllMarked(s) && AllPrompt(s, es)
    ensures NeverLost(s, es) <==> forall k :: 0 <= k <= |es| ==> OnceNext(Exec(s, es[..k]))
  {
    hide Apply, Locked, WinsRecorded, AllMarked, Prompt, Lost, OnceNext;
    if NeverLost(s, es) {
      forall k | 0 <= k <= |es| ensures OnceNext(Exec(s, es[..k])) {
        MarkedAt(s, es, k);
        InvAt(s, es, k);
        MarkedServesNext(Exec(s, es[..k]));
      }
    } else {
      var k :| 0 <= k < |es| && Lost(Exec(s, es[..k]), es[k]);
      InvAt(s, es, k);
      ExecStep(s, es, k);
      LostIsRepeated(Exec(s, es[..k]), es[k]);
      assert !OnceNext(Exec(s, es[..k + 1]));
    }
  }

  // ---------------------------------------------------------------- a success is final

  lemma StepKeepsSuccess(s: State, e: Event, key: Key)
    requires Locked(s) && key in s.records && s.records[key].status.Succeeded?
    ensures var t := Apply(s, e); key in t.records && t.records[key] == s.records[key]
  {
  }

  lemma {:induction false} SuccessStays(s: State, es: seq<Event>, i: nat, j: nat, key: Key)
    requires Inv(s) && AllPrompt(s, es) && i <= j <= |es|
    requires var a := Exec(s, es[..i]); key in a.records && a.records[key].status.Succeeded?
    ensures var a, b := Exec(s, es[..i]), Exec(s, es[..j]);
            key in b.records && b.records[key] == a.records[key]
    decreases j
  {
    hide Apply, Locked, WinsRecorded, AllPrompt, Exec;
    if i < j {
      SuccessStays(s, es, i, j - 1, key);
      InvAt(s, es, j - 1);
      ExecStep(s, es, j - 1);
      StepKeepsSuccess(Exec(s, es[..j - 1]), es[j - 1], key);
    }
  }

  // ---------------------------------------------------------------- what a caller gets back

  datatype ExecError = KeyRequired | StoreUnavailable | KeyConflict | StillProcessing | ExecuteFailed

  datatype Response = Response(body: Body, status: int, replayed: bool)

  /** Status 0 means 200. */
  function StatusOf(status: int): int { if status == 0 then 200 else status }

  /** What a replay reports for a stored status: anything not positive reads as 200. */
  function ReplayStatus(stored: Option<int>): int {
    if stored.Some? && stored.value > 0 then stored.value else 200
  }

  /** What a call that is not started returns. */
  function Refusal(a: Claimed): Result<Response, ExecError> {
    match a
    case Replayed(record) => Ok(Response(record.body, ReplayStatus(record.responseStatus), true))
    case Conflict => Err(KeyConflict)
    case InProgress => Err(StillProcessing)
    case Started => Err(ExecuteFailed)
  }

  /** Once an execution succeeded, every later call with its fingerprint replays its status
      and body, and every other fingerprint is refused. */
  lemma SuccessIsReplayedForever(s: State, es: seq<Event>, i: nat, j: nat, w: nat, fp: Fingerprint)
    requires Inv(s) && AllPrompt(s, es) && i <= j <= |es| && w < |Exec(s, es[..i]).wins|
    ensures var win, b := Exec(s, es[..i]).wins[w], Exec(s, es[..j]);
            var answer := Answer(b.records, b.clock, win.key, fp);
            && !answer.Started?
            && Refusal(answer) == if fp == win.fp then Ok(Response(win.body, ReplayStatus(Some(win.status)), true)) else Err(KeyConflict)
  {
    InvAt(s, es, i);
    SuccessStays(s, es, i, j, Exec(s, es[..i]).wins[w].key);
  }

  lemma InitHolds()
    ensures Inv(Init()) && RunnersMatch(Init()) && AllMarked(Init())
  {
  }

  lemma SecondStarts(key: Key, fp: Fingerprint)
    ensures Exec(Init(), [Call(1, key, fp, 1), Tick(1), Call(2, key, fp, 1)]) ==
            State(1, map[key := Fresh(fp, 2)], map[1 := Execution(key, fp, 1), 2 := Execution(key, fp, 2)], [], [])
  {
    var es := [Call(1, key, fp, 1), Tick(1), Call(2, key, fp, 1)];
    assert es[..0] == [] && es[..3] == es && Exec(Init(), []) == Init();
    hide Exec;
    ExecStep(Init(), es, 0);
    ExecStep(Init(), es, 1);
    ExecStep(Init(), es, 2);
  }

  /** Without prompt executors the promise breaks: the marks are not fenced, so an executor
      that outlived its lock wipes out the success of the one that took over. */
  lemma LateMarkUndoesSuccess(key: Key, fp: Fingerprint, body: Body)
    requires body != ""
    ensures var es := [Call(1, key, fp, 1), Tick(1), Call(2, key, fp, 1), Succeed(2, 200, body), Fail(1, false)];
            var t := Exec(Init(), es);
            |t.wins| == 1 && t.wins[0].key == key && Answer(t.records, t.clock, key, fp) == Started
  {
    var es := [Call(1, key, fp, 1), Tick(1), Call(2, key, fp, 1), Succeed(2, 200, body), Fail(1, false)];
    assert es[..3] == [Call(1, key, fp, 1), Tick(1), Call(2, key, fp, 1)] && es[..5] == es;
    hide Exec;
    SecondStarts(key, fp);
    ExecStep(Init(), es, 3);
    ExecStep(Init(), es, 4);
  }

  // ---------------------------------------------------------------- the store and the service

  class IdempotencyRepo {
    var clock: Time
    var records: map<Key, Record>
    ghost var running: map<Pid, Execution>
    ghost var wins: seq<Win>
    ghost var effects: seq<Key>

    ghost function View(): State
      reads this
    {
      State(clock, records, running, wins, effects)
    }

    /** One transaction: insert, or lock the existing row and decide. */
    method Claim(key: Key, fp: Fingerprint, now: Time, lock: nat, ghost p: Pid) returns (c: Claimed)
      requires now == clock && p !in running
      modifies this`records, this`running
      ensures View() == Apply(old(View()), Call(p, key, fp, lock))
      ensures c == Answer(old(records), now, key, fp)
    {
      ghost var next := Apply(View(), Call(p, key, fp, lock));
      if key !in records {
        records := records[key := Fresh(fp, LockEnd(now, lock))];
        c := Started;
      } else {
        var existing := records[key];
        if existing.fp != fp {
          c := Conflict;
        } else if existing.status == Succeeded {
          c := Replayed(existing);
        } else if existing.status == Processing && existing.lockedUntil.Some? && existing.lockedUntil.value > now {
          c := InProgress;
        } else {
          records := records[key := existing.(status := Processing, lockedUntil := Some(LockEnd(now, lock)),
                                              responseStatus := None, body := "{}")];
          c := Started;
        }
      }
      running := next.running;
    }

    method MarkSucceeded(key: Key, status: int, body: Body, ghost p: Pid)
      requires p in running && running[p].key == key && key in records
      modifies this`records, this`running, this`wins, this`effects
      ensures View() == Apply(old(View()), Succeed(p, status, body))
    {
      ghost var next := Apply(View(), Succeed(p, status, body));
      records := records[key := records[key].(status := Succeeded, lockedUntil := None,
                                              responseStatus := Some(status), body := if |body| == 0 then "{}" else body)];
      running, wins, effects := next.running, next.wins, next.effects;
    }

    method MarkFailed(key: Key, ghost p: Pid, ghost effect: bool)
      requires p in running && running[p].key == key && key in records
      modifies this`records, this`running, this`effects
      ensures View() == Apply(old(View()), Fail(p, effect))
    {
      ghost var next := Apply(View(), Fail(p, effect));
      records := records[key := records[key].(status := Failed, lockedUntil := None)];
      running, effects := next.running, next.effects;
    }
  }

  /** What `execute` does: an unencodable value fails only where it has to be stored. */
  datatype Outcome = Returned(body: Body, status: int) | Errored | Unencodable(body: Body, status: int)

  /** A replay repeats the status of the first answer exactly for statuses that are not negative. */
  lemma ReplayRepeatsStatus(status: int)
    ensures ReplayStatus(Some(StatusOf(status))) == StatusOf(status) <==> status >= 0
  {
  }

  /** The next call with this key and fingerprint is answered from the stored response. */
  ghost predicate Replays(records: map<Key, Record>, now: Time, key: Key, fp: Fingerprint, first: Response) {
    key in records && Answer(records, now, key, fp) == Replayed(records[key])
    && records[key].responseStatus == Some(first.status)
    && records[key].body == if first.body == "" then "{}" else first.body
  }

  /** ExecuteIdempotent with a key: `outcome` is what `execute` does if it is called, and
      `markFails` says whether the marking statement fails. */
  method ExecuteIdempotent(repo: IdempotencyRepo, key: Option<Key>, requireKey: bool, hasScope: bool, fp: Fingerprint, lock: nat,
                           outcome: Outcome, markFails: bool, ghost p: Pid)
    returns (r: Result<Response, ExecError>, executed: bool, ghost trace: seq<Event>)
    requires p !in repo.running
    modifies repo`records, repo`running, repo`wins, repo`effects
    ensures repo.View() == Exec(old(repo.View()), trace) && repo.running == old(repo.running)
    ensures key.None? ==> repo.View() == old(repo.View()) && (executed <==> !requireKey)
    ensures key.Some? && hasScope ==> (executed <==> Answer(old(repo.records), repo.clock, key.value, fp).Started?)
    ensures key.Some? && hasScope && !executed ==> r == Refusal(Answer(old(repo.records), repo.clock, key.value, fp))
    ensures key.Some? && r.Ok? && executed ==> outcome.Returned? && r.value == Response(outcome.body, StatusOf(outcome.status), false)
    ensures key.Some? && r.Ok? && executed ==> Replays(repo.records, repo.clock, key.value, fp, r.value)
    ensures key.Some? && !hasScope ==> !executed && r == Err(StoreUnavailable)
    ensures repo.effects == old(repo.effects) + if key.Some? && executed && !outcome.Errored? then [key.value] else []
    ensures |repo.wins| == |old(repo.wins)| + if key.Some? && r.Ok? && executed then 1 else 0
  {
    ghost var start := repo.View();
    trace, executed := [], false;
    if key.None? {
      if requireKey {
        return Err(KeyRequired), false, [];
      }
      executed := true;
      r := if outcome.Errored? then Err(ExecuteFailed)
           else Ok(Response(outcome.body, StatusOf(outcome.status), false));
      return;
    }
    if !hasScope {
      return Err(StoreUnavailable), false, [];
    }
    var claim := repo.Claim(key.value, fp, repo.clock, lock, p);
    trace := [Call(p, key.value, fp, lock)];
    assert trace[..0] == [];
    match claim
    case Replayed(record) =>
      r := Ok(Response(record.body, ReplayStatus(record.responseStatus), true));
    case Conflict =>
      r := Err(KeyConflict);
    case InProgress =>
      r := Err(StillProcessing);
    case Started =>
      executed := true;
      ghost var mid := repo.View();
      assert Exec(start, trace) == mid;
      ghost var step;
      if outcome.Returned? && !markFails {
        step := Succeed(p, StatusOf(outcome.status), outcome.body);
        repo.MarkSucceeded(key.value, StatusOf(outcome.status), outcome.body, p);
        r := Ok(Response(outcome.body, StatusOf(outcome.status), false));
      } else if !outcome.Returned? && !markFails {
        step := Fail(p, !outcome.Errored?);
        repo.MarkFailed(key.value, p, !outcome.Errored?);
        r := Err(ExecuteFailed);
      } else {
        step := Die(p, !outcome.Errored?);
        repo.effects := if outcome.Errored? then repo.effects else repo.effects + [key.value];
        repo.running := repo.running - {p};
        r := Err(if outcome.Returned? then StoreUnavailable else ExecuteFailed);
      }
      trace := trace + [step];
      assert trace[..1] == [Call(p, key.value, fp, lock)];
      assert repo.running == start.running;
  }
}
