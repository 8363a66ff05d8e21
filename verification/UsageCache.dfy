/**
 The read-through cache in front of one user's usage row: how stale an answer can be under any
 interleaving, and that it is exact when operations do not overlap.
 */
module UsageCache {
  import opened Numbers
  import opened Wrappers

  type Time = nat
  type Pid = nat

  const TTL: nat := 30_000_000_000  // nanoseconds

  /** The row as readers see it; a missing row reads as zeros. */
  datatype Usage = Usage(totalBytes: nat, bundleCount: int, snapCount: int)

  const NOTHING: Usage := Usage(0, 0, 0)

  /** `readAt` is history: when the cached value was the row. */
  datatype Entry = Entry(value: Usage, expires: Time, readAt: Time)

  datatype Reader = Missed | Got(value: Usage, at: Time)

  /** The row held `value` from `since` until the next version. */
  datatype Version = Version(value: Usage, since: Time)

  datatype Answer = Answer(value: Usage, at: Time)

  datatype State = State(clock: Time, cache: Option<Entry>, readers: map<Pid, Reader>, writers: set<Pid>,
                         versions: seq<Version>, answers: seq<Answer>)

  datatype Event =
    | Tick(elapsed: nat)
    | Lookup(p: Pid)                // GET: answers on a hit
    | Select(p: Pid)                // SELECT after a miss
    | Fill(p: Pid, ok: bool)        // SET, and the answer
    | Write(p: Pid, value: Usage)   // any statement on the row that is followed by DEL
    | Invalidate(p: Pid, ok: bool)  // DEL
    | Bulk(value: Usage)            // RecalculateAllUsage: the row changes, no DEL follows
    | Die(p: Pid)

  ghost function Row(s: State): Usage
    requires s.versions != []
  {
    s.versions[|s.versions| - 1].value
  }

  ghost predicate Hit(s: State) { s.cache.Some? && s.clock < s.cache.value.expires }

  ghost predicate Enabled(s: State, e: Event) {
    match e
    case Lookup(p) => p !in s.readers
    case Select(p) => p in s.readers && s.readers[p].Missed? && s.versions != []
    case Fill(p, _) => p in s.readers && s.readers[p].Got?
    case Write(p, _) => p !in s.writers
    case Invalidate(p, _) => p in s.writers
    case _ => true
  }

  ghost function Apply(s: State, e: Event): State {
    if !Enabled(s, e) then s else
    match e
    case Tick(d) => s.(clock := s.clock + d)
    case Lookup(p) =>
      if Hit(s) then s.(answers := s.answers + [Answer(s.cache.value.value, s.clock)])
      else s.(readers := s.readers[p := Missed])
    case Select(p) => s.(readers := s.readers[p := Got(Row(s), s.clock)])
    case Fill(p, ok) =>
      var r := s.readers[p];
      s.(cache := if ok then Some(Entry(r.value, s.clock + TTL, r.at)) else s.cache,
         readers := s.readers - {p}, answers := s.answers + [Answer(r.value, s.clock)])
    case Write(p, v) => s.(versions := s.versions + [Version(v, s.clock)], writers := s.writers + {p})
    case Invalidate(p, ok) => s.(cache := if ok then None else s.cache, writers := s.writers - {p})
    case Bulk(v) => s.(versions := s.versions + [Version(v, s.clock)])
    case Die(p) => s.(readers := s.readers - {p}, writers := s.writers - {p})
  }

  ghost function Exec(s: State, es: seq<Event>): State
    decreases |es|
  {
    if es == [] then s else Apply(Exec(s, es[..|es| - 1]), es[|es| - 1])
  }

  lemma ExecStep(s: State, es: seq<Event>, k: nat)
    requires k < |es|
    ensures Exec(s, es[..k + 1]) == Apply(Exec(s, es[..k]), es[k])
  {
    assert es[..k + 1][..k] == es[..k];
  }

  /** `v` was the row's value at time `at`. */
  ghost predicate WasRow(vs: seq<Version>, v: Usage, at: Time) {
    exists k :: 0 <= k < |vs| && vs[k].value == v && vs[k].since <= at && (k + 1 < |vs| ==> at <= vs[k + 1].since)
  }

  /** No reader takes longer than `delay` from its SELECT to its SET. */
  ghost predicate Swift(s: State, e: Event, delay: nat) {
    e.Fill? && e.p in s.readers && s.readers[e.p].Got? ==> s.clock - s.readers[e.p].at <= delay
  }

  ghost predicate AllSwift(s: State, es: seq<Event>, delay: nat) {
    forall k :: 0 <= k < |es| ==> Swift(Exec(s, es[..k]), es[k], delay)
  }

  ghost predicate Fresh(vs: seq<Version>, a: Answer, delay: nat) {
    exists at: Time :: at <= a.at <= at + TTL + delay && WasRow(vs, a.value, at)
  }

  ghost predicate Traced(s: State, delay: nat) {
    && s.versions != []
    && (forall i :: 0 <= i < |s.versions| ==> s.versions[i].since <= s.clock)
    && (s.cache.Some? ==>
          var e := s.cache.value;
          e.readAt <= s.clock && e.expires <= e.readAt + delay + TTL && WasRow(s.versions, e.value, e.readAt))
    && (forall p :: p in s.readers && s.readers[p].Got? ==>
          s.readers[p].at <= s.clock && WasRow(s.versions, s.readers[p].value, s.readers[p].at))
    && (forall i :: 0 <= i < |s.answers| ==> s.answers[i].at <= s.clock && Fresh(s.versions, s.answers[i], delay))
  }

  lemma Longer(vs: seq<Version>, w: Version, v: Usage, at: Time)
    requires WasRow(vs, v, at) && at <= w.since
    ensures WasRow(vs + [w], v, at)
  {
    var k :| 0 <= k < |vs| && vs[k].value == v && vs[k].since <= at && (k + 1 < |vs| ==> at <= vs[k + 1].since);
    assert (vs + [w])[k] == vs[k];
    assert k + 1 < |vs| ==> (vs + [w])[k + 1] == vs[k + 1];
    assert k + 1 == |vs| ==> (vs + [w])[k + 1] == w;
  }

  lemma VersionAdded(s: State, v: Usage, delay: nat)
    requires Traced(s, delay)
    ensures Traced(s.(versions := s.versions + [Version(v, s.clock)]), delay)
  {
    var w := Version(v, s.clock);
    if s.cache.Some? { Longer(s.versions, w, s.cache.value.value, s.cache.value.readAt); }
    forall p | p in s.readers && s.readers[p].Got? ensures WasRow(s.versions + [w], s.readers[p].value, s.readers[p].at) {
      Longer(s.versions, w, s.readers[p].value, s.readers[p].at);
    }
    forall i | 0 <= i < |s.answers| ensures Fresh(s.versions + [w], s.answers[i], delay) {
      var a := s.answers[i];
      assert Fresh(s.versions, a, delay);
      var at: Time :| at <= a.at <= at + TTL + delay && WasRow(s.versions, a.value, at);
      Longer(s.versions, w, a.value, at);
    }
  }

  lemma RowIsNow(s: State, delay: nat)
    requires Traced(s, delay)
    ensures WasRow(s.versions, Row(s), s.clock)
  {
  }

  lemma StepTraced(s: State, e: Event, delay: nat)
    requires Traced(s, delay) && Swift(s, e, delay)
    ensures Traced(Apply(s, e), delay)
  {
    hide WasRow;
    match e
    case Write(_, v) => VersionAdded(s, v, delay);
    case Bulk(v) => VersionAdded(s, v, delay);
    case Select(_) => RowIsNow(s, delay);
    case Lookup(_) =>
      if Enabled(s, e) && Hit(s) {
        var a := Answer(s.cache.value.value, s.clock);
        assert s.cache.value.readAt <= a.at <= s.cache.value.readAt + TTL + delay;
        assert Fresh(s.versions, a, delay);
      }
    case Fill(p, _) =>
      if Enabled(s, e) {
        var a := Answer(s.readers[p].value, s.clock);
        assert s.readers[p].at <= a.at <= s.readers[p].at + TTL + delay;
        assert Fresh(s.versions, a, delay);
      }
    case _ =>
  }

  lemma {:induction false} TracedAt(s: State, es: seq<Event>, k: nat, delay: nat)
    requires Traced(s, delay) && AllSwift(s, es, delay) && k <= |es|
    ensures Traced(Exec(s, es[..k]), delay)
  {
    hide Apply, Traced, Swift;
    if k > 0 {
      TracedAt(s, es, k - 1, delay);
      ExecStep(s, es, k - 1);
      assert Swift(Exec(s, es[..k - 1]), es[k - 1], delay);
      StepTraced(Exec(s, es[..k - 1]), es[k - 1], delay);
    }
  }

  /** Whatever readers, writers and bulk recalculations do, and whatever DEL or SET is lost: an
      answer at time t was the row at some time between t - 30 s - delay and t. */
  lemma AnswersAreBoundedStale(s: State, es: seq<Event>, k: nat, delay: nat, i: nat)
    requires Traced(s, delay) && AllSwift(s, es, delay) && k <= |es| && i < |Exec(s, es[..k]).answers|
    ensures var t := Exec(s, es[..k]); var a := t.answers[i];
            exists at: Time :: at <= a.at <= at + TTL + delay && WasRow(t.versions, a.value, at)
  {
    TracedAt(s, es, k, delay);
    var t := Exec(s, es[..k]);
    assert Fresh(t.versions, t.answers[i], delay);
  }

  ghost function Init(row: Usage): State { State(0, None, map[], {}, [Version(row, 0)], []) }

  lemma InitTraced(row: Usage, delay: nat)
    ensures Traced(Init(row), delay) && Coherent(Init(row))
  {
  }

  /** Invalidation alone does not give exact answers: a writer may finish between a reader's
      SELECT and its SET, and the old row is then served for the whole time to live. */
  lemma InvalidationIsOvertaken(before: Usage, after: Usage)
    requires before != after
    ensures var es := [Lookup(1), Select(1), Write(2, after), Invalidate(2, true), Fill(1, true), Tick(TTL - 1), Lookup(3)];
            var t := Exec(Init(before), es);
            && t.writers == {} && t.versions != [] && Row(t) == after
            && t.answers == [Answer(before, 0), Answer(before, TTL - 1)]
  {
    var es := [Lookup(1), Select(1), Write(2, after), Invalidate(2, true), Fill(1, true), Tick(TTL - 1), Lookup(3)];
    var s := Init(before);
    ExecFour(s, es[..4]);
    assert es[..4] == [Lookup(1), Select(1), Write(2, after), Invalidate(2, true)];
    var m := Exec(s, es[..4]);
    assert m == State(0, None, map[1 := Got(before, 0)], {}, [Version(before, 0), Version(after, 0)], []);
    hide Exec;
    OldRowIsServed(m, before);
    hide Apply;
    ExecStep(s, es, 4);
    ExecStep(s, es, 5);
    ExecStep(s, es, 6);
    assert es[..7] == es;
  }

  lemma OldRowIsServed(s: State, was: Usage)
    requires s.clock == 0 && s.cache.None? && s.readers == map[1 := Got(was, 0)] && s.answers == []
    ensures var t := Apply(Apply(Apply(s, Fill(1, true)), Tick(TTL - 1)), Lookup(3));
            t.writers == s.writers && t.versions == s.versions && t.answers == [Answer(was, 0), Answer(was, TTL - 1)]
  {
  }

  // ---------------------------------------------------------------- exactly when invalidation suffices

  /** An entry is served that is not the row. */
  ghost predicate Stale(s: State)
    requires s.versions != []
  {
    Hit(s) && s.cache.value.value != Row(s)
  }

  /** Whatever is served while no writer is still to invalidate is the row. */
  ghost predicate Coherent(s: State) {
    s.versions != [] && (s.writers == {} ==> !Stale(s))
  }

  /** The ways a stale entry can be left with nobody to invalidate it: a SET of a value that the
      row no longer has, a bulk recalculation that changes what is cached, and a writer whose DEL
      is lost or never comes. */
  ghost predicate Overtaken(s: State, e: Event)
    requires s.versions != []
  {
    match e
    case Fill(p, ok) => ok && p in s.readers && s.readers[p].Got? && s.writers == {} && s.readers[p].value != Row(s)
    case Bulk(v) => s.writers == {} && Hit(s) && s.cache.value.value != v
    case Invalidate(p, ok) => !ok && s.writers == {p} && Stale(s)
    case Die(p) => s.writers == {p} && Stale(s)
    case _ => false
  }

  lemma StepCoherent(s: State, e: Event)
    requires Coherent(s)
    ensures Coherent(Apply(s, e)) <==> !Overtaken(s, e)
  {
    var t := Apply(s, e);
    match e
    case Invalidate(p, ok) => if p in s.writers { assert t.writers == {} <==> s.writers == {p}; }
    case Die(p) => assert t.writers == {} <==> s.writers == {} || s.writers == {p};
    case Write(p, _) => if p !in s.writers { assert p in t.writers; }
    case _ =>
  }

  lemma {:induction false} VersionsStay(s: State, es: seq<Event>, k: nat)
    requires s.versions != [] && k <= |es|
    ensures Exec(s, es[..k]).versions != []
  {
    if k > 0 {
      VersionsStay(s, es, k - 1);
      ExecStep(s, es, k - 1);
    }
  }

  ghost predicate AlwaysCoherent(s: State, es: seq<Event>) {
    forall k :: 0 <= k <= |es| ==> Coherent(Exec(s, es[..k]))
  }

  ghost predicate OvertakenAt(s: State, es: seq<Event>, k: nat)
    requires s.versions != [] && k < |es|
  {
    VersionsStay(s, es, k);
    Overtaken(Exec(s, es[..k]), es[k])
  }

  ghost predicate NeverOvertaken(s: State, es: seq<Event>)
    requires s.versions != []
  {
    forall k :: 0 <= k < |es| ==> !OvertakenAt(s, es, k)
  }

  lemma {:induction false} CoherentAt(s: State, es: seq<Event>, k: nat)
    requires Coherent(s) && NeverOvertaken(s, es) && k <= |es|
    ensures Coherent(Exec(s, es[..k]))
  {
    assert s.versions != [];
    hide Apply, Coherent, Overtaken;
    if k > 0 {
      CoherentAt(s, es, k - 1);
      ExecStep(s, es, k - 1);
      assert !OvertakenAt(s, es, k - 1);
      StepCoherent(Exec(s, es[..k - 1]), es[k - 1]);
    }
  }

  /** Over every interleaving: what is served with no writer pending is always the row exactly if
      no step overtakes the invalidation. */
  lemma {:induction false} CoherentExactlyUnlessOvertaken(s: State, es: seq<Event>)
    requires Coherent(s)
    ensures AlwaysCoherent(s, es) <==> NeverOvertaken(s, es)
  {
    assert s.versions != [];
    hide Apply, Coherent, Overtaken;
    if NeverOvertaken(s, es) {
      forall k | 0 <= k <= |es| ensures Coherent(Exec(s, es[..k])) { CoherentAt(s, es, k); }
    } else if AlwaysCoherent(s, es) {
      var k :| 0 <= k < |es| && OvertakenAt(s, es, k);
      ExecStep(s, es, k);
      assert Coherent(Exec(s, es[..k])) && Coherent(Exec(s, es[..k + 1]));
      StepCoherent(Exec(s, es[..k]), es[k]);
      assert false;
    }
  }

  /** Whoever looks up now, with no writer pending, is answered with the row or goes to read it. */
  ghost predicate NextIsCurrent(s: State)
    requires s.versions != []
  {
    s.writers == {} ==>
      forall p :: Apply(s, Lookup(p)).answers == s.answers || Apply(s, Lookup(p)).answers == s.answers + [Answer(Row(s), s.clock)]
  }

  /** Coherence is what the next caller sees. */
  lemma CoherentIsWhatIsServed(s: State)
    requires s.versions != []
    ensures Coherent(s) <==> NextIsCurrent(s)
  {
    if !Coherent(s) {
      var p := Above(s.readers.Keys);
      var a := Answer(s.cache.value.value, s.clock);
      assert Apply(s, Lookup(p)).answers == s.answers + [a];
      assert (s.answers + [a])[|s.answers|] == a;
      assert (s.answers + [Answer(Row(s), s.clock)])[|s.answers|] == Answer(Row(s), s.clock);
    }
  }

  lemma ExecFour(s: State, es: seq<Event>)
    requires |es| == 4
    ensures Exec(s, es) == Apply(Apply(Apply(Apply(s, es[0]), es[1]), es[2]), es[3])
  {
    hide Apply;
    ExecStep(s, es, 0);
    ExecStep(s, es, 1);
    ExecStep(s, es, 2);
    ExecStep(s, es, 3);
    assert es[..0] == [] && es[..4] == es;
  }

  // ---------------------------------------------------------------- operations that do not overlap

  datatype Cached = Cached(value: Usage, expires: Time)

  /** The repository for one user. Redis calls may fail silently; `down` says that they do. */
  class QuotaRepo {
    var row: Option<Usage>
    var cache: Option<Cached>

    function Current(): Usage
      reads this
    {
      if row.None? then NOTHING else row.value
    }

    /** The cache, as far as it is still served, is the row. */
    ghost predicate Exact(now: Time)
      reads this
    {
      cache.Some? && now < cache.value.expires ==> cache.value.value == Current()
    }

    constructor ()
      ensures row.None? && cache.None?
    {
      row, cache := None, None;
    }

    /** Answers with the row exactly when the cache is exact or Redis is down. */
    method GetUsage(now: Time, down: bool) returns (u: Usage)
      modifies this`cache
      ensures u == Current() <==> old(Exact(now)) || down
      ensures old(Exact(now)) ==> forall t: Time :: t >= now ==> Exact(t)
    {
      if !down && cache.Some? && now < cache.value.expires {
        return cache.value.value;
      }
      u := Current();
      if !down {
        cache := Some(Cached(u, now + TTL));
      }
    }

    /** Any statement on the row followed by the invalidation: exact again unless Redis is down
        and the entry outlives the change. */
    method Write(value: Option<Usage>, now: Time, down: bool)
      modifies this
      ensures row == value
      ensures !down ==> forall t: Time :: Exact(t)
      ensures down ==> cache == old(cache)
    {
      row := value;
      if !down {
        cache := None;
      }
    }

    /** The bulk statement does not invalidate: what was cached is served until it expires. */
    method RecalculateAll(value: Usage, now: Time)
      modifies this`row
      ensures Current() == value && cache == old(cache)
      ensures Exact(now) <==> cache.Some? && now < cache.value.expires ==> cache.value.value == value
      ensures forall t: Time :: cache.Some? && t >= cache.value.expires ==> Exact(t)
    {
      row := Some(value);
    }
  }

  datatype Op = Get | Put(value: Option<Usage>)

  /** Any sequence of operations that do not overlap, with Redis up and no bulk recalculation:
      every answer is the current row. */
  method RunSequentially(repo: QuotaRepo, ops: seq<Op>, times: seq<Time>) returns (answers: seq<Usage>, ghost rows: seq<Usage>)
    requires |times| == |ops| && forall i, j :: 0 <= i < j < |times| ==> times[i] <= times[j]
    requires forall t: Time :: repo.Exact(t)
    modifies repo
    ensures answers == rows && forall t: Time :: (|times| == 0 || t >= times[|times| - 1]) ==> repo.Exact(t)
  {
    answers, rows := [], [];
    var i := 0;
    while i < |ops|
      invariant 0 <= i <= |ops| && answers == rows
      invariant forall t: Time :: (i == 0 || t >= times[i - 1]) ==> repo.Exact(t)
    {
      match ops[i] {
      case Get =>
        var u := repo.GetUsage(times[i], false);
        answers, rows := answers + [u], rows + [repo.Current()];
      case Put(v) =>
        repo.Write(v, times[i], false);
      }
      i := i + 1;
    }
  }
}
