/**
 The notification outbox: claims, deliveries, marks and admin actions. One event is one SQL
 statement or one delivery, so a list of events is any interleaving of workers and admins.
 */
module Outbox {
  import opened Numbers
  import opened Wrappers

  type Id(==, !new)
  type Time = nat  // nanoseconds
  type Pid = nat

  newtype Duration = x: int | -0x8000_0000_0000_0000 <= x < 0x8000_0000_0000_0000  // int64 nanoseconds

  const MINUTE: nat := 60_000_000_000
  const BASE_BACKOFF: Duration := 60_000_000_000
  const MAX_BACKOFF: Duration := 3_600_000_000_000
  const MAX_ATTEMPTS: nat := 5
  const DEFAULT_BATCH: nat := 50
  const MAX_BATCH: nat := 200

  // ---------------------------------------------------------------- backoff

  function Pow2(n: nat): (r: nat)
    ensures r >= 1
  {
    if n == 0 then 1 else 2 * Pow2(n - 1)
  }

  /** min(2^(attempt-1), 60) minutes; one minute for an attempt that is not positive. */
  function RetryDelay(attempt: int): nat {
    MINUTE * if attempt <= 0 then 1 else Min(Pow2(attempt - 1), 60)
  }

  lemma {:induction false} Pow2Grows(m: nat, n: nat)
    requires m <= n
    ensures Pow2(m) <= Pow2(n)
    decreases n
  {
    if m < n { Pow2Grows(m, n - 1); }
  }

  /** The doubling loop stops at the cap before it can overflow 64 bits. */
  method NotificationRetryDelay(attempt: int) returns (delay: Duration)
    ensures delay as int == RetryDelay(attempt)
    ensures BASE_BACKOFF <= delay <= MAX_BACKOFF
  {
    if attempt <= 0 {
      return BASE_BACKOFF;
    }
    delay := BASE_BACKOFF;
    var i := 1;
    while i < attempt
      invariant 1 <= i <= attempt
      invariant delay < MAX_BACKOFF && delay as int == MINUTE * Pow2(i - 1)
    {
      delay := delay * 2;
      if delay >= MAX_BACKOFF {
        Pow2Grows(i, attempt - 1);
        return MAX_BACKOFF;
      }
      i := i + 1;
    }
  }

  /** A later attempt never waits less than an earlier one. */
  lemma BackoffIsMonotone(a: int, b: int)
    requires a <= b
    ensures MINUTE <= RetryDelay(a) <= RetryDelay(b) <= MAX_BACKOFF as int
  {
    if 0 < a { Pow2Grows(a - 1, b - 1); }
  }

  // ---------------------------------------------------------------- the machine

  datatype Status = Pending | Processing | Sent | Failed | Discarded

  datatype Item = Item(status: Status, attempts: nat, nextRetry: Time)

  /** A claimed item as the worker read it. */
  datatype Claim = Claim(id: Id, attempts: nat)

  /** A worker goes through `queue` in order; `tried` is how the delivery of its head ended. */
  datatype Worker = Worker(queue: seq<Claim>, manual: bool, tried: Option<bool>)

  /** `rounds` is history: automatic deliveries since the item was last enqueued or requeued. */
  datatype State = State(clock: Time, items: map<Id, Item>, workers: map<Pid, Worker>, rounds: map<Id, nat>)

  datatype Event =
    | Tick(elapsed: nat)
    | Enqueue(id: Id, due: Time)
    | ClaimBatch(p: Pid, ids: seq<Id>, manual: bool)
    | Deliver(p: Pid, ok: bool)
    | Mark(p: Pid)
    | Stop(p: Pid)  // return, early return or crash
    | Requeue(id: Id)
    | Discard(id: Id)

  ghost predicate Claimable(s: State, id: Id, manual: bool) {
    && id in s.items
    && if manual then s.items[id].status.Failed?
       else s.items[id].status.Pending? && s.items[id].nextRetry <= s.clock
  }

  ghost predicate Distinct(ids: seq<Id>) {
    forall i, j :: 0 <= i < j < |ids| ==> ids[i] != ids[j]
  }

  ghost predicate Working(s: State, p: Pid) {
    p in s.workers && s.workers[p].queue != [] && s.workers[p].queue[0].id in s.items
  }

  ghost predicate Enabled(s: State, e: Event) {
    match e
    case Tick(_) => true
    case Enqueue(id, _) => id !in s.items
    case ClaimBatch(p, ids, manual) =>
      p !in s.workers && Distinct(ids) && forall i :: 0 <= i < |ids| ==> Claimable(s, ids[i], manual)
    case Deliver(p, _) => Working(s, p) && s.workers[p].tried.None?
    case Mark(p) => Working(s, p) && s.workers[p].tried.Some?
    case Stop(p) => p in s.workers
    case Requeue(id) => id in s.items && s.items[id].status.Failed?
    case Discard(id) => id in s.items && s.items[id].status.Failed?
  }

  function Claimed(items: map<Id, Item>, ids: seq<Id>): map<Id, Item> {
    map id | id in items :: if id in ids then items[id].(status := Processing) else items[id]
  }

  function Claims(items: map<Id, Item>, ids: seq<Id>): (cs: seq<Claim>)
    requires forall i :: 0 <= i < |ids| ==> ids[i] in items
    ensures |cs| == |ids|
    ensures forall i :: 0 <= i < |ids| ==> cs[i] == Claim(ids[i], items[ids[i]].attempts)
  {
    seq(|ids|, i requires 0 <= i < |ids| => Claim(ids[i], items[ids[i]].attempts))
  }

  /** The attempt number decides with the count the worker read; the row counts its own. */
  function Marked(it: Item, now: Time, read: nat, ok: bool): Item {
    if ok then it.(status := Sent)
    else if read + 1 >= MAX_ATTEMPTS then it.(status := Failed, attempts := it.attempts + 1)
    else Item(Pending, it.attempts + 1, now + RetryDelay(read + 1))
  }

  function Round(rounds: map<Id, nat>, id: Id): nat { if id in rounds then rounds[id] else 0 }

  ghost function Delivering(s: State, p: Pid, ok: bool): State
    requires Working(s, p)
  {
    var w := s.workers[p];
    s.(workers := s.workers[p := w.(tried := Some(ok))],
       rounds := if w.manual then s.rounds else s.rounds[w.queue[0].id := Round(s.rounds, w.queue[0].id) + 1])
  }

  ghost function Marking(s: State, p: Pid): State
    requires Working(s, p) && s.workers[p].tried.Some?
  {
    var w := s.workers[p];
    var c := w.queue[0];
    s.(items := s.items[c.id := Marked(s.items[c.id], s.clock, c.attempts, w.tried.value)],
       workers := s.workers[p := Worker(w.queue[1..], w.manual, None)])
  }

  ghost function Apply(s: State, e: Event): State {
    if !Enabled(s, e) then s else
    match e
    case Tick(d) => s.(clock := s.clock + d)
    case Enqueue(id, due) => s.(items := s.items[id := Item(Pending, 0, due)], rounds := s.rounds[id := 0])
    case ClaimBatch(p, ids, manual) =>
      s.(items := Claimed(s.items, ids), workers := s.workers[p := Worker(Claims(s.items, ids), manual, None)])
    case Deliver(p, ok) => Delivering(s, p, ok)
    case Mark(p) => Marking(s, p)
    case Stop(p) => s.(workers := s.workers - {p})
    case Requeue(id) => s.(items := s.items[id := Item(Pending, 0, s.clock)], rounds := s.rounds[id := 0])
    case Discard(id) => s.(items := s.items[id := s.items[id].(status := Discarded)])
  }

  ghost function Exec(s: State, es: seq<Event>): State
    decreases |es|
  {
    if es == [] then s else Apply(Exec(s, es[..|es| - 1]), es[|es| - 1])
  }

  lemma ExecStep(s: State, es: seq<Event>, k: nat)
    requires k < |es|
    ensures Exec(s, es[..k + 1]) == Apply(Exec(s, es[..k]), es[k])
  {
    assert es[..k + 1][..k] == es[..k];
  }

  lemma ExecSnoc(s: State, es: seq<Event>, e: Event)
    ensures Exec(s, es + [e]) == Apply(Exec(s, es), e)
  {
  }

  // ---------------------------------------------------------------- invariant

  /** No item is in two claims. */
  ghost predicate Exclusive(s: State) {
    forall p, q, i, j ::
      (p in s.workers && q in s.workers && 0 <= i < |s.workers[p].queue| && 0 <= j < |s.workers[q].queue|
       && s.workers[p].queue[i].id == s.workers[q].queue[j].id) ==> p == q && i == j
  }

  ghost predicate ClaimOk(s: State, w: Worker, i: nat)
    requires i < |w.queue|
  {
    var c := w.queue[i];
    && c.id in s.items && s.items[c.id].status.Processing? && s.items[c.id].attempts == c.attempts
    && (if w.manual then c.attempts >= MAX_ATTEMPTS
        else c.attempts < MAX_ATTEMPTS
             && Round(s.rounds, c.id) == c.attempts + if i == 0 && w.tried.Some? then 1 else 0)
  }

  ghost predicate ClaimsOk(s: State) {
    forall p, i :: p in s.workers && 0 <= i < |s.workers[p].queue| ==> ClaimOk(s, s.workers[p], i)
  }

  ghost predicate ItemOk(it: Item, round: nat) {
    && round <= MAX_ATTEMPTS
    && (it.status.Pending? ==> it.attempts < MAX_ATTEMPTS && round == it.attempts)
    && (it.status.Failed? ==> it.attempts >= MAX_ATTEMPTS)
  }

  ghost predicate ItemsOk(s: State) {
    forall id :: id in s.items ==> ItemOk(s.items[id], Round(s.rounds, id))
  }

  ghost predicate Orderly(s: State) { Exclusive(s) && ClaimsOk(s) && ItemsOk(s) }

  ghost predicate Held(s: State, id: Id) {
    exists p, i :: p in s.workers && 0 <= i < |s.workers[p].queue| && s.workers[p].queue[i].id == id
  }

  lemma ClaimKeepsOrder(s: State, p: Pid, ids: seq<Id>, manual: bool)
    requires Orderly(s) && Enabled(s, ClaimBatch(p, ids, manual))
    ensures Orderly(Apply(s, ClaimBatch(p, ids, manual)))
  {
    var t := Apply(s, ClaimBatch(p, ids, manual));
    assert forall q, i :: q in s.workers && 0 <= i < |s.workers[q].queue| ==>
      ClaimOk(s, s.workers[q], i) && s.workers[q].queue[i].id !in ids;
    forall q, i | q in t.workers && 0 <= i < |t.workers[q].queue|
      ensures ClaimOk(t, t.workers[q], i)
    {
      if q != p {
        assert ClaimOk(s, s.workers[q], i);
      } else {
        assert Claimable(s, ids[i], manual) && ItemOk(s.items[ids[i]], Round(s.rounds, ids[i]));
      }
    }
  }

  lemma DeliverKeepsOrder(s: State, p: Pid, ok: bool)
    requires Orderly(s) && Enabled(s, Deliver(p, ok))
    ensures Orderly(Apply(s, Deliver(p, ok)))
  {
    var t := Apply(s, Deliver(p, ok));
    var c := s.workers[p].queue[0];
    assert ClaimOk(s, s.workers[p], 0);
    forall q, i | q in t.workers && 0 <= i < |t.workers[q].queue|
      ensures ClaimOk(t, t.workers[q], i)
    {
      assert ClaimOk(s, s.workers[q], i);
      assert q != p || i != 0 ==> s.workers[q].queue[i].id != c.id;
    }
  }

  lemma MarkKeepsOrder(s: State, p: Pid)
    requires Orderly(s) && Enabled(s, Mark(p))
    ensures Orderly(Apply(s, Mark(p)))
  {
    var t := Apply(s, Mark(p));
    var w := s.workers[p];
    var c := w.queue[0];
    assert ClaimOk(s, w, 0);
    forall q, i | q in t.workers && 0 <= i < |t.workers[q].queue|
      ensures ClaimOk(t, t.workers[q], i)
    {
      var before := if q == p then i + 1 else i;
      assert t.workers[q].queue[i] == s.workers[q].queue[before];
      assert ClaimOk(s, s.workers[q], before);
      assert s.workers[q].queue[before].id != c.id;
    }
    assert Exclusive(t) by {
      forall q, r, i, j |
        q in t.workers && r in t.workers && 0 <= i < |t.workers[q].queue| && 0 <= j < |t.workers[r].queue| &&
        t.workers[q].queue[i].id == t.workers[r].queue[j].id
        ensures q == r && i == j
      {
        var a, b := if q == p then i + 1 else i, if r == p then j + 1 else j;
        assert s.workers[q].queue[a].id == s.workers[r].queue[b].id;
      }
    }
  }

  /** Steps on an item that no claim holds, and steps on no item at all. */
  lemma OtherStepKeepsOrder(s: State, e: Event)
    requires Orderly(s) && (e.Tick? || e.Enqueue? || e.Stop? || e.Requeue? || e.Discard?)
    ensures Orderly(Apply(s, e))
  {
    var t := Apply(s, e);
    forall q, i | q in t.workers && 0 <= i < |t.workers[q].queue|
      ensures ClaimOk(t, t.workers[q], i)
    {
      assert ClaimOk(s, s.workers[q], i);
    }
  }

  lemma StepOrderly(s: State, e: Event)
    requires Orderly(s)
    ensures Orderly(Apply(s, e))
  {
    hide Orderly;
    if Enabled(s, e) {
      match e
      case ClaimBatch(p, ids, manual) => ClaimKeepsOrder(s, p, ids, manual);
      case Deliver(p, ok) => DeliverKeepsOrder(s, p, ok);
      case Mark(p) => MarkKeepsOrder(s, p);
      case _ => OtherStepKeepsOrder(s, e);
    }
  }

  lemma {:induction false} OrderlyAt(s: State, es: seq<Event>, k: nat)
    requires Orderly(s) && k <= |es|
    ensures Orderly(Exec(s, es[..k]))
  {
    hide Orderly, Apply;
    if k > 0 {
      OrderlyAt(s, es, k - 1);
      ExecStep(s, es, k - 1);
      StepOrderly(Exec(s, es[..k - 1]), es[k - 1]);
    }
  }

  ghost function Init(): State { State(0, map[], map[], map[]) }

  lemma InitOrderly()
    ensures Orderly(Init())
  {
  }

  // ---------------------------------------------------------------- theorems over every interleaving

  /** An item is never in two claims, and only items in processing are claimed. */
  lemma OneClaimant(s: State, es: seq<Event>, k: nat, p: Pid, i: nat, q: Pid, j: nat)
    requires Orderly(s) && k <= |es|
    requires var t := Exec(s, es[..k]);
             && p in t.workers && i < |t.workers[p].queue| && q in t.workers && j < |t.workers[q].queue|
             && t.workers[p].queue[i].id == t.workers[q].queue[j].id
    ensures var t := Exec(s, es[..k]);
            var id := t.workers[p].queue[i].id;
            p == q && i == j && id in t.items && t.items[id].status.Processing?
  {
    OrderlyAt(s, es, k);
    var t := Exec(s, es[..k]);
    assert ClaimOk(t, t.workers[p], i);
  }

  /** Pending items failed at most four times, failed ones at least five, and nothing is
      delivered automatically more than five times between two (re)queues. */
  lemma AttemptBounds(s: State, es: seq<Event>, k: nat, id: Id)
    requires Orderly(s) && k <= |es| && id in Exec(s, es[..k]).items
    ensures var t := Exec(s, es[..k]);
            && (t.items[id].status.Pending? ==> t.items[id].attempts <= 4 && Round(t.rounds, id) == t.items[id].attempts)
            && (t.items[id].status.Failed? ==> t.items[id].attempts >= 5)
            && Round(t.rounds, id) <= 5
  {
    OrderlyAt(s, es, k);
  }

  /** Once nobody may touch an item again, nobody does. */
  ghost predicate Settled(s: State, id: Id) {
    && id in s.items
    && (s.items[id].status.Sent? || s.items[id].status.Discarded? || (s.items[id].status.Processing? && !Held(s, id)))
  }

  /** A step puts a settled item in no queue. */
  lemma QueuesAvoid(s: State, e: Event, id: Id, p: Pid, i: nat)
    requires Orderly(s) && Settled(s, id)
    requires var t := Apply(s, e); p in t.workers && i < |t.workers[p].queue|
    ensures Apply(s, e).workers[p].queue[i].id != id
  {
    var t := Apply(s, e);
    if e.ClaimBatch? && Enabled(s, e) && p == e.p {
      assert Claimable(s, e.ids[i], e.manual);
    } else {
      var before := if e.Mark? && Enabled(s, e) && p == e.p then i + 1 else i;
      assert p in s.workers && t.workers[p].queue[i] == s.workers[p].queue[before];
      assert ClaimOk(s, s.workers[p], before);
    }
  }

  lemma StepSettled(s: State, e: Event, id: Id)
    requires Orderly(s) && Settled(s, id)
    ensures var t := Apply(s, e); Settled(t, id) && t.items[id] == s.items[id]
  {
    var t := Apply(s, e);
    forall p, i | p in t.workers && 0 <= i < |t.workers[p].queue| ensures t.workers[p].queue[i].id != id {
      QueuesAvoid(s, e, id, p, i);
    }
    ItemStays(s, e, id);
  }

  lemma ItemStays(s: State, e: Event, id: Id)
    requires Orderly(s) && Settled(s, id)
    ensures var t := Apply(s, e); id in t.items && t.items[id] == s.items[id]
  {
    if e.Mark? && Enabled(s, e) {
      assert ClaimOk(s, s.workers[e.p], 0);
    }
  }

  /** Sent and discarded are final. So is `processing` once the claimant is gone: no statement
      takes such an item up again, whatever workers and admins do. */
  lemma {:induction false} SettledForever(s: State, es: seq<Event>, i: nat, j: nat, id: Id)
    requires Orderly(s) && i <= j <= |es| && Settled(Exec(s, es[..i]), id)
    ensures Settled(Exec(s, es[..j]), id) && Exec(s, es[..j]).items[id] == Exec(s, es[..i]).items[id]
    decreases j
  {
    hide Orderly, Apply, Held;
    if i < j {
      SettledForever(s, es, i, j - 1, id);
      OrderlyAt(s, es, j - 1);
      ExecStep(s, es, j - 1);
      StepSettled(Exec(s, es[..j - 1]), es[j - 1], id);
    }
  }

  // ---------------------------------------------------------------- the repository

  /** The repository falls back on its preset for a limit out of range, above as below. */
  function NormalizeLimit(limit: int): (n: nat)
    ensures 0 < n <= MAX_BATCH
  {
    if limit <= 0 || limit > MAX_BATCH then DEFAULT_BATCH else limit
  }

  /** The service clamps the limit of an admin. */
  function AdminLimit(limit: int): (n: nat)
    ensures 0 < n <= MAX_BATCH
  {
    if limit <= 0 then DEFAULT_BATCH else if limit > MAX_BATCH then MAX_BATCH else limit
  }

  /** The first `limit` claimable items, the ones due earliest first. */
  ghost predicate DuePage(s: State, limit: nat, ids: seq<Id>) {
    && Distinct(ids) && |ids| <= limit
    && (forall i :: 0 <= i < |ids| ==> Claimable(s, ids[i], false))
    && (forall i, j :: 0 <= i < j < |ids| ==> s.items[ids[i]].nextRetry <= s.items[ids[j]].nextRetry)
    && (forall id :: id in s.items && Claimable(s, id, false) && id !in ids ==>
          |ids| == limit && forall i :: 0 <= i < |ids| ==> s.items[ids[i]].nextRetry <= s.items[id].nextRetry)
  }

  ghost predicate FailedPage(s: State, limit: nat, ids: seq<Id>) {
    && Distinct(ids) && |ids| <= limit
    && (forall i :: 0 <= i < |ids| ==> Claimable(s, ids[i], true))
    && (forall id :: id in s.items && Claimable(s, id, true) && id !in ids ==> |ids| == limit)
  }

  ghost predicate IsDueBatch(s: State, limit: nat, batch: seq<Claim>) {
    exists ids :: DuePage(s, limit, ids) && batch == Claims(s.items, ids)
  }

  ghost predicate IsFailedBatch(s: State, limit: nat, batch: seq<Claim>) {
    exists ids :: FailedPage(s, limit, ids) && batch == Claims(s.items, ids)
  }

  class OutboxRepo {
    var clock: Time
    var items: map<Id, Item>
    ghost var workers: map<Pid, Worker>
    ghost var rounds: map<Id, nat>

    ghost function View(): State
      reads this
    {
      State(clock, items, workers, rounds)
    }

    /** `ORDER BY next_retry_at LIMIT n` over the due items. */
    method SelectDue(max: nat) returns (page: seq<Id>)
      ensures DuePage(View(), max, page)
    {
      page := [];
      var rest := set id | id in items && items[id].status.Pending? && items[id].nextRetry <= clock;
      while rest != {} && |page| < max
        invariant Distinct(page) && |page| <= max
        invariant forall id :: id in rest <==> id in items && Claimable(View(), id, false) && id !in page
        invariant forall i :: 0 <= i < |page| ==> page[i] in items && Claimable(View(), page[i], false)
        invariant forall i, j :: 0 <= i < j < |page| ==> items[page[i]].nextRetry <= items[page[j]].nextRetry
        invariant forall i, id :: 0 <= i < |page| && id in rest ==> items[page[i]].nextRetry <= items[id].nextRetry
        decreases rest
      {
        var id := Earliest(rest);
        page := page + [id];
        rest := rest - {id};
      }
    }

    method ClaimDue(limit: int, ghost p: Pid) returns (batch: seq<Claim>, ghost ids: seq<Id>)
      requires p !in workers
      modifies this`items, this`workers
      ensures DuePage(old(View()), NormalizeLimit(limit), ids)
      ensures View() == Apply(old(View()), ClaimBatch(p, ids, false))
      ensures batch == Claims(old(items), ids) && workers == old(workers)[p := Worker(batch, false, None)]
    {
      var page := SelectDue(NormalizeLimit(limit));
      assert Enabled(View(), ClaimBatch(p, page, false));
      ids := page;
      batch := Claims(items, page);
      items := Claimed(items, page);
      workers := workers[p := Worker(batch, false, None)];
    }

    method Earliest(ids: set<Id>) returns (first: Id)
      requires ids != {} && ids <= items.Keys
      ensures first in ids && forall id :: id in ids ==> items[first].nextRetry <= items[id].nextRetry
    {
      first :| first in ids;
      var rest := ids - {first};
      while rest != {}
        invariant rest <= ids && first in ids
        invariant forall id :: id in ids - rest ==> items[first].nextRetry <= items[id].nextRetry
        decreases rest
      {
        var id :| id in rest;
        if items[id].nextRetry < items[first].nextRetry { first := id; }
        rest := rest - {id};
      }
    }

    method ClaimFailed(limit: int, ghost p: Pid) returns (batch: seq<Claim>, ghost ids: seq<Id>)
      requires p !in workers
      modifies this`items, this`workers
      ensures FailedPage(old(View()), NormalizeLimit(limit), ids)
      ensures View() == Apply(old(View()), ClaimBatch(p, ids, true))
      ensures batch == Claims(old(items), ids) && workers == old(workers)[p := Worker(batch, true, None)]
    {
      var max := NormalizeLimit(limit);
      var page: seq<Id> := [];
      var rest := set id | id in items && items[id].status.Failed?;
      while rest != {} && |page| < max
        invariant Distinct(page) && |page| <= max
        invariant forall id :: id in rest <==> id in items && Claimable(View(), id, true) && id !in page
        invariant forall i :: 0 <= i < |page| ==> Claimable(View(), page[i], true)
        decreases rest
      {
        var id :| id in rest;
        page := page + [id];
        rest := rest - {id};
      }
      ids := page;
      batch := Claims(items, page);
      items := Claimed(items, page);
      workers := workers[p := Worker(batch, true, None)];
    }

    method MarkSent(id: Id)
      requires id in items
      modifies this`items
      ensures items == old(items)[id := old(items)[id].(status := Sent)]
    {
      items := items[id := items[id].(status := Sent)];
    }

    method MarkRetry(id: Id, nextRetry: Time)
      requires id in items
      modifies this`items
      ensures items == old(items)[id := Item(Pending, old(items)[id].attempts + 1, nextRetry)]
    {
      items := items[id := Item(Pending, items[id].attempts + 1, nextRetry)];
    }

    method MarkFailed(id: Id)
      requires id in items
      modifies this`items
      ensures items == old(items)[id := old(items)[id].(status := Failed, attempts := old(items)[id].attempts + 1)]
    {
      items := items[id := items[id].(status := Failed, attempts := items[id].attempts + 1)];
    }

    method RequeueFailed(id: Id) returns (updated: bool)
      modifies this`items, this`rounds
      ensures View() == Apply(old(View()), Requeue(id))
      ensures updated <==> id in old(items) && old(items)[id].status.Failed?
    {
      updated := id in items && items[id].status == Failed;
      if updated {
        items := items[id := Item(Pending, 0, clock)];
        rounds := rounds[id := 0];
      }
    }

    method MarkDiscarded(id: Id) returns (updated: bool)
      modifies this`items
      ensures View() == Apply(old(View()), Discard(id))
      ensures updated <==> id in old(items) && old(items)[id].status.Failed?
    {
      updated := id in items && items[id].status == Failed;
      if updated {
        items := items[id := items[id].(status := Discarded)];
      }
    }
  }

  // ---------------------------------------------------------------- the service

  /** What meets the worker at one item: a cancelled context, the delivery, the marking statement. */
  datatype Luck = Luck(cancelled: bool, elapsed: nat, delivered: bool, markFails: bool)

  datatype Tally = Tally(claimed: nat, sent: nat, retried: nat, failed: nat)

  datatype Ending = Sending | Retrying | Failing

  function EndingOf(read: nat, delivered: bool): Ending {
    if delivered then Sending else if read + 1 >= MAX_ATTEMPTS then Failing else Retrying
  }

  function Count(t: Tally, e: Ending): Tally {
    match e
    case Sending => t.(sent := t.sent + 1)
    case Retrying => t.(retried := t.retried + 1)
    case Failing => t.(failed := t.failed + 1)
  }

  /** What the marking of claim `c` at some time from `start` to `end` leaves of the row `before`. */
  ghost predicate MarkedAs(before: Item, after: Item, c: Claim, delivered: bool, start: Time, end: Time) {
    match EndingOf(c.attempts, delivered)
    case Sending => after.status.Sent? && after.attempts == before.attempts
    case Retrying =>
      && after.status.Pending? && after.attempts == before.attempts + 1
      && start + RetryDelay(c.attempts + 1) <= after.nextRetry <= end + RetryDelay(c.attempts + 1)
    case Failing => after.status.Failed? && after.attempts == before.attempts + 1
  }

  lemma HandleSteps(s: State, t: State, p: Pid, elapsed: nat, ok: bool)
    requires Working(s, p) && s.workers[p].tried.None?
    requires t == Apply(Apply(Apply(s, Tick(elapsed)), Deliver(p, ok)), Mark(p))
    ensures var w := s.workers[p]; var c := w.queue[0];
            && t.clock == s.clock + elapsed
            && t.items == s.items[c.id := Marked(s.items[c.id], t.clock, c.attempts, ok)]
            && t.workers == s.workers[p := Worker(w.queue[1..], w.manual, None)]
            && t.rounds == if w.manual then s.rounds else s.rounds[c.id := Round(s.rounds, c.id) + 1]
  {
  }

  lemma ExecThree(s: State, a: Event, b: Event, c: Event)
    ensures Exec(s, [a]) == Apply(s, a)
    ensures Exec(s, [a, b]) == Apply(Apply(s, a), b)
    ensures Exec(s, [a, b, c]) == Apply(Apply(Apply(s, a), b), c)
  {
    hide Apply;
    ExecSnoc(s, [], a);
    assert [] + [a] == [a];
    ExecSnoc(s, [a], b);
    assert [a] + [b] == [a, b];
    ExecSnoc(s, [a, b], c);
    assert [a, b] + [c] == [a, b, c];
  }

  function TallyOf(batch: seq<Claim>, luck: nat -> Luck, done: nat): (t: Tally)
    requires done <= |batch|
    ensures t.claimed == |batch| && t.sent + t.retried + t.failed == done
    ensures (forall k :: 0 <= k < done ==> batch[k].attempts + 1 >= MAX_ATTEMPTS) ==> t.retried == 0
  {
    if done == 0 then Tally(|batch|, 0, 0, 0)
    else Count(TallyOf(batch, luck, done - 1), EndingOf(batch[done - 1].attempts, luck(done - 1).delivered))
  }

  /** The first `done` claims are marked as their deliveries ended, the others still processing,
      and no other item is touched. */
  ghost predicate Progress(before: map<Id, Item>, after: map<Id, Item>, batch: seq<Claim>, luck: nat -> Luck, done: nat,
                           start: Time, end: Time) {
    && before.Keys == after.Keys
    && (forall k :: 0 <= k < |batch| ==> batch[k].id in before)
    && (forall k :: 0 <= k < done && k < |batch| ==>
          MarkedAs(before[batch[k].id], after[batch[k].id], batch[k], luck(k).delivered, start, end))
    && (forall k :: done <= k < |batch| ==> after[batch[k].id] == before[batch[k].id].(status := Processing))
    && (forall id :: id in before && (forall k :: 0 <= k < |batch| ==> batch[k].id != id) ==> after[id] == before[id])
  }

  /** Deliver one claimed item and mark it. */
  method HandleClaim(repo: OutboxRepo, c: Claim, luck: Luck, ghost p: Pid)
    returns (ok: bool, ending: Ending, ghost trace: seq<Event>)
    requires p in repo.workers && repo.workers[p].queue != [] && repo.workers[p].queue[0] == c
    requires repo.workers[p].tried.None? && c.id in repo.items
    modifies repo
    ensures repo.View() == Exec(old(repo.View()), trace)
    ensures ok <==> !luck.cancelled && !luck.markFails
    ensures repo.clock == old(repo.clock) + if luck.cancelled then 0 else luck.elapsed
    ensures ok ==> ending == EndingOf(c.attempts, luck.delivered)
    ensures !ok ==> repo.items == old(repo.items)
    ensures ok ==> repo.items == old(repo.items)[c.id := Marked(old(repo.items)[c.id], repo.clock, c.attempts, luck.delivered)]
    ensures p in repo.workers && repo.workers == old(repo.workers)[p := repo.workers[p]]
    ensures ok ==> repo.workers[p] == Worker(old(repo.workers)[p].queue[1..], old(repo.workers)[p].manual, None)
  {
    ghost var s := repo.View();
    ending := EndingOf(c.attempts, luck.delivered);
    if luck.cancelled {
      return false, ending, [];
    }
    ExecThree(s, Tick(luck.elapsed), Deliver(p, luck.delivered), Mark(p));
    ghost var tried := Apply(Apply(s, Tick(luck.elapsed)), Deliver(p, luck.delivered));
    repo.clock := repo.clock + luck.elapsed;
    repo.workers, repo.rounds := tried.workers, tried.rounds;
    if luck.markFails {
      return false, ending, [Tick(luck.elapsed), Deliver(p, luck.delivered)];
    }
    HandleSteps(s, Apply(tried, Mark(p)), p, luck.elapsed, luck.delivered);
    trace := [Tick(luck.elapsed), Deliver(p, luck.delivered), Mark(p)];
    if luck.delivered {
      repo.MarkSent(c.id);
    } else {
      var nextAttempt := c.attempts + 1;
      if nextAttempt >= MAX_ATTEMPTS {
        repo.MarkFailed(c.id);
      } else {
        var delay := NotificationRetryDelay(nextAttempt);
        repo.MarkRetry(c.id, repo.clock + delay as int);
      }
    }
    repo.workers := Apply(tried, Mark(p)).workers;
    ok := true;
  }

  lemma {:induction false} ExecConcat(s: State, a: seq<Event>, b: seq<Event>)
    ensures Exec(s, a + b) == Exec(Exec(s, a), b)
    decreases |b|
  {
    if b == [] {
      assert a + b == a;
    } else {
      var n := |b| - 1;
      assert (a + b)[..|a + b| - 1] == a + b[..n];
      ExecConcat(s, a, b[..n]);
    }
  }

  lemma ProgressStep(before: map<Id, Item>, mid: map<Id, Item>, after: map<Id, Item>, batch: seq<Claim>, luck: nat -> Luck,
                     done: nat, start: Time, was: Time, now: Time)
    requires Progress(before, mid, batch, luck, done, start, was) && done < |batch| && start <= was <= now
    requires forall i, j :: 0 <= i < j < |batch| ==> batch[i].id != batch[j].id
    requires var c := batch[done]; c.id in mid && after == mid[c.id := Marked(mid[c.id], now, c.attempts, luck(done).delivered)]
    ensures Progress(before, after, batch, luck, done + 1, start, now)
  {
  }

  lemma ProgressLater(before: map<Id, Item>, mid: map<Id, Item>, batch: seq<Claim>, luck: nat -> Luck, i: nat,
                      start: Time, was: Time, now: Time)
    requires Progress(before, mid, batch, luck, i, start, was) && was <= now
    ensures Progress(before, mid, batch, luck, i, start, now)
  {
  }

  lemma ProgressHas(before: map<Id, Item>, mid: map<Id, Item>, batch: seq<Claim>, luck: nat -> Luck, i: nat, start: Time, end: Time)
    requires Progress(before, mid, batch, luck, i, start, end) && i < |batch|
    ensures batch[i].id in mid
  {
  }

  lemma ExecEmpty(s: State)
    ensures Exec(s, []) == s
  {
  }

  lemma StopStep(s: State, p: Pid)
    requires p in s.workers
    ensures Apply(s, Stop(p)) == s.(workers := s.workers - {p})
  {
  }

  lemma TallyStep(batch: seq<Claim>, luck: nat -> Luck, i: nat)
    requires i <= |batch|
    ensures TallyOf(batch, luck, 0) == Tally(|batch|, 0, 0, 0)
    ensures i < |batch| ==> TallyOf(batch, luck, i + 1) == Count(TallyOf(batch, luck, i), EndingOf(batch[i].attempts, luck(i).delivered))
  {
  }

  /** Work through a claimed batch in order; the first error ends it. */
  method HandleBatch(repo: OutboxRepo, batch: seq<Claim>, luck: nat -> Luck, manual: bool, ghost p: Pid, ghost before: map<Id, Item>)
    returns (ok: bool, tally: Tally, ghost done: nat, ghost trace: seq<Event>)
    requires p in repo.workers && repo.workers[p] == Worker(batch, manual, None)
    requires Progress(before, repo.items, batch, luck, 0, repo.clock, repo.clock)
    requires forall i, j :: 0 <= i < j < |batch| ==> batch[i].id != batch[j].id
    modifies repo
    ensures repo.View() == Exec(old(repo.View()), trace) && repo.workers == old(repo.workers) - {p}
    ensures done <= |batch| && (ok <==> done == |batch|) && tally == TallyOf(batch, luck, done)
    ensures repo.clock >= old(repo.clock) && Progress(before, repo.items, batch, luck, done, old(repo.clock), repo.clock)
  {
    hide Apply, Exec, Progress, Marked, MarkedAs, EndingOf, TallyOf, Count;
    ghost var start := repo.View();
    var i := 0;
    tally, trace := Tally(|batch|, 0, 0, 0), [];
    ok := true;
    ExecEmpty(start);
    TallyStep(batch, luck, 0);
    while i < |batch| && ok
      invariant 0 <= i <= |batch|
      invariant tally == TallyOf(batch, luck, i)
      invariant repo.View() == Exec(start, trace)
      invariant p in repo.workers && repo.workers == old(repo.workers)[p := repo.workers[p]]
      invariant ok ==> repo.workers[p] == Worker(batch[i..], manual, None)
      invariant ok || i < |batch|
      invariant start.clock <= repo.clock && Progress(before, repo.items, batch, luck, i, start.clock, repo.clock)
      decreases |batch| - i, ok
    {
      ghost var mid := repo.View();
      ProgressHas(before, mid.items, batch, luck, i, start.clock, repo.clock);
      assert batch[i..][0] == batch[i] && batch[i..][1..] == batch[i + 1..];
      var ending;
      ghost var steps;
      ok, ending, steps := HandleClaim(repo, batch[i], luck(i), p);
      ExecConcat(start, trace, steps);
      trace := trace + steps;
      if !ok {
        ProgressLater(before, mid.items, batch, luck, i, start.clock, mid.clock, repo.clock);
      } else {
        ProgressStep(before, mid.items, repo.items, batch, luck, i, start.clock, mid.clock, repo.clock);
        TallyStep(batch, luck, i);
        tally := Count(tally, ending);
        i := i + 1;
      }
    }
    ExecSnoc(start, trace, Stop(p));
    StopStep(repo.View(), p);
    repo.workers := repo.workers - {p};
    trace := trace + [Stop(p)];
    done := i;
  }

  /** One run of the worker. On a normal return every claimed item is sent, retried or failed;
      on an early return the missing ones are still in processing. */
  method ProcessOutbox(repo: OutboxRepo, limit: int, luck: nat -> Luck, ghost p: Pid)
    returns (ok: bool, tally: Tally, ghost batch: seq<Claim>, ghost done: nat, ghost trace: seq<Event>)
    requires p !in repo.workers
    modifies repo
    ensures repo.View() == Exec(old(repo.View()), trace) && repo.workers == old(repo.workers)
    ensures IsDueBatch(old(repo.View()), NormalizeLimit(limit), batch)
    ensures done <= |batch| && (ok <==> done == |batch|) && tally == TallyOf(batch, luck, done)
    ensures tally.claimed - (tally.sent + tally.retried + tally.failed) == |batch| - done
    ensures repo.clock >= old(repo.clock) && Progress(old(repo.items), repo.items, batch, luck, done, old(repo.clock), repo.clock)
  {
    hide Exec;
    var cs, ids := repo.ClaimDue(if limit <= 0 then DEFAULT_BATCH else limit, p);
    ExecThree(old(repo.View()), ClaimBatch(p, ids, false), Stop(p), Stop(p));
    ghost var mid := repo.View();
    ghost var steps;
    ok, tally, done, steps := HandleBatch(repo, cs, luck, false, p, old(repo.items));
    batch := cs;
    trace := [ClaimBatch(p, ids, false)] + steps;
    ExecConcat(old(repo.View()), [ClaimBatch(p, ids, false)], steps);
    assert repo.workers == old(repo.workers);
  }

  lemma FailedPageFacts(s: State, limit: nat, ids: seq<Id>)
    requires Orderly(s) && FailedPage(s, limit, ids) && limit > 0
    ensures forall i :: 0 <= i < |ids| ==> ids[i] in s.items && s.items[ids[i]].attempts >= MAX_ATTEMPTS
    ensures |ids| == 0 <==> forall id :: id in s.items ==> !s.items[id].status.Failed?
  {
    assert forall i :: 0 <= i < |ids| ==> Claimable(s, ids[i], true) && ItemOk(s.items[ids[i]], Round(s.rounds, ids[i]));
    assert |ids| > 0 ==> Claimable(s, ids[0], true);
    assert forall id :: id in s.items ==> s.items[id].status.Failed? == Claimable(s, id, true);
  }

  /** A claim opens a batch of which nothing is done yet. */
  lemma BatchOpens(s: State, p: Pid, ids: seq<Id>, manual: bool)
    requires Enabled(s, ClaimBatch(p, ids, manual))
    ensures var t := Apply(s, ClaimBatch(p, ids, manual));
            forall luck: nat -> Luck, now: Time :: Progress(s.items, t.items, Claims(s.items, ids), luck, 0, now, now)
  {
  }

  datatype Retried = Retried(retried: nat, sent: nat, failed: nat, scheduledRetry: nat, skipped: nat)

  /** The admin retry of failed items: in any state the machine can reach it never schedules
      another retry, so a normal return sent or failed all it retried. */
  method RetryFailures(repo: OutboxRepo, limit: int, luck: nat -> Luck, ghost p: Pid)
    returns (ok: bool, result: Retried, ghost batch: seq<Claim>, ghost done: nat, ghost trace: seq<Event>)
    requires p !in repo.workers && Orderly(repo.View())
    modifies repo
    ensures repo.View() == Exec(old(repo.View()), trace) && repo.workers == old(repo.workers)
    ensures IsFailedBatch(old(repo.View()), AdminLimit(limit), batch)
    ensures done <= |batch| && (ok <==> done == |batch|)
    ensures repo.clock >= old(repo.clock) && Progress(old(repo.items), repo.items, batch, luck, done, old(repo.clock), repo.clock)
    ensures result.scheduledRetry == 0 && result.retried == done == result.sent + result.failed
    ensures result.skipped == 1 <==> (forall id :: id in old(repo.items) ==> !old(repo.items)[id].status.Failed?)
  {
    hide Exec, Apply, Orderly, Progress, FailedPage;
    var cs, ids := repo.ClaimFailed(AdminLimit(limit), p);
    ExecThree(old(repo.View()), ClaimBatch(p, ids, true), Stop(p), Stop(p));
    ghost var was := old(repo.View());
    FailedPageFacts(was, AdminLimit(limit), ids);
    BatchOpens(was, p, ids, true);
    var tally;
    ghost var steps;
    ok, tally, done, steps := HandleBatch(repo, cs, luck, true, p, was.items);
    batch := cs;
    trace := [ClaimBatch(p, ids, true)] + steps;
    ExecConcat(was, [ClaimBatch(p, ids, true)], steps);
    assert repo.workers == old(repo.workers);
    result := Retried(tally.sent + tally.failed + tally.retried, tally.sent, tally.failed, tally.retried, if |cs| == 0 then 1 else 0);
  }

  // ---------------------------------------------------------------- exactly which items are settled

  /** A worker that goes on works through its queue up to the item. */
  lemma {:induction false} WorkThrough(s: State, p: Pid, i: nat, id: Id) returns (es: seq<Event>)
    requires Orderly(s) && p in s.workers && i < |s.workers[p].queue| && s.workers[p].queue[i].id == id
    ensures id in Exec(s, es).items && !Exec(s, es).items[id].status.Processing?
    decreases i
  {
    var tried := HeadTried(s, p);
    var t := Exec(s, tried);
    assert ClaimOk(t, t.workers[p], 0);
    var next := Apply(t, Mark(p));
    ExecSnoc(s, tried, Mark(p));
    es := tried + [Mark(p)];
    if i > 0 {
      StepOrderly(t, Mark(p));
      assert next.workers[p].queue[i - 1].id == id;
      var rest := WorkThrough(next, p, i - 1, id);
      ExecConcat(s, es, rest);
      es := es + rest;
    }
  }

  lemma HeadTried(s: State, p: Pid) returns (es: seq<Event>)
    requires Orderly(s) && p in s.workers && s.workers[p].queue != []
    ensures var t := Exec(s, es);
            Orderly(t) && p in t.workers && t.workers[p].queue == s.workers[p].queue && t.workers[p].tried.Some?
  {
    if s.workers[p].tried.Some? {
      es := [];
    } else {
      es := [Deliver(p, true)];
      ExecSnoc(s, [], Deliver(p, true));
      assert [] + [Deliver(p, true)] == es;
      assert ClaimOk(s, s.workers[p], 0);
      StepOrderly(s, Deliver(p, true));
    }
  }

  lemma ClaimsWhenDue(s: State, id: Id) returns (es: seq<Event>)
    requires id in s.items && s.items[id].status.Pending?
    ensures id in Exec(s, es).items && Exec(s, es).items[id].status.Processing?
  {
    var p := Above(s.workers.Keys);
    var due := Apply(s, Tick(s.items[id].nextRetry));
    assert Claimable(due, id, false);
    assert Enabled(due, ClaimBatch(p, [id], false));
    es := [Tick(s.items[id].nextRetry), ClaimBatch(p, [id], false)];
    ExecThree(s, es[0], es[1], Tick(0));
  }

  /** An item never changes again, whatever workers and admins do, exactly if it is settled. */
  lemma SettledExactly(s: State, id: Id)
    requires Orderly(s) && id in s.items
    ensures Settled(s, id) <==> forall es :: id in Exec(s, es).items && Exec(s, es).items[id] == s.items[id]
  {
    if Settled(s, id) {
      forall es ensures id in Exec(s, es).items && Exec(s, es).items[id] == s.items[id] {
        assert es[..0] == [] && es[..|es|] == es;
        SettledForever(s, es, 0, |es|, id);
      }
    } else {
      var es := Unsettle(s, id);
      assert id in Exec(s, es).items && Exec(s, es).items[id] != s.items[id];
    }
  }

  lemma Unsettle(s: State, id: Id) returns (es: seq<Event>)
    requires Orderly(s) && id in s.items && !Settled(s, id)
    ensures id in Exec(s, es).items && Exec(s, es).items[id] != s.items[id]
  {
    match s.items[id].status
    case Pending => es := ClaimsWhenDue(s, id);
    case Failed =>
      es := [Discard(id)];
      ExecThree(s, Discard(id), Discard(id), Discard(id));
    case Processing =>
      var p, i :| p in s.workers && 0 <= i < |s.workers[p].queue| && s.workers[p].queue[i].id == id;
      es := WorkThrough(s, p, i, id);
    case _ =>
  }

  /** A worker that stops between the claim and the mark gets an item there. */
  lemma StoppedWorkerLeavesBehind(id: Id)
    ensures var t := Exec(Init(), [Enqueue(id, 0), ClaimBatch(1, [id], false), Stop(1)]);
            Orderly(t) && id in t.items && t.items[id].status.Processing? && !Held(t, id)
  {
    var es := [Enqueue(id, 0), ClaimBatch(1, [id], false), Stop(1)];
    ExecThree(Init(), es[0], es[1], es[2]);
    var s := Apply(Init(), es[0]);
    assert Claimable(s, id, false);
    assert Enabled(s, es[1]);
    assert es[..3] == es;
    OrderlyAt(Init(), es, 3);
  }

  /** What an early return leaves in processing stays there: no later run, retry, requeue or
      discard reaches it. */
  lemma LeftBehindForever(s: State, es: seq<Event>, j: nat, id: Id)
    requires Orderly(s) && j <= |es| && id in s.items && s.items[id].status.Processing? && !Held(s, id)
    ensures id in Exec(s, es[..j]).items && Exec(s, es[..j]).items[id] == s.items[id]
  {
    hide Apply;
    assert es[..0] == [];
    SettledForever(s, es, 0, j, id);
  }
}
