/**
 Retention of operational history: hot tables, their archives, and the batches that move rows
 from one to the other and finally delete them. One event is one statement on one pair of
 tables, so a retention run may stop between any two.
 */
module History {
  import opened Numbers
  import opened Wrappers

  type Id(==, !new)
  type Time = int

  const BATCH: nat := 500

  /** `Plain` rows (audit logs, check runs) have no status. */
  datatype Status = Plain | Pending | Processing | Sent | Failed | Discarded

  datatype Row = Row(at: Time, status: Status)

  /** A hot table and its archive. */
  datatype Shelf = Shelf(hot: map<Id, Row>, archive: map<Id, Row>)

  datatype Event =
    | Insert(id: Id, row: Row)
    | Touch(id: Id, row: Row)
    | Archive(cutoff: Time, page: set<Id>)
    | Purge(cutoff: Time, page: set<Id>)

  function Movable(r: Row): bool { r.status.Plain? || r.status.Sent? || r.status.Discarded? }

  // ---------------------------------------------------------------- cutoffs

  /** Both cutoffs, or none when the policy is not usable. */
  function Cutoffs(now: Time, hotRetention: int, archiveRetention: int): (r: Result<(Time, Time), ()>)
    ensures r.Ok? <==> 0 < hotRetention < archiveRetention
    ensures r.Ok? ==> r.value.1 < r.value.0 < now
    ensures r.Ok? ==> now - r.value.0 == hotRetention && now - r.value.1 == archiveRetention
  {
    if hotRetention <= 0 then Err(())
    else if archiveRetention <= hotRetention then Err(())
    else Ok((now - hotRetention, now - archiveRetention))
  }

  // ---------------------------------------------------------------- the machine

  function HotBacklog(s: Shelf, cutoff: Time): set<Id> {
    set id | id in s.hot && s.hot[id].at < cutoff && Movable(s.hot[id])
  }

  function ArchiveBacklog(s: Shelf, cutoff: Time): set<Id> {
    set id | id in s.archive && s.archive[id].at < cutoff
  }

  /** `ORDER BY at LIMIT 500` over `backlog`. */
  ghost predicate OldestPage(table: map<Id, Row>, backlog: set<Id>, page: set<Id>) {
    && backlog <= table.Keys && page <= backlog && |page| == Min(BATCH, |backlog|)
    && forall p, o :: p in page && o in backlog && o !in page ==> table[p].at <= table[o].at
  }

  /** DELETE ... RETURNING into INSERT ... ON CONFLICT DO NOTHING. */
  function Moved(s: Shelf, page: set<Id>): Shelf {
    Shelf(s.hot - page, (map id | id in page && id in s.hot :: s.hot[id]) + s.archive)
  }

  function Purged(s: Shelf, page: set<Id>): Shelf {
    s.(archive := s.archive - page)
  }

  ghost predicate Enabled(s: Shelf, e: Event) {
    match e
    case Insert(id, _) => id !in s.hot && id !in s.archive
    case Touch(id, row) => id in s.hot && row.at >= s.hot[id].at
    case Archive(cutoff, page) => OldestPage(s.hot, HotBacklog(s, cutoff), page)
    case Purge(cutoff, page) => OldestPage(s.archive, ArchiveBacklog(s, cutoff), page)
  }

  ghost function Apply(s: Shelf, e: Event): Shelf {
    if !Enabled(s, e) then s else
    match e
    case Insert(id, row) => s.(hot := s.hot[id := row])
    case Touch(id, row) => s.(hot := s.hot[id := row])
    case Archive(_, page) => Moved(s, page)
    case Purge(_, page) => Purged(s, page)
  }

  ghost function Exec(s: Shelf, es: seq<Event>): Shelf
    decreases |es|
  {
    if es == [] then s else Apply(Exec(s, es[..|es| - 1]), es[|es| - 1])
  }

  lemma ExecStep(s: Shelf, es: seq<Event>, k: nat)
    requires k < |es|
    ensures Exec(s, es[..k + 1]) == Apply(Exec(s, es[..k]), es[k])
  {
    assert es[..k + 1][..k] == es[..k];
  }

  /** Everything kept, hot or archived. */
  function Rows(s: Shelf): map<Id, Row> { s.hot + s.archive }

  ghost predicate Apart(s: Shelf) { s.hot.Keys !! s.archive.Keys }

  lemma StepApart(s: Shelf, e: Event)
    requires Apart(s)
    ensures Apart(Apply(s, e))
  {
  }

  /** No row id is ever in both tables. */
  lemma {:induction false} NeverInBoth(s: Shelf, es: seq<Event>, k: nat)
    requires Apart(s) && k <= |es|
    ensures Apart(Exec(s, es[..k]))
  {
    hide Apply;
    if k > 0 {
      NeverInBoth(s, es, k - 1);
      ExecStep(s, es, k - 1);
      StepApart(Exec(s, es[..k - 1]), es[k - 1]);
    }
  }

  // ---------------------------------------------------------------- conservation

  /** Archiving loses nothing; purging loses the old rows of its page and no others. */
  lemma RetentionKeepsRows(s: Shelf, e: Event)
    requires Apart(s) && Enabled(s, e)
    ensures e.Archive? ==> Rows(Apply(s, e)) == Rows(s)
    ensures e.Purge? ==> Rows(Apply(s, e)) == Rows(s) - e.page && forall id :: id in e.page ==> Rows(s)[id].at < e.cutoff
  {
  }

  ghost predicate PurgesBefore(es: seq<Event>, cutoff: Time) {
    forall k :: 0 <= k < |es| && es[k].Purge? ==> es[k].cutoff <= cutoff
  }

  ghost predicate ArchivesBefore(es: seq<Event>, cutoff: Time) {
    forall k :: 0 <= k < |es| && es[k].Archive? ==> es[k].cutoff <= cutoff
  }

  ghost predicate Untouched(es: seq<Event>, id: Id, i: nat, j: nat) {
    forall k :: i <= k < j && k < |es| ==> !(es[k].Touch? && es[k].id == id)
  }

  lemma StepKeepsYoung(s: Shelf, e: Event, id: Id, cutoff: Time)
    requires Apart(s) && (e.Purge? ==> e.cutoff <= cutoff)
    requires id in Rows(s) && Rows(s)[id].at >= cutoff
    ensures id in Rows(Apply(s, e)) && Rows(Apply(s, e))[id].at >= cutoff
    ensures !(e.Touch? && e.id == id) ==> Rows(Apply(s, e))[id] == Rows(s)[id]
  {
  }

  /** A row leaves the two tables only when it is older than an archive cutoff. */
  lemma {:induction false} YoungRowsSurvive(s: Shelf, es: seq<Event>, i: nat, j: nat, id: Id, cutoff: Time)
    requires Apart(s) && i <= j <= |es| && PurgesBefore(es, cutoff)
    requires id in Rows(Exec(s, es[..i])) && Rows(Exec(s, es[..i]))[id].at >= cutoff
    ensures id in Rows(Exec(s, es[..j])) && Rows(Exec(s, es[..j]))[id].at >= cutoff
    ensures Untouched(es, id, i, j) ==> Rows(Exec(s, es[..j]))[id] == Rows(Exec(s, es[..i]))[id]
    decreases j
  {
    hide Apply, Rows;
    if i < j {
      YoungRowsSurvive(s, es, i, j - 1, id, cutoff);
      NeverInBoth(s, es, j - 1);
      ExecStep(s, es, j - 1);
      StepKeepsYoung(Exec(s, es[..j - 1]), es[j - 1], id, cutoff);
      assert Untouched(es, id, i, j) ==> Untouched(es, id, i, j - 1);
    }
  }

  lemma StepKeepsHot(s: Shelf, e: Event, id: Id, cutoff: Time)
    requires e.Archive? ==> e.cutoff <= cutoff
    requires id in s.hot && (s.hot[id].at >= cutoff || !Movable(s.hot[id])) && !(e.Touch? && e.id == id)
    ensures id in Apply(s, e).hot && Apply(s, e).hot[id] == s.hot[id]
  {
  }

  /** Rows younger than the hot cutoff, and notifications that are neither sent nor discarded,
      are never moved. */
  lemma {:induction false} YoungAndOpenRowsStayHot(s: Shelf, es: seq<Event>, i: nat, j: nat, id: Id, cutoff: Time)
    requires i <= j <= |es| && ArchivesBefore(es, cutoff) && Untouched(es, id, i, j)
    requires var a := Exec(s, es[..i]); id in a.hot && (a.hot[id].at >= cutoff || !Movable(a.hot[id]))
    ensures id in Exec(s, es[..j]).hot && Exec(s, es[..j]).hot[id] == Exec(s, es[..i]).hot[id]
    decreases j
  {
    hide Apply;
    if i < j {
      assert Untouched(es, id, i, j - 1);
      YoungAndOpenRowsStayHot(s, es, i, j - 1, id, cutoff);
      ExecStep(s, es, j - 1);
      StepKeepsHot(Exec(s, es[..j - 1]), es[j - 1], id, cutoff);
    }
  }

  // ---------------------------------------------------------------- the backlog drains

  /** One undisturbed retention run over one pair of tables. */
  ghost predicate IsPass(s: Shelf, t: Shelf, hot: Time, archive: Time, p: set<Id>, q: set<Id>) {
    && OldestPage(s.hot, HotBacklog(s, hot), p)
    && OldestPage(Moved(s, p).archive, ArchiveBacklog(Moved(s, p), archive), q)
    && t == Purged(Moved(s, p), q)
  }

  /** Rows that will be purged once the hot backlog is through. */
  function Condemned(s: Shelf, hot: Time, archive: Time): set<Id> {
    ArchiveBacklog(s, archive) + (set id | id in HotBacklog(s, hot) && s.hot[id].at < archive)
  }

  lemma PassOnHot(s: Shelf, t: Shelf, hot: Time, archive: Time, p: set<Id>, q: set<Id>)
    requires Apart(s) && IsPass(s, t, hot, archive, p, q)
    ensures Apart(t) && HotBacklog(t, hot) == HotBacklog(s, hot) - p
    ensures |HotBacklog(t, hot)| == |HotBacklog(s, hot)| - Min(BATCH, |HotBacklog(s, hot)|)
  {
  }

  lemma CardDiff<T>(a: set<T>, b: set<T>)
    requires b <= a
    ensures |a - b| == |a| - |b|
  {
  }

  lemma MoveKeepsCondemned(s: Shelf, hot: Time, archive: Time, p: set<Id>)
    requires Apart(s) && p <= HotBacklog(s, hot)
    ensures Condemned(Moved(s, p), hot, archive) == Condemned(s, hot, archive)
  {
  }

  lemma PurgeOnCondemned(m: Shelf, hot: Time, archive: Time, q: set<Id>)
    requires Apart(m) && q <= ArchiveBacklog(m, archive)
    ensures Condemned(Purged(m, q), hot, archive) == Condemned(m, hot, archive) - q
  {
  }

  lemma MovedApart(s: Shelf, p: set<Id>)
    requires Apart(s)
    ensures Apart(Moved(s, p))
  {
  }

  lemma PassOnCondemned(s: Shelf, t: Shelf, hot: Time, archive: Time, p: set<Id>, q: set<Id>)
    requires Apart(s) && IsPass(s, t, hot, archive, p, q)
    ensures Condemned(t, hot, archive) == Condemned(s, hot, archive) - q
    ensures |Condemned(t, hot, archive)| <= |Condemned(s, hot, archive)|
    ensures HotBacklog(s, hot) == {} ==>
              |Condemned(t, hot, archive)| == |Condemned(s, hot, archive)| - Min(BATCH, |Condemned(s, hot, archive)|)
  {
    hide Condemned, Moved, Purged, ArchiveBacklog, HotBacklog;
    var m := Moved(s, p);
    MovedApart(s, p);
    MoveKeepsCondemned(s, hot, archive, p);
    PurgeOnCondemned(m, hot, archive, q);
    OnlyArchiveCondemned(m, hot, archive);
    CardDiff(Condemned(s, hot, archive), q);
    if HotBacklog(s, hot) == {} {
      MovedNothing(s);
      OnlyArchiveCondemned(s, hot, archive);
    }
  }

  lemma OnlyArchiveCondemned(s: Shelf, hot: Time, archive: Time)
    ensures ArchiveBacklog(s, archive) <= Condemned(s, hot, archive)
    ensures HotBacklog(s, hot) == {} ==> Condemned(s, hot, archive) == ArchiveBacklog(s, archive)
  {
  }

  lemma MovedNothing(s: Shelf)
    ensures Moved(s, {}) == s
  {
  }

  /** A series of runs with fixed cutoffs, nothing else going on. */
  ghost predicate Series(ss: seq<Shelf>, hot: Time, archive: Time) {
    forall i :: 0 <= i < |ss| - 1 ==> Pass(ss[i], ss[i + 1], hot, archive)
  }

  ghost predicate Pass(s: Shelf, t: Shelf, hot: Time, archive: Time) {
    exists p, q :: IsPass(s, t, hot, archive, p, q)
  }

  function Left(n: nat, passes: nat): nat { if n <= BATCH * passes then 0 else n - BATCH * passes }

  function PassesFor(n: nat): (k: nat)
    ensures Left(n, k) == 0 && (k > 0 ==> Left(n, k - 1) > 0)
  {
    (n + BATCH - 1) / BATCH
  }

  lemma {:induction false} HotDrains(ss: seq<Shelf>, hot: Time, archive: Time, n: nat)
    requires Series(ss, hot, archive) && n < |ss| && Apart(ss[0])
    ensures Apart(ss[n]) && |HotBacklog(ss[n], hot)| == Left(|HotBacklog(ss[0], hot)|, n)
    ensures |Condemned(ss[n], hot, archive)| <= |Condemned(ss[0], hot, archive)|
  {
    hide HotBacklog, Condemned, IsPass;
    if n > 0 {
      HotDrains(ss, hot, archive, n - 1);
      assert Pass(ss[n - 1], ss[n - 1 + 1], hot, archive);
      var p, q :| IsPass(ss[n - 1], ss[n], hot, archive, p, q);
      PassOnHot(ss[n - 1], ss[n], hot, archive, p, q);
      PassOnCondemned(ss[n - 1], ss[n], hot, archive, p, q);
    }
  }

  lemma {:induction false} ArchiveDrains(ss: seq<Shelf>, hot: Time, archive: Time, n: nat)
    requires Series(ss, hot, archive) && n < |ss| && Apart(ss[0]) && HotBacklog(ss[0], hot) == {}
    ensures Apart(ss[n]) && HotBacklog(ss[n], hot) == {}
    ensures |Condemned(ss[n], hot, archive)| == Left(|Condemned(ss[0], hot, archive)|, n)
  {
    hide HotBacklog, Condemned, IsPass;
    if n > 0 {
      ArchiveDrains(ss, hot, archive, n - 1);
      assert Pass(ss[n - 1], ss[n - 1 + 1], hot, archive);
      var p, q :| IsPass(ss[n - 1], ss[n], hot, archive, p, q);
      PassOnHot(ss[n - 1], ss[n], hot, archive, p, q);
      PassOnCondemned(ss[n - 1], ss[n], hot, archive, p, q);
    }
  }

  /** After ceil(H/500) + ceil(C/500) runs nothing is left to move or purge, H being the hot
      backlog and C the rows due for purging; from then on runs change nothing. */
  lemma BacklogDrains(ss: seq<Shelf>, hot: Time, archive: Time, n: nat)
    requires Series(ss, hot, archive) && |ss| > 0 && Apart(ss[0])
    requires PassesFor(|HotBacklog(ss[0], hot)|) + PassesFor(|Condemned(ss[0], hot, archive)|) <= n < |ss|
    ensures HotBacklog(ss[n], hot) == {} && ArchiveBacklog(ss[n], archive) == {}
    ensures n + 1 < |ss| ==> ss[n + 1] == ss[n]
  {
    var h := PassesFor(|HotBacklog(ss[0], hot)|);
    HotDrains(ss, hot, archive, h);
    var tail := ss[h..];
    assert Series(tail, hot, archive) by {
      forall i | 0 <= i < |tail| - 1 ensures Pass(tail[i], tail[i + 1], hot, archive) {
        assert Pass(ss[h + i], ss[h + i + 1], hot, archive);
      }
    }
    ArchiveDrains(tail, hot, archive, n - h);
    LeftMonotone(|Condemned(ss[0], hot, archive)|, |Condemned(ss[h], hot, archive)|, n - h);
    assert tail[n - h] == ss[n];
    assert ArchiveBacklog(ss[n], archive) <= Condemned(ss[n], hot, archive);
    if n + 1 < |ss| {
      assert Pass(ss[n], ss[n + 1], hot, archive);
      var p, q :| IsPass(ss[n], ss[n + 1], hot, archive, p, q);
      NothingToDo(ss[n], ss[n + 1], hot, archive, p, q);
    }
  }

  lemma LeftMonotone(a: nat, b: nat, k: nat)
    requires b <= a && k >= PassesFor(a)
    ensures Left(b, k) == 0
  {
  }

  lemma NothingToDo(s: Shelf, t: Shelf, hot: Time, archive: Time, p: set<Id>, q: set<Id>)
    requires IsPass(s, t, hot, archive, p, q) && HotBacklog(s, hot) == {} && ArchiveBacklog(s, archive) == {}
    ensures t == s
  {
  }

  // ---------------------------------------------------------------- the repository

  datatype Counts = Counts(archivedAudit: nat, archivedOps: nat, archivedOutbox: nat, purgedAudit: nat, purgedOps: nat, purgedOutbox: nat)

  class OperationalHistoryRepo {
    var audit: Shelf
    var ops: Shelf
    var outbox: Shelf

    ghost predicate Valid()
      reads this
    {
      Apart(audit) && Apart(ops) && Apart(outbox)
    }

    /** Six statements in order; the first that fails ends the run. `pages` are the rows they move. */
    method ApplyRetention(hotCutoff: Time, archiveCutoff: Time, failing: nat)
      returns (ok: bool, counts: Counts, ghost pages: seq<set<Id>>)
      requires Valid()
      modifies this
      ensures Valid() && (ok <==> failing >= 6) && |pages| == 6
      ensures Ran(old(audit), audit, hotCutoff, archiveCutoff, failing > 0, failing > 3, pages[0], pages[3])
      ensures Ran(old(ops), ops, hotCutoff, archiveCutoff, failing > 1, failing > 4, pages[1], pages[4])
      ensures Ran(old(outbox), outbox, hotCutoff, archiveCutoff, failing > 2, failing > 5, pages[2], pages[5])
      ensures counts == Counts(|pages[0]|, |pages[1]|, |pages[2]|, |pages[3]|, |pages[4]|, |pages[5]|)
    {
      hide OldestPage, HotBacklog, ArchiveBacklog, Moved, Purged, Apart;
      counts := Counts(0, 0, 0, 0, 0, 0);
      ok, pages := false, [{}, {}, {}, {}, {}, {}];
      var page;
      if failing == 0 { return; }
      audit, page := ArchiveRows(audit, hotCutoff);
      counts, pages := counts.(archivedAudit := |page|), pages[0 := page];
      if failing == 1 { return; }
      ops, page := ArchiveRows(ops, hotCutoff);
      counts, pages := counts.(archivedOps := |page|), pages[1 := page];
      if failing == 2 { return; }
      outbox, page := ArchiveRows(outbox, hotCutoff);
      counts, pages := counts.(archivedOutbox := |page|), pages[2 := page];
      if failing == 3 { return; }
      audit, page := PurgeRows(audit, archiveCutoff);
      counts, pages := counts.(purgedAudit := |page|), pages[3 := page];
      if failing == 4 { return; }
      ops, page := PurgeRows(ops, archiveCutoff);
      counts, pages := counts.(purgedOps := |page|), pages[4 := page];
      if failing == 5 { return; }
      outbox, page := PurgeRows(outbox, archiveCutoff);
      counts, pages := counts.(purgedOutbox := |page|), pages[5 := page];
      ok := true;
    }
  }

  /** What a run that may stop early did to one pair of tables. */
  ghost predicate Ran(s: Shelf, t: Shelf, hot: Time, archive: Time, moves: bool, purges: bool, p: set<Id>, q: set<Id>) {
    && (moves ==> OldestPage(s.hot, HotBacklog(s, hot), p))
    && (!moves ==> p == {} && t == s)
    && (moves && !purges ==> q == {} && t == Moved(s, p))
    && (purges ==> moves && IsPass(s, t, hot, archive, p, q))
  }

  method SelectOldest(table: map<Id, Row>, backlog: set<Id>) returns (page: set<Id>)
    requires backlog <= table.Keys
    ensures OldestPage(table, backlog, page)
  {
    page := {};
    var rest := backlog;
    while rest != {} && |page| < BATCH
      invariant page + rest == backlog && page !! rest
      invariant |page| <= BATCH
      invariant forall p, o :: p in page && o in rest ==> table[p].at <= table[o].at
      decreases rest
    {
      var id := Oldest(table, rest);
      page := page + {id};
      rest := rest - {id};
    }
    if rest == {} {
      assert page == backlog;
    } else {
      assert |backlog| == |page| + |rest|;
    }
  }

  method Oldest(table: map<Id, Row>, ids: set<Id>) returns (first: Id)
    requires ids != {} && ids <= table.Keys
    ensures first in ids && forall id :: id in ids ==> table[first].at <= table[id].at
  {
    first :| first in ids;
    var rest := ids - {first};
    while rest != {}
      invariant rest <= ids && first in ids
      invariant forall id :: id in ids - rest ==> table[first].at <= table[id].at
      decreases rest
    {
      var id :| id in rest;
      if table[id].at < table[first].at { first := id; }
      rest := rest - {id};
    }
  }

  method ArchiveRows(s: Shelf, cutoff: Time) returns (t: Shelf, page: set<Id>)
    requires Apart(s)
    ensures OldestPage(s.hot, HotBacklog(s, cutoff), page) && t == Moved(s, page) && Apart(t)
  {
    page := SelectOldest(s.hot, HotBacklog(s, cutoff));
    t := Moved(s, page);
  }

  method PurgeRows(s: Shelf, cutoff: Time) returns (t: Shelf, page: set<Id>)
    requires Apart(s)
    ensures OldestPage(s.archive, ArchiveBacklog(s, cutoff), page) && t == Purged(s, page) && Apart(t)
  {
    page := SelectOldest(s.archive, ArchiveBacklog(s, cutoff));
    t := Purged(s, page);
  }
}
