/**
 Export of operational history: the newest rows of the hot table and of the archive, merged,
 sorted and cut, are the newest rows of the union.
 */
module Export {
  import opened Numbers
  import opened Wrappers

  type Content(==, !new)
  type Time = int

  datatype Record = Record(at: Time, kind: string, status: string, content: Content)

  datatype Source = Hot | Archive | All

  /** `Unsupported` is any other text. */
  datatype RecordType = AuditLogs | OpsHistory | NotificationOutbox | Unsupported

  /** Zero bounds and empty strings filter nothing. */
  datatype Filter = Filter(recordType: RecordType, source: Source, from: Time, to: Time, kind: string, status: string, limit: int)

  /** One table for each type of record, hot or archived. */
  datatype Tables = Tables(auditLogs: seq<Record>, opsHistory: seq<Record>, notificationOutbox: seq<Record>) {
    function Of(recordType: RecordType): seq<Record> {
      match recordType
      case AuditLogs => auditLogs
      case OpsHistory => opsHistory
      case NotificationOutbox => notificationOutbox
      case Unsupported => []
    }
  }

  const ZERO_TIME: Time := 0

  function Limit(limit: int): (n: nat)
    ensures 0 < n <= 5000
  {
    if limit <= 0 || limit > 5000 then 1000 else limit
  }

  /** Audit logs have no status column: a status filter does not apply to them. */
  function Matches(f: Filter, r: Record): bool {
    && (f.from != ZERO_TIME ==> r.at >= f.from) && (f.to != ZERO_TIME ==> r.at <= f.to)
    && (f.kind != "" ==> r.kind == f.kind) && (f.status != "" && !f.recordType.AuditLogs? ==> r.status == f.status)
  }

  function Matching(table: seq<Record>, f: Filter): (rs: seq<Record>) {
    if table == [] then []
    else if Matches(f, table[0]) then [table[0]] + Matching(table[1..], f)
    else Matching(table[1..], f)
  }

  ghost predicate NewestFirst(rs: seq<Record>) {
    forall i, j :: 0 <= i < j < |rs| ==> rs[i].at >= rs[j].at
  }

  /** `out` is a list of the `k` newest of `all`: newest first, as many as there can be, and no
      omitted record is newer than one in the list. */
  ghost predicate TopK(all: multiset<Record>, k: nat, out: seq<Record>) {
    && NewestFirst(out) && |out| == Min(k, |all|) && multiset(out) <= all
    && forall x, r :: x in all - multiset(out) && r in out ==> x.at <= r.at
  }

  // ---------------------------------------------------------------- sorting and cutting

  /** Where a record goes in a list that is newest first. */
  method Insert(sorted: seq<Record>, r: Record) returns (out: seq<Record>)
    requires NewestFirst(sorted)
    ensures NewestFirst(out) && multiset(out) == multiset(sorted) + multiset{r}
  {
    var i := 0;
    while i < |sorted| && sorted[i].at >= r.at
      invariant 0 <= i <= |sorted|
      invariant forall k :: 0 <= k < i ==> sorted[k].at >= r.at
    {
      i := i + 1;
    }
    out := sorted[..i] + [r] + sorted[i..];
    InsertedInOrder(sorted, r, i);
    InsertedOnce(sorted, r, i);
  }

  lemma InsertedInOrder(sorted: seq<Record>, r: Record, i: nat)
    requires NewestFirst(sorted) && i <= |sorted|
    requires (forall k :: 0 <= k < i ==> sorted[k].at >= r.at) && (i < |sorted| ==> sorted[i].at < r.at)
    ensures NewestFirst(sorted[..i] + [r] + sorted[i..])
  {
  }

  lemma InsertedOnce(sorted: seq<Record>, r: Record, i: nat)
    requires i <= |sorted|
    ensures multiset(sorted[..i] + [r] + sorted[i..]) == multiset(sorted) + multiset{r}
  {
    assert sorted == sorted[..i] + sorted[i..];
  }

  method SortNewestFirst(rs: seq<Record>) returns (out: seq<Record>)
    ensures NewestFirst(out) && multiset(out) == multiset(rs)
  {
    out := [];
    var i := 0;
    while i < |rs|
      invariant 0 <= i <= |rs|
      invariant NewestFirst(out) && multiset(out) == multiset(rs[..i])
    {
      out := Insert(out, rs[i]);
      assert rs[..i + 1] == rs[..i] + [rs[i]];
      i := i + 1;
    }
    assert rs[..|rs|] == rs;
  }

  lemma Split(rs: seq<Record>, n: nat)
    requires n <= |rs|
    ensures multiset(rs) - multiset(rs[..n]) == multiset(rs[n..]) && multiset(rs[..n]) <= multiset(rs)
  {
    assert rs == rs[..n] + rs[n..];
  }

  /** The head of a sorted list is its top. */
  lemma CutIsTop(rs: seq<Record>, k: nat)
    requires NewestFirst(rs)
    ensures TopK(multiset(rs), k, rs[..Min(k, |rs|)])
  {
    var n := Min(k, |rs|);
    var head, tail := rs[..n], rs[n..];
    Split(rs, n);
    forall x, r | x in tail && r in head ensures x.at <= r.at {
      var j :| 0 <= j < |tail| && tail[j] == x;
      var i :| 0 <= i < |head| && head[i] == r;
      assert rs[n + j] == x && rs[i] == r;
    }
  }

  /** `ORDER BY at DESC LIMIT n` over the matching rows of one table. */
  method Query(table: seq<Record>, f: Filter) returns (batch: seq<Record>)
    ensures TopK(multiset(Matching(table, f)), Limit(f.limit), batch)
  {
    var sorted := SortNewestFirst(Matching(table, f));
    CutIsTop(sorted, Limit(f.limit));
    batch := sorted[..Min(Limit(f.limit), |sorted|)];
  }

  // ---------------------------------------------------------------- merging

  lemma SubsetSize<T>(a: multiset<T>, b: multiset<T>)
    requires a <= b
    ensures |a| <= |b| && |b - a| == |b| - |a| && (|a| == |b| ==> a == b)
  {
  }

  /** If nothing of `top` is left out, there is no room for anything else. */
  lemma TopFillsAll(top: seq<Record>, merged: multiset<Record>, k: nat, out: seq<Record>)
    requires multiset(top) <= merged && |top| == k && TopK(merged, k, out)
    requires forall t :: t in top ==> t !in merged - multiset(out)
    ensures multiset(top) == multiset(out)
  {
    var mt, mo := multiset(top), multiset(out);
    SubsetSize(mt, merged);
    forall t ensures mt[t] <= mo[t] {
      if t in mt { assert t in top; }
    }
    SubsetSize(mt, mo);
  }

  /** If a record of `out` were older than the whole of `top`, `out` would have to hold all of
      `top`, and there is no room for more. */
  lemma TopFills(top: seq<Record>, merged: multiset<Record>, k: nat, out: seq<Record>, r: Record)
    requires multiset(top) <= merged && |top| == k && TopK(merged, k, out) && r in out
    ensures exists t :: t in top && t.at <= r.at
  {
    if forall t :: t in top ==> t !in merged - multiset(out) {
      TopFillsAll(top, merged, k, out);
      assert r in multiset(top);
      assert r in top;
    } else {
      var t :| t in top && t in merged - multiset(out);
      assert t.at <= r.at;
    }
  }

  /** Records a table held back are no newer than the merged top. */
  lemma HeldBack(all: multiset<Record>, k: nat, top: seq<Record>, merged: multiset<Record>, out: seq<Record>, x: Record, r: Record)
    requires TopK(all, k, top) && multiset(top) <= merged && TopK(merged, k, out)
    requires x in all - multiset(top) && r in out
    ensures x.at <= r.at
  {
    SubsetSize(multiset(top), all);
    assert |top| == k;
    TopFills(top, merged, k, out, r);
    var t :| t in top && t.at <= r.at;
    assert x.at <= t.at;
  }

  /** Taking the top of two tops gives the top of the union. */
  lemma TopOfTops(a: multiset<Record>, b: multiset<Record>, k: nat, ta: seq<Record>, tb: seq<Record>, out: seq<Record>)
    requires TopK(a, k, ta) && TopK(b, k, tb) && TopK(multiset(ta + tb), k, out)
    ensures TopK(a + b, k, out)
  {
    var m := multiset(ta) + multiset(tb);
    assert multiset(ta + tb) == m && m <= a + b;
    forall x, r | x in (a + b) - multiset(out) && r in out ensures x.at <= r.at {
      if x in a - multiset(ta) {
        HeldBack(a, k, ta, m, out, x, r);
      } else if x in b - multiset(tb) {
        HeldBack(b, k, tb, m, out, x, r);
      } else {
        assert x in m - multiset(out);
      }
    }
  }

  /** The matching rows of the chosen source. */
  function Pool(hot: Tables, archive: Tables, f: Filter): multiset<Record> {
    var h, a := multiset(Matching(hot.Of(f.recordType), f)), multiset(Matching(archive.Of(f.recordType), f));
    match f.source
    case Hot => h
    case Archive => a
    case All => h + a
  }

  lemma EmptyTop(k: nat)
    ensures TopK(multiset{}, k, [])
  {
  }

  /** The batch of one source; nothing if the source is not asked for. */
  method Batch(tables: Tables, f: Filter, wanted: bool) returns (batch: seq<Record>)
    ensures TopK(if wanted then multiset(Matching(tables.Of(f.recordType), f)) else multiset{}, Limit(f.limit), batch)
  {
    hide TopK, Limit, Tables.Of, Matching;
    EmptyTop(Limit(f.limit));
    batch := [];
    if wanted {
      batch := Query(tables.Of(f.recordType), f);
    }
  }

  datatype ExportError = UnsupportedRecordType

  /** Whatever the source, the export is a true top list of all matching rows. */
  method Export(hot: Tables, archive: Tables, f: Filter) returns (r: Result<seq<Record>, ExportError>)
    ensures r.Err? <==> f.recordType.Unsupported?
    ensures r.Ok? ==> TopK(Pool(hot, archive, f), Limit(f.limit), r.value)
  {
    hide TopK, NewestFirst, Limit, Tables.Of, Matching, Matches;
    if f.recordType == Unsupported {
      return Err(UnsupportedRecordType);
    }
    var fromHot := Batch(hot, f, f.source != Archive);
    var fromArchive := Batch(archive, f, f.source != Hot);
    ghost var a := if f.source != Archive then multiset(Matching(hot.Of(f.recordType), f)) else multiset{};
    ghost var b := if f.source != Hot then multiset(Matching(archive.Of(f.recordType), f)) else multiset{};
    var sorted := SortNewestFirst(fromHot + fromArchive);
    CutIsTop(sorted, Limit(f.limit));
    var records := if |sorted| > Limit(f.limit) then sorted[..Limit(f.limit)] else sorted;
    assert records == sorted[..Min(Limit(f.limit), |sorted|)];
    TopOfTops(a, b, Limit(f.limit), fromHot, fromArchive, records);
    assert a + b == Pool(hot, archive, f);
    r := Ok(records);
  }
}
