/**
 The migration status report.
 */
module MigrationStatus {
  import opened Wrappers
  import opened Migrations

  datatype Ref = Ref(version: int, name: string)

  datatype Report = Report(consistent: bool, problems: seq<int>, pending: seq<Ref>, rollback: seq<Ref>)

  function RefOf(m: Migration): Ref { Ref(m.version, m.name) }

  ghost predicate RowsAscending(rows: seq<Ref>) {
    forall i, j :: 0 <= i < j < |rows| ==> rows[i].version < rows[j].version
  }

  ghost predicate RowsDescending(rows: seq<Ref>) {
    forall i, j :: 0 <= i < j < |rows| ==> rows[i].version > rows[j].version
  }

  /** Recorded with a name that this binary knows. */
  ghost predicate Known(all: seq<Migration>, row: Ref) {
    exists m :: m in all && RefOf(m) == row
  }

  ghost predicate InTable(applied: seq<Ref>, v: int) {
    exists i :: 0 <= i < |applied| && applied[i].version == v
  }

  /** Pending and available for rollback divide the embedded migrations between them, the first
      in ascending and the second in descending order. */
  ghost predicate Partition(all: seq<Migration>, applied: seq<Ref>, pending: seq<Ref>, rollback: seq<Ref>) {
    && RowsAscending(pending) && RowsDescending(rollback)
    && (forall m :: m in all ==> if InTable(applied, m.version) then RefOf(m) in rollback && RefOf(m) !in pending
                                 else RefOf(m) in pending && RefOf(m) !in rollback)
    && (forall r :: r in pending || r in rollback ==> Known(all, r))
  }

  method MigrationRefs(ms: seq<Migration>) returns (refs: seq<Ref>)
    ensures |refs| == |ms| && forall i :: 0 <= i < |ms| ==> refs[i] == RefOf(ms[i])
  {
    refs := [];
    var i := 0;
    while i < |ms|
      invariant 0 <= i <= |ms| && |refs| == i && forall k :: 0 <= k < i ==> refs[k] == RefOf(ms[k])
    {
      refs := refs + [Ref(ms[i].version, ms[i].name)];
      i := i + 1;
    }
  }

  /** From the newest applied version back, those that the binary defines. */
  method RollbackAvailableRefs(all: seq<Migration>, applied: seq<Ref>) returns (refs: seq<Ref>)
    requires Ascending(all) && RowsAscending(applied)
    ensures RowsDescending(refs)
    ensures forall r :: r in refs <==> Known(all, r) && InTable(applied, r.version)
  {
    var byVersion := IndexByVersion(all);
    refs := [];
    var i := |applied|;
    while i > 0
      invariant 0 <= i <= |applied|
      invariant RowsDescending(refs)
      invariant i < |applied| ==> forall k :: 0 <= k < |refs| ==> refs[k].version >= applied[i].version
      invariant i == |applied| ==> refs == []
      invariant forall r :: r in refs <==> Known(all, r) && InTable(applied[i..], r.version)
    {
      i := i - 1;
      var v := applied[i].version;
      assert applied[i..] == [applied[i]] + applied[i + 1..];
      forall w ensures InTable(applied[i..], w) <==> w == v || InTable(applied[i + 1..], w) {
        TableSplit(applied, i, w);
      }
      if v in byVersion {
        var m := byVersion[v];
        forall r ensures Known(all, r) && r.version == v <==> r == RefOf(m) {
          KnownAt(all, m, r);
        }
        refs := refs + [Ref(m.version, m.name)];
      }
    }
    assert applied[0..] == applied;
  }

  lemma TableSplit(applied: seq<Ref>, i: nat, w: int)
    requires i < |applied|
    ensures InTable(applied[i..], w) <==> w == applied[i].version || InTable(applied[i + 1..], w)
  {
  }

  lemma KnownAt(all: seq<Migration>, m: Migration, r: Ref)
    requires Ascending(all) && m in all
    ensures Known(all, r) && r.version == m.version <==> r == RefOf(m)
  {
  }

  method BuildStatus(all: seq<Migration>, applied: seq<Ref>, tracking: bool) returns (report: Report)
    requires Ascending(all) && RowsAscending(applied) && (!tracking ==> applied == [])
    ensures Partition(all, applied, report.pending, report.rollback)
    ensures report.consistent <==> forall i :: 0 <= i < |applied| ==> Known(all, applied[i])
    ensures forall v :: v in report.problems <==> exists i :: 0 <= i < |applied| && applied[i].version == v && !Known(all, applied[i])
  {
    if !tracking {
      var refs := MigrationRefs(all);
      report := Report(true, [], refs, []);
      PendingPart(all, applied, {}, all, refs, []);
      return;
    }
    var embedded := IndexByVersion(all);
    var appliedSet: set<int> := {};
    var consistent := true;
    var problems: seq<int> := [];
    var i := 0;
    while i < |applied|
      invariant 0 <= i <= |applied|
      invariant forall v :: v in appliedSet <==> InTable(applied[..i], v)
      invariant consistent <==> forall k :: 0 <= k < i ==> Known(all, applied[k])
      invariant forall v :: v in problems <==> exists k :: 0 <= k < i && applied[k].version == v && !Known(all, applied[k])
    {
      var row := applied[i];
      forall w ensures InTable(applied[..i + 1], w) <==> w == row.version || InTable(applied[..i], w) {
        TableGrows(applied, i, w);
      }
      if row.version in embedded {
        KnownAt(all, embedded[row.version], row);
      } else {
        KnownHere(all, row);
      }
      appliedSet := appliedSet + {row.version};
      if row.version !in embedded || embedded[row.version].name != row.name {
        consistent := false;
        problems := problems + [row.version];
      }
      i := i + 1;
    }
    assert applied[..|applied|] == applied;
    var pending := Pending(all, appliedSet);
    var pendingRefs := MigrationRefs(pending);
    var rollback := RollbackAvailableRefs(all, applied);
    MissingIsExact(all, appliedSet);
    PendingPart(all, applied, appliedSet, pending, pendingRefs, rollback);
    report := Report(consistent, problems, pendingRefs, rollback);
  }

  lemma KnownHere(all: seq<Migration>, row: Ref)
    ensures Known(all, row) ==> Defined(all, row.version)
  {
  }

  lemma TableGrows(applied: seq<Ref>, i: nat, w: int)
    requires i < |applied|
    ensures InTable(applied[..i + 1], w) <==> w == applied[i].version || InTable(applied[..i], w)
  {
  }

  lemma PendingPart(all: seq<Migration>, applied: seq<Ref>, table: set<int>, pending: seq<Migration>, refs: seq<Ref>, rollback: seq<Ref>)
    requires Ascending(all) && Ascending(pending) && (forall v :: v in table <==> InTable(applied, v))
    requires forall m :: m in pending <==> m in all && m.version !in table
    requires |refs| == |pending| && forall i :: 0 <= i < |pending| ==> refs[i] == RefOf(pending[i])
    requires RowsDescending(rollback) && forall r :: r in rollback <==> Known(all, r) && InTable(applied, r.version)
    ensures Partition(all, applied, refs, rollback)
  {
  }
}
