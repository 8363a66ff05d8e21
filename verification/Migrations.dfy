/**
 The migration runner: applying what is missing and rolling back. Scripts are arbitrary partial
 functions on schemas.
 */
module Migrations {
  import opened Numbers
  import opened Wrappers

  type Script(==, !new)
  type Schema(==, !new)

  datatype Migration = Migration(version: int, name: string, up: Script, down: Script)

  // ---------------------------------------------------------------- planning

  ghost predicate Ascending(all: seq<Migration>) {
    forall i, j :: 0 <= i < j < |all| ==> all[i].version < all[j].version
  }

  ghost predicate Descending(vs: seq<int>) {
    forall i, j :: 0 <= i < j < |vs| ==> vs[i] > vs[j]
  }

  function Missing(all: seq<Migration>, applied: set<int>): seq<Migration> {
    if all == [] then []
    else Missing(all[..|all| - 1], applied) + if all[|all| - 1].version in applied then [] else [all[|all| - 1]]
  }

  method Pending(all: seq<Migration>, applied: set<int>) returns (pending: seq<Migration>)
    ensures pending == Missing(all, applied)
  {
    pending := [];
    var i := 0;
    while i < |all|
      invariant 0 <= i <= |all| && pending == Missing(all[..i], applied)
    {
      assert all[..i + 1][..i] == all[..i];
      if all[i].version !in applied { pending := pending + [all[i]]; }
      i := i + 1;
    }
    assert all[..|all|] == all;
  }

  /** The missing ones, each of them, in ascending order, and no others. */
  lemma {:induction false} MissingIsExact(all: seq<Migration>, applied: set<int>)
    requires Ascending(all)
    ensures Ascending(Missing(all, applied))
    ensures forall m :: m in Missing(all, applied) <==> m in all && m.version !in applied
  {
    if all != [] {
      var n := |all| - 1;
      MissingIsExact(all[..n], applied);
      assert forall m :: m in all <==> m in all[..n] || m == all[n];
      assert forall m :: m in all[..n] ==> m.version < all[n].version;
    }
  }

  function Versions(ms: seq<Migration>): (vs: seq<int>)
    ensures |vs| == |ms| && forall i :: 0 <= i < |ms| ==> vs[i] == ms[i].version
  {
    seq(|ms|, i requires 0 <= i < |ms| => ms[i].version)
  }

  ghost predicate Defined(all: seq<Migration>, v: int) { exists m :: m in all && m.version == v }

  /** Up to `n` migrations, most recent first; an undefined version within the first `n` is an error. */
  method RollbackPlan(all: seq<Migration>, appliedDesc: seq<int>, n: nat) returns (r: Result<seq<Migration>, int>)
    requires Ascending(all)
    ensures var k := if n < |appliedDesc| then n else |appliedDesc|;
            && (r.Ok? <==> forall i :: 0 <= i < k ==> Defined(all, appliedDesc[i]))
            && (r.Ok? ==> Versions(r.value) == appliedDesc[..k] && forall m :: m in r.value ==> m in all)
            && (r.Err? ==> r.error in appliedDesc[..k] && !Defined(all, r.error))
  {
    var byVersion := IndexByVersion(all);
    var plan: seq<Migration> := [];
    var i := 0;
    while i < |appliedDesc|
      invariant 0 <= i <= |appliedDesc| && |plan| == i <= n
      invariant Versions(plan) == appliedDesc[..i]
      invariant forall m :: m in plan ==> m in all
      invariant forall j :: 0 <= j < i ==> Defined(all, appliedDesc[j])
    {
      if |plan| >= n { break; }
      var v := appliedDesc[i];
      if v !in byVersion {
        return Err(v);
      }
      assert byVersion[v] in all && byVersion[v].version == v;
      plan := plan + [byVersion[v]];
      i := i + 1;
    }
    r := Ok(plan);
  }

  method IndexByVersion(all: seq<Migration>) returns (m: map<int, Migration>)
    requires Ascending(all)
    ensures forall v :: v in m <==> Defined(all, v)
    ensures forall v :: v in m ==> m[v] in all && m[v].version == v
  {
    m := map[];
    var i := 0;
    while i < |all|
      invariant 0 <= i <= |all|
      invariant forall v :: v in m <==> Defined(all[..i], v)
      invariant forall v :: v in m ==> m[v] in all[..i] && m[v].version == v
    {
      assert all[..i + 1] == all[..i] + [all[i]];
      forall v ensures Defined(all[..i + 1], v) <==> Defined(all[..i], v) || v == all[i].version {
        assert Defined(all[..i], v) ==> exists x :: x in all[..i + 1] && x.version == v;
        assert all[i] in all[..i + 1];
      }
      m := m[all[i].version := all[i]];
      i := i + 1;
    }
    assert all[..|all|] == all;
  }

  /** The keys of the tracking table, largest first. */
  function Newest(vs: set<int>): (m: int)
    requires vs != {}
    ensures m in vs && forall v :: v in vs ==> v <= m
  {
    MaxExists(vs);
    var m :| m in vs && forall v :: v in vs ==> v <= m; m
  }

  lemma MaxExists(vs: set<int>)
    requires vs != {}
    ensures exists m :: m in vs && forall v :: v in vs ==> v <= m
  {
    var top := Largest(vs);
    assert top in vs && forall v :: v in vs ==> v <= top;
  }

  lemma {:induction false} Largest(vs: set<int>) returns (top: int)
    requires vs != {}
    ensures top in vs && forall v :: v in vs ==> v <= top
    decreases |vs|
  {
    if forall x: int :: x !in vs {
      assert false;
    }
    var x: int :| x in vs;
    var rest := vs - {x};
    top := x;
    if rest != {} {
      var m := Largest(rest);
      top := if m < x then x else m;
    }
    forall v | v in vs ensures v <= top {
      assert v == x || v in rest;
    }
  }

  function Desc(vs: set<int>): (ds: seq<int>)
    ensures Descending(ds) && (forall v :: v in ds <==> v in vs) && |ds| == |vs|
    decreases |vs|
  {
    if vs == {} then [] else [Newest(vs)] + Desc(vs - {Newest(vs)})
  }

  // ---------------------------------------------------------------- running

  /** Scripts as functions: whether the script succeeds, and the schema after it. */
  datatype Machine = Machine(run: (Script, Schema) -> (bool, Schema))

  function Ups(m: Machine, s: Schema, ms: seq<Migration>): Schema {
    if ms == [] then s else m.run(ms[|ms| - 1].up, Ups(m, s, ms[..|ms| - 1])).1
  }

  /** Every up script succeeds in its turn. */
  ghost predicate Applies(m: Machine, s: Schema, ms: seq<Migration>) {
    ms == [] || (Applies(m, s, ms[..|ms| - 1]) && m.run(ms[|ms| - 1].up, Ups(m, s, ms[..|ms| - 1])).0)
  }

  function Downs(m: Machine, s: Schema, ms: seq<Migration>): Schema {
    if ms == [] then s else m.run(ms[|ms| - 1].down, Downs(m, s, ms[..|ms| - 1])).1
  }

  function Recorded(applied: map<int, string>, ms: seq<Migration>): map<int, string> {
    if ms == [] then applied else Recorded(applied, ms[..|ms| - 1])[ms[|ms| - 1].version := ms[|ms| - 1].name]
  }

  function VersionSet(ms: seq<Migration>): set<int> { set m | m in ms :: m.version }

  datatype MigrateError = ScriptFailed(version: int) | RecordFailed(version: int) | NoDefinition(version: int)

  class Database {
    var schema: Schema
    var applied: map<int, string>  // the tracking table
    const machine: Machine

    constructor (machine: Machine, schema: Schema)
      ensures this.machine == machine && this.schema == schema && applied == map[]
    {
      this.machine, this.schema, applied := machine, schema, map[];
    }

    /** Apply what is missing. `lost` is the number of the first INSERT that fails, if any. */
    method Up(all: seq<Migration>, lost: nat) returns (r: Result<seq<Migration>, MigrateError>, ghost done: nat)
      requires Ascending(all)
      modifies this
      ensures var pending := Missing(all, old(applied).Keys);
              && done <= |pending| && applied == Recorded(old(applied), pending[..done])
              && (r.Ok? ==> done == |pending| && r.value == pending && schema == Ups(machine, old(schema), pending)
                            && Applies(machine, old(schema), pending))
              && (r.Err? ==> done < |pending| && schema == Ups(machine, old(schema), pending[..done + 1]))
    {
      var pending := Pending(all, applied.Keys);
      var i := 0;
      done := 0;
      assert pending[..0] == [];
      while i < |pending|
        invariant 0 <= i <= |pending| && done == i
        invariant applied == Recorded(old(applied), pending[..i])
        invariant schema == Ups(machine, old(schema), pending[..i])
        invariant Applies(machine, old(schema), pending[..i])
      {
        assert pending[..i + 1][..i] == pending[..i];
        var outcome := machine.run(pending[i].up, schema);
        schema := outcome.1;
        if !outcome.0 {
          return Err(ScriptFailed(pending[i].version)), i;
        }
        if i == lost {
          return Err(RecordFailed(pending[i].version)), i;
        }
        applied := applied[pending[i].version := pending[i].name];
        i := i + 1;
        done := i;
      }
      assert pending[..|pending|] == pending;
      r := Ok(pending);
    }

    /** Roll back the `n` newest. `lost` is the number of the first DELETE that fails, if any. */
    method Down(all: seq<Migration>, n: int, lost: nat)
      returns (r: Result<seq<Migration>, MigrateError>, ghost plan: seq<Migration>, ghost done: nat)
      requires Ascending(all)
      modifies this
      ensures n <= 0 ==> r == Ok([]) && applied == old(applied) && schema == old(schema)
      ensures n > 0 && IsPlan(all, Desc(old(applied).Keys), n, plan) ==>
        && done <= |plan| && applied == old(applied) - VersionSet(plan[..done])
        && (r.Ok? ==> done == |plan| && r.value == plan && schema == Downs(machine, old(schema), plan))
        && (r.Err? ==> done < |plan| && schema == Downs(machine, old(schema), plan[..done + 1])
                       && (done == lost || !machine.run(plan[done].down, Downs(machine, old(schema), plan[..done])).0))
      ensures n > 0 && !IsPlan(all, Desc(old(applied).Keys), n, plan) ==>
        && r.Err? && r.error.NoDefinition? && applied == old(applied) && schema == old(schema)
        && Undefined(all, Desc(old(applied).Keys), n)
    {
      done, plan := 0, [];
      if n <= 0 {
        return Ok([]), [], 0;
      }
      var desc := Desc(applied.Keys);
      var planned := RollbackPlan(all, desc, n);
      if planned.Err? {
        PlanDefined(all, desc, n);
        return Err(NoDefinition(planned.error)), [], 0;
      }
      plan := planned.value;
      assert IsPlan(all, desc, n, plan);
      var failed;
      failed, done := RollBack(planned.value, lost);
      r := if failed.Some? then Err(failed.value) else Ok(planned.value);
    }

    /** Down script, then DELETE, for each of the plan in turn. */
    method RollBack(plan: seq<Migration>, lost: nat) returns (failed: Option<MigrateError>, ghost done: nat)
      modifies this
      ensures done <= |plan| && applied == old(applied) - VersionSet(plan[..done])
      ensures failed.None? ==> done == |plan| && schema == Downs(machine, old(schema), plan)
      ensures failed.Some? ==> done < |plan| && schema == Downs(machine, old(schema), plan[..done + 1])
      ensures failed.Some? ==> !failed.value.NoDefinition?
      ensures failed.Some? ==> done == lost || !machine.run(plan[done].down, Downs(machine, old(schema), plan[..done])).0
    {
      hide VersionSet;
      var i := 0;
      done := 0;
      NothingRolledBack(applied, plan);
      assert plan[..0] == [];
      while i < |plan|
        invariant 0 <= i <= |plan| && done == i
        invariant applied == old(applied) - VersionSet(plan[..i])
        invariant schema == Downs(machine, old(schema), plan[..i])
      {
        assert plan[..i + 1][..i] == plan[..i];
        var outcome := machine.run(plan[i].down, schema);
        schema := outcome.1;
        if !outcome.0 {
          return Some(ScriptFailed(plan[i].version)), i;
        }
        if i == lost {
          return Some(RecordFailed(plan[i].version)), i;
        }
        VersionSetSnoc(plan, i);
        applied := applied - {plan[i].version};
        i := i + 1;
        done := i;
      }
      assert plan[..|plan|] == plan;
      failed := None;
    }
  }

  lemma NothingRolledBack(applied: map<int, string>, ms: seq<Migration>)
    ensures applied - VersionSet(ms[..0]) == applied
  {
  }

  lemma PlanDefined(all: seq<Migration>, desc: seq<int>, n: nat)
    ensures (exists plan :: IsPlan(all, desc, n, plan)) ==> forall i :: 0 <= i < Min(n, |desc|) ==> Defined(all, desc[i])
  {
  }

  /** One of the `n` newest applied versions has no definition. */
  ghost predicate Undefined(all: seq<Migration>, desc: seq<int>, n: nat) {
    exists i :: 0 <= i < Min(n, |desc|) && !Defined(all, desc[i])
  }

  /** What RollbackPlan returns when it succeeds. */
  ghost predicate IsPlan(all: seq<Migration>, desc: seq<int>, n: nat, plan: seq<Migration>) {
    Versions(plan) == desc[..Min(n, |desc|)] && forall m :: m in plan ==> m in all
  }

  lemma VersionSetSnoc(ms: seq<Migration>, i: nat)
    requires i < |ms|
    ensures VersionSet(ms[..i + 1]) == VersionSet(ms[..i]) + {ms[i].version}
  {
  }

  // ---------------------------------------------------------------- up, then down

  function Reversed<T>(s: seq<T>): (r: seq<T>)
    ensures |r| == |s| && forall i :: 0 <= i < |s| ==> r[i] == s[|s| - 1 - i]
  {
    seq(|s|, i requires 0 <= i < |s| => s[|s| - 1 - i])
  }

  lemma HeadIn(ys: seq<int>)
    ensures ys != [] ==> ys[0] in ys
  {
  }

  lemma {:induction false} DescUnique(xs: seq<int>, ys: seq<int>)
    requires Descending(xs) && Descending(ys) && forall v :: v in xs <==> v in ys
    ensures xs == ys
    decreases |xs|
  {
    if xs == [] {
      HeadIn(ys);
    } else {
      assert xs[0] in xs && xs[0] in ys;
      assert ys[0] in ys && ys[0] in xs;
      var i :| 0 <= i < |xs| && xs[i] == ys[0];
      var j :| 0 <= j < |ys| && ys[j] == xs[0];
      assert xs[0] == ys[0];
      forall v ensures v in xs[1..] <==> v in ys[1..] {
        assert v in xs[1..] <==> v in xs && v != xs[0];
        assert v in ys[1..] <==> v in ys && v != ys[0];
      }
      DescUnique(xs[1..], ys[1..]);
      assert xs == [xs[0]] + xs[1..] && ys == [ys[0]] + ys[1..];
    }
  }

  /** Everything pending is newer than everything applied. */
  ghost predicate NewerThan(pending: seq<Migration>, applied: set<int>) {
    forall p, a :: p in pending && a in applied ==> p.version > a
  }

  lemma ReversedVersions(pending: seq<Migration>, v: int)
    ensures v in Reversed(Versions(pending)) <==> v in VersionSet(pending)
  {
    var news := Reversed(Versions(pending));
    if v in VersionSet(pending) {
      var m :| m in pending && m.version == v;
      var i :| 0 <= i < |pending| && pending[i] == m;
      assert news[|pending| - 1 - i] == v;
    }
    if v in news {
      var i :| 0 <= i < |news| && news[i] == v;
      assert pending[|news| - 1 - i] in pending;
    }
  }

  lemma NewestArePending(pending: seq<Migration>, applied: set<int>)
    requires Ascending(pending) && NewerThan(pending, applied)
    ensures Desc(applied + VersionSet(pending)) == Reversed(Versions(pending)) + Desc(applied)
  {
    hide Desc;
    var news, olds := Reversed(Versions(pending)), Desc(applied);
    var xs := news + olds;
    assert Descending(xs) by {
      forall i, j | 0 <= i < j < |xs| ensures xs[i] > xs[j] {
        if i < |news| && j >= |news| {
          assert olds[j - |news|] in applied && pending[|news| - 1 - i] in pending;
        }
      }
    }
    hide VersionSet, NewerThan, Ascending;
    forall v ensures v in xs <==> v in Desc(applied + VersionSet(pending)) {
      ReversedVersions(pending, v);
    }
    DescUnique(xs, Desc(applied + VersionSet(pending)));
  }

  lemma SameVersionSame(all: seq<Migration>, a: Migration, b: Migration)
    requires Ascending(all) && a in all && b in all && a.version == b.version
    ensures a == b
  {
  }

  /** Every down script takes back what its up script did wherever that succeeds. */
  ghost predicate Inverts(m: Machine, ms: seq<Migration>) {
    forall x, s :: x in ms && m.run(x.up, s).0 ==> m.run(x.down, m.run(x.up, s).1) == (true, s)
  }

  /** The schema after the first `k` of the down scripts is that of the up scripts but the last `k`. */
  lemma {:induction false} DownsUndoUps(m: Machine, s: Schema, ms: seq<Migration>, k: nat)
    requires Inverts(m, ms) && Applies(m, s, ms) && k <= |ms|
    ensures Downs(m, Ups(m, s, ms), Reversed(ms)[..k]) == Ups(m, s, ms[..|ms| - k])
    ensures k < |ms| ==> m.run(Reversed(ms)[k].down, Ups(m, s, ms[..|ms| - k])) == (true, Ups(m, s, ms[..|ms| - k - 1]))
  {
    if k == 0 {
      assert ms[..|ms|] == ms;
    } else {
      DownsUndoUps(m, s, ms, k - 1);
      assert Reversed(ms)[..k][..k - 1] == Reversed(ms)[..k - 1];
    }
    if k < |ms| {
      var n := |ms| - k;
      assert ms[..n][..n - 1] == ms[..n - 1];
      AppliesPrefix(m, s, ms, n);
      assert ms[n - 1] in ms;
    }
  }

  lemma {:induction false} AppliesPrefix(m: Machine, s: Schema, ms: seq<Migration>, n: nat)
    requires Applies(m, s, ms) && n <= |ms|
    ensures Applies(m, s, ms[..n])
    decreases |ms|
  {
    if n < |ms| {
      AppliesPrefix(m, s, ms[..|ms| - 1], n);
      assert ms[..|ms| - 1][..n] == ms[..n];
    } else {
      assert ms[..n] == ms;
    }
  }

  lemma {:induction false} RecordedKeys(applied: map<int, string>, ms: seq<Migration>)
    ensures Recorded(applied, ms).Keys == applied.Keys + VersionSet(ms)
    ensures forall v :: v in applied && v !in VersionSet(ms) ==> Recorded(applied, ms)[v] == applied[v]
  {
    if ms != [] {
      var n := |ms| - 1;
      RecordedKeys(applied, ms[..n]);
      VersionSetSnoc(ms, n);
      assert ms[..n + 1] == ms;
    }
  }

  /** If rolling back as many as were pending takes away exactly those, they were the newest. */
  lemma OnlyNewestGo(pending: seq<Migration>, applied: set<int>, desc: seq<int>, plan: seq<Migration>, done: nat)
    requires Descending(desc) && forall v :: v in desc <==> v in applied || v in VersionSet(pending)
    requires Versions(plan) == desc[..Min(|pending|, |desc|)] && done <= |plan|
    requires forall v :: v in applied ==> v !in VersionSet(plan[..done])
    requires forall p :: p in pending ==> p.version in VersionSet(plan[..done])
    ensures NewerThan(pending, applied)
  {
  }

  /** What Down leaves of the state `table`, `schema` when no DELETE fails. */
  ghost predicate Rolled(m: Machine, all: seq<Migration>, table: map<int, string>, schema: Schema, n: nat,
                         plan: seq<Migration>, done: nat, table2: map<int, string>, schema2: Schema) {
    var desc := Desc(table.Keys);
    if n == 0 then table2 == table && schema2 == schema
    else if !IsPlan(all, desc, n, plan) then table2 == table && Undefined(all, desc, n)
    else
      && done <= |plan| && table2 == table - VersionSet(plan[..done])
      && (if done == |plan| then schema2 == Downs(m, schema, plan)
          else !m.run(plan[done].down, Downs(m, schema, plan[..done])).0)
  }

  lemma FrontOf(news: seq<int>, olds: seq<int>, i: nat)
    requires i < |news|
    ensures (news + olds)[i] == news[i] && |news + olds| == |news| + |olds|
  {
  }

  lemma NewestAt(pending: seq<Migration>, applied: set<int>, i: nat)
    requires Ascending(pending) && NewerThan(pending, applied) && i < |pending|
    ensures var desc := Desc(applied + VersionSet(pending)); i < |desc| && desc[i] == pending[|pending| - 1 - i].version
  {
    hide *;
    NewestArePending(pending, applied);
    FrontOf(Reversed(Versions(pending)), Desc(applied), i);
  }

  lemma PlanAt(all: seq<Migration>, desc: seq<int>, pending: seq<Migration>, plan: seq<Migration>, i: nat)
    requires Ascending(all) && i < |pending| <= |desc| && IsPlan(all, desc, |pending|, plan)
    requires desc[i] == pending[|pending| - 1 - i].version && pending[|pending| - 1 - i] in all
    ensures |plan| == |pending| && plan[i] == pending[|pending| - 1 - i]
  {
    assert Versions(plan)[i] == desc[i];
    assert plan[i] in plan;
    hide *;
    SameVersionSame(all, plan[i], pending[|pending| - 1 - i]);
  }

  /** The plan of a complete roll back is the pending list, backwards. */
  lemma PlanIsReversed(all: seq<Migration>, applied: set<int>, pending: seq<Migration>, plan: seq<Migration>)
    requires Ascending(all) && Ascending(pending) && NewerThan(pending, applied)
    requires forall i :: 0 <= i < |pending| ==> pending[i] in all
    requires IsPlan(all, Desc(applied + VersionSet(pending)), |pending|, plan)
    ensures plan == Reversed(pending)
  {
    hide Desc, VersionSet, NewerThan, Ascending, IsPlan;
    var desc := Desc(applied + VersionSet(pending));
    if pending != [] {
      NewestAt(pending, applied, |pending| - 1);
      NewestAt(pending, applied, 0);
      PlanAt(all, desc, pending, plan, 0);
    } else {
      EmptyPlan(all, desc, plan);
    }
    forall i | 0 <= i < |pending| ensures |plan| == |pending| && plan[i] == pending[|pending| - 1 - i] {
      NewestAt(pending, applied, i);
      PlanAt(all, desc, pending, plan, i);
    }
  }

  lemma EmptyPlan(all: seq<Migration>, desc: seq<int>, plan: seq<Migration>)
    requires IsPlan(all, desc, 0, plan)
    ensures plan == []
  {
  }

  lemma PendingIsPlan(all: seq<Migration>, applied: set<int>)
    requires Ascending(all) && NewerThan(Missing(all, applied), applied)
    ensures var pending := Missing(all, applied); !Undefined(all, Desc(applied + VersionSet(pending)), |pending|)
  {
    var pending := Missing(all, applied);
    MissingIsExact(all, applied);
    hide Desc, Missing, VersionSet, NewerThan, Ascending;
    var desc := Desc(applied + VersionSet(pending));
    forall i | 0 <= i < Min(|pending|, |desc|) ensures Defined(all, desc[i]) {
      NewestAt(pending, applied, i);
      assert pending[|pending| - 1 - i] in pending;
    }
  }

  lemma NewerRollsBack(m: Machine, all: seq<Migration>, before: map<int, string>, start: Schema,
                       plan: seq<Migration>, done: nat, table: map<int, string>, schema: Schema)
    requires Ascending(all) && Inverts(m, all) && Applies(m, start, Missing(all, before.Keys))
    requires NewerThan(Missing(all, before.Keys), before.Keys)
    requires var pending := Missing(all, before.Keys);
             Rolled(m, all, Recorded(before, pending), Ups(m, start, pending), |pending|, plan, done, table, schema)
    ensures table == before && schema == start
  {
    var pending := Missing(all, before.Keys);
    MissingFacts(all, before.Keys);
    InvertsSome(m, all, pending);
    PendingIsPlan(all, before.Keys);
    NewerRollsBackFrom(m, all, before, start, pending, plan, done, table, schema);
  }

  lemma MissingFacts(all: seq<Migration>, applied: set<int>)
    requires Ascending(all)
    ensures Ascending(Missing(all, applied))
    ensures forall i :: 0 <= i < |Missing(all, applied)| ==> Missing(all, applied)[i] in all && Missing(all, applied)[i].version !in applied
  {
  }

  lemma InvertsSome(m: Machine, all: seq<Migration>, some: seq<Migration>)
    requires Inverts(m, all) && forall i :: 0 <= i < |some| ==> some[i] in all
    ensures Inverts(m, some)
  {
  }

  lemma NewerRollsBackFrom(m: Machine, all: seq<Migration>, before: map<int, string>, start: Schema, pending: seq<Migration>,
                           plan: seq<Migration>, done: nat, table: map<int, string>, schema: Schema)
    requires Ascending(all) && Ascending(pending) && NewerThan(pending, before.Keys)
    requires forall i :: 0 <= i < |pending| ==> pending[i] in all && pending[i].version !in before
    requires Inverts(m, pending) && Applies(m, start, pending)
    requires !Undefined(all, Desc(before.Keys + VersionSet(pending)), |pending|)
    requires Rolled(m, all, Recorded(before, pending), Ups(m, start, pending), |pending|, plan, done, table, schema)
    ensures table == before && schema == start
  {
    RecordedKeys(before, pending);
    NothingUp(m, start);
    if pending != [] {
      assert forall x :: x in pending ==> x.version !in before;
      hide *;
      RolledBackwards(m, all, before.Keys, pending, Recorded(before, pending), Ups(m, start, pending), plan, done, table, schema);
      NewerRollsBackAll(m, before, start, pending, done, table, schema);
    }
  }

  lemma RolledBackwards(m: Machine, all: seq<Migration>, applied: set<int>, pending: seq<Migration>, recorded: map<int, string>,
                        migrated: Schema, plan: seq<Migration>, done: nat, table: map<int, string>, schema: Schema)
    requires Ascending(all) && Ascending(pending) && NewerThan(pending, applied) && pending != []
    requires forall i :: 0 <= i < |pending| ==> pending[i] in all
    requires recorded.Keys == applied + VersionSet(pending) && !Undefined(all, Desc(applied + VersionSet(pending)), |pending|)
    requires Rolled(m, all, recorded, migrated, |pending|, plan, done, table, schema)
    ensures done <= |pending| && table == recorded - VersionSet(Reversed(pending)[..done])
    ensures if done == |pending| then schema == Downs(m, migrated, Reversed(pending))
            else !m.run(Reversed(pending)[done].down, Downs(m, migrated, Reversed(pending)[..done])).0
  {
    hide Desc, VersionSet, Undefined, NewerThan, Ascending, IsPlan, Downs;
    PlanIsReversed(all, applied, pending, plan);
  }

  /** The plan being the pending list backwards, every down script succeeds. */
  lemma NewerRollsBackAll(m: Machine, before: map<int, string>, start: Schema, pending: seq<Migration>, done: nat,
                          table: map<int, string>, schema: Schema)
    requires Inverts(m, pending) && Applies(m, start, pending) && done <= |pending|
    requires forall x :: x in pending ==> x.version !in before
    requires table == Recorded(before, pending) - VersionSet(Reversed(pending)[..done])
    requires var all := Ups(m, start, pending);
             if done == |pending| then schema == Downs(m, all, Reversed(pending))
             else !m.run(Reversed(pending)[done].down, Downs(m, all, Reversed(pending)[..done])).0
    ensures table == before && schema == start
  {
    DownsUndoUps(m, start, pending, done);
    NothingUp(m, start);
    Unrecorded(before, pending, Reversed(pending));
    hide *;
    assert Reversed(pending)[..|pending|] == Reversed(pending) && pending[..0] == [];
  }

  lemma NothingUp(m: Machine, s: Schema)
    ensures Ups(m, s, []) == s && forall t: map<int, string> :: Recorded(t, []) == t
  {
  }

  lemma Unrecorded(before: map<int, string>, pending: seq<Migration>, plan: seq<Migration>)
    requires plan == Reversed(pending) && forall m :: m in pending ==> m.version !in before
    ensures Recorded(before, pending) - VersionSet(plan) == before
  {
    RecordedKeys(before, pending);
    forall v ensures v in VersionSet(plan) <==> v in VersionSet(pending) {
      SameVersions(pending, v);
    }
    var table := Recorded(before, pending) - VersionSet(plan);
    forall v | v in before ensures v !in VersionSet(pending) {}
    assert table.Keys == before.Keys;
    assert forall v :: v in before ==> table[v] == before[v];
  }

  lemma SameVersions(ms: seq<Migration>, v: int)
    ensures v in VersionSet(Reversed(ms)) <==> v in VersionSet(ms)
  {
    if m :| m in ms && m.version == v {
      var i :| 0 <= i < |ms| && ms[i] == m;
      assert Reversed(ms)[|ms| - 1 - i] == m;
    }
    if m :| m in Reversed(ms) && m.version == v {
      var i :| 0 <= i < |ms| && Reversed(ms)[i] == m;
      assert ms[|ms| - 1 - i] == m;
    }
  }

  lemma RestoredMeansNewer(m: Machine, all: seq<Migration>, before: map<int, string>, start: Schema,
                           plan: seq<Migration>, done: nat, table: map<int, string>, schema: Schema)
    requires Ascending(all) && table == before
    requires var pending := Missing(all, before.Keys);
             Rolled(m, all, Recorded(before, pending), Ups(m, start, pending), |pending|, plan, done, table, schema)
    ensures NewerThan(Missing(all, before.Keys), before.Keys)
  {
    var pending := Missing(all, before.Keys);
    RecordedKeys(before, pending);
    MissingIsExact(all, before.Keys);
    var recorded := Recorded(before, pending);
    assert recorded.Keys == before.Keys + VersionSet(pending);
    if pending != [] {
      assert pending[0] in pending && pending[0].version in VersionSet(pending);
      assert pending[0].version in recorded.Keys && pending[0].version !in before;
      assert IsPlan(all, Desc(recorded.Keys), |pending|, plan);
      assert (recorded - VersionSet(plan[..done])).Keys == recorded.Keys - VersionSet(plan[..done]);
      hide Desc, Recorded, Ups, Missing;
      forall p | p in pending ensures p.version in VersionSet(plan[..done]) {
        assert p.version in VersionSet(pending) && p.version !in before;
      }
      OnlyNewestGo(pending, before.Keys, Desc(recorded.Keys), plan, done);
    }
  }

  /** `migrate up`, then `migrate down` by as many: the tracking table is as before exactly when
      everything that was pending is newer than everything that was applied, and then, with down
      scripts that invert their up scripts, so is the schema. */
  method UpThenDown(db: Database, all: seq<Migration>) returns (up: Result<seq<Migration>, MigrateError>)
    requires Ascending(all)
    modifies db
    ensures up.Ok? && Inverts(db.machine, all) ==>
      (db.applied == old(db.applied) <==> NewerThan(Missing(all, old(db.applied).Keys), old(db.applied).Keys))
    ensures up.Ok? && Inverts(db.machine, all) && db.applied == old(db.applied) ==> db.schema == old(db.schema)
  {
    hide Ascending, Missing, Desc, Undefined, Ups, Downs, Applies, NewerThan, Inverts, VersionSet, Recorded;
    ghost var before, start := db.applied, db.schema;
    ghost var pending := Missing(all, before.Keys);
    ghost var done;
    up, done := db.Up(all, |all|);
    if up.Err? {
      return;
    }
    assert pending[..|pending|] == pending;
    MissingIsShort(all, before.Keys);
    var r;
    ghost var plan;
    r, plan, done := db.Down(all, |up.value|, |all|);
    assert Rolled(db.machine, all, Recorded(before, pending), Ups(db.machine, start, pending), |pending|, plan, done, db.applied, db.schema);
    hide Rolled;
    if Inverts(db.machine, all) {
      RestoredExactlyWhenNewer(db.machine, all, before, start, plan, done, db.applied, db.schema);
    }
  }

  lemma RestoredExactlyWhenNewer(m: Machine, all: seq<Migration>, before: map<int, string>, start: Schema,
                                 plan: seq<Migration>, done: nat, table: map<int, string>, schema: Schema)
    requires Ascending(all) && Inverts(m, all) && Applies(m, start, Missing(all, before.Keys))
    requires var pending := Missing(all, before.Keys);
             Rolled(m, all, Recorded(before, pending), Ups(m, start, pending), |pending|, plan, done, table, schema)
    ensures table == before <==> NewerThan(Missing(all, before.Keys), before.Keys)
    ensures table == before ==> schema == start
  {
    hide *;
    if table == before {
      RestoredMeansNewer(m, all, before, start, plan, done, table, schema);
    }
    if NewerThan(Missing(all, before.Keys), before.Keys) {
      NewerRollsBack(m, all, before, start, plan, done, table, schema);
    }
  }

  lemma {:induction false} MissingIsShort(all: seq<Migration>, applied: set<int>)
    ensures |Missing(all, applied)| <= |all|
  {
    if all != [] { MissingIsShort(all[..|all| - 1], applied); }
  }
}
