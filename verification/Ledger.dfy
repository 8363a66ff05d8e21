/**
 Storage accounting. The usage counter of a user equals the live rows, plus what running
 processes still owe, plus what dead processes took with them - at every step of a run
 exactly when no step of the run was one of four named accidents.
 */
module Ledger {
  import opened Wrappers
  import opened MapSum
  import opened Lifecycle

  /** How far the usage counter is from the books. */
  ghost function Drift(s: Server, u: User): int {
    Total(s, u) - LiveBytes(s, u) - OwedBytes(s, u) - Leaked(s, u)
  }

  ghost predicate Balanced(s: Server) {
    forall u :: Drift(s, u) == 0
  }

  ghost function LiveSize(s: Server, o: Object): nat {
    if Live(s, o) then s.rows[o].size else 0
  }

  /** The four accidents: a rollback that does not take out a live row of its own size, a
      purge that takes out a live row, a recalculation while bytes are owed, and dropping
      the usage row of a user who still has live or owed bytes. */
  ghost function Fault(s: Server, e: Event, u: User): int {
    match e
    case RemoveRow(p, ok) =>
      if Enabled(s, e) && s.procs[p].obj.user == u
      then (if ok then LiveSize(s, s.procs[p].obj) else 0) - s.procs[p].size else 0
    case PurgeRow(p, ok) =>
      if Enabled(s, e) && ok && s.procs[p].batch[0].user == u then LiveSize(s, s.procs[p].batch[0]) else 0
    case Recalculate(users) => if u in users then 0 - OwedBytes(s, u) else 0
    case DropUsage(v) => if u == v then 0 - LiveBytes(s, u) - OwedBytes(s, u) else 0
    case _ => 0
  }

  ghost predicate Accident(s: Server, e: Event) {
    exists u :: Fault(s, e, u) != 0
  }

  // ---------------------------------------------------------------- what a change of state costs

  ghost function Owing(s: Server, p: Pid, u: User): nat {
    if p in s.procs then Owes(s.procs[p], u) else 0
  }

  lemma DebtsAfterPut(s: Server, t: Server, p: Pid, pr: Proc, u: User)
    requires t.procs == s.procs[p := pr]
    ensures OwedBytes(t, u) == OwedBytes(s, u) - Owing(s, p, u) + Owes(pr, u)
  {
    SumPut(Debts(s, u), p, Owes(pr, u));
    assert Debts(t, u) == Debts(s, u)[p := Owes(pr, u)];
  }

  lemma DebtsAfterEnd(s: Server, t: Server, p: Pid, u: User)
    requires t.procs == s.procs - {p}
    ensures OwedBytes(t, u) == OwedBytes(s, u) - Owing(s, p, u)
  {
    SumDrop(Debts(s, u), p);
    assert Debts(t, u) == Debts(s, u) - {p};
  }

  lemma DebtsSame(s: Server, t: Server, u: User)
    requires t.procs == s.procs
    ensures OwedBytes(t, u) == OwedBytes(s, u)
  {
  }

  lemma LiveSame(s: Server, t: Server, u: User)
    requires t.rows == s.rows
    ensures LiveBytes(t, u) == LiveBytes(s, u)
  {
    assert LiveSizes(t, u) == LiveSizes(s, u);
  }

  lemma LiveAfterInsert(s: Server, t: Server, o: Object, r: Row, u: User)
    requires o !in s.rows && r.deletedAt.None? && t.rows == s.rows[o := r]
    ensures LiveBytes(t, u) == LiveBytes(s, u) + (if o.user == u then r.size else 0)
  {
    if o.user == u {
      SumPut(LiveSizes(s, u), o, r.size);
      assert LiveSizes(t, u) == LiveSizes(s, u)[o := r.size];
    } else {
      assert LiveSizes(t, u) == LiveSizes(s, u);
    }
  }

  lemma LiveAfterRemove(s: Server, t: Server, o: Object, u: User)
    requires t.rows == s.rows - {o}
    ensures LiveBytes(t, u) == LiveBytes(s, u) - (if o.user == u then LiveSize(s, o) else 0)
  {
    SumDrop(LiveSizes(s, u), o);
    assert LiveSizes(t, u) == LiveSizes(s, u) - {o};
  }

  lemma LiveAfterSoftDelete(s: Server, t: Server, os: set<Object>, v: User, u: User)
    requires forall o :: o in os ==> o.user == v && Live(s, o)
    requires t.rows == SoftDelete(s, os).rows
    ensures LiveBytes(t, u) == LiveBytes(s, u) - (if u == v then Sum(SizesOf(s, os)) else 0)
  {
    if u == v {
      SumSplit(LiveSizes(s, u), os);
      assert LiveSizes(t, u) == LiveSizes(s, u) - os;
      assert Only(LiveSizes(s, u), os) == SizesOf(s, os);
    } else {
      assert LiveSizes(t, u) == LiveSizes(s, u);
    }
  }

  lemma OwesAtMostDebts(s: Server, p: Pid, u: User)
    ensures Owing(s, p, u) <= OwedBytes(s, u)
  {
    if p in s.procs {
      SumTake(Debts(s, u), p);
    }
  }

  // ---------------------------------------------------------------- one step

  /** Steps that leave rows and counters alone and move one process. */
  lemma DriftOfMove(s: Server, t: Server, p: Pid, pr: Proc, u: User)
    requires t.rows == s.rows && Total(t, u) == Total(s, u) && t.leaked == s.leaked
    requires t.procs == s.procs[p := pr] && Owing(s, p, u) == Owes(pr, u)
    ensures Drift(t, u) == Drift(s, u)
  {
    LiveSame(s, t, u);
    DebtsAfterPut(s, t, p, pr, u);
  }

  /** A process that ends owes nothing; one that dies leaves its debt as leaked bytes. */
  lemma DriftOfEnd(s: Server, t: Server, p: Pid, u: User)
    requires t.rows == s.rows && t.usage == s.usage && t.procs == s.procs - {p}
    requires Leaked(t, u) == Leaked(s, u) + Owing(s, p, u)
    ensures Drift(t, u) == Drift(s, u)
  {
    LiveSame(s, t, u);
    DebtsAfterEnd(s, t, p, u);
  }

  lemma DriftOfReserve(s: Server, p: Pid, u: User)
    requires Drift(s, u) == 0 && Enabled(s, Reserve(p))
    ensures Drift(Apply(s, Reserve(p)), u) == 0
  {
    hide LiveBytes, OwedBytes, LiveSizes, Debts, Sum, Limit;
    var t := Apply(s, Reserve(p));
    LiveSame(s, t, u);
    if p in t.procs {
      DebtsAfterPut(s, t, p, t.procs[p], u);
    } else {
      DebtsAfterEnd(s, t, p, u);
    }
  }

  lemma DriftOfInsert(s: Server, t: Server, p: Pid, pr: Proc, o: Object, r: Row, u: User)
    requires o !in s.rows && r.deletedAt.None? && t.rows == s.rows[o := r] && t.usage == s.usage && t.leaked == s.leaked
    requires t.procs == s.procs[p := pr]
    ensures Drift(t, u) == Drift(s, u) - (if o.user == u then r.size else 0) + Owing(s, p, u) - Owes(pr, u)
  {
    LiveAfterInsert(s, t, o, r, u);
    DebtsAfterPut(s, t, p, pr, u);
  }

  lemma DriftOfCreate(s: Server, p: Pid, ok: bool, u: User)
    requires Drift(s, u) == 0 && Enabled(s, Create(p, ok))
    ensures Drift(Apply(s, Create(p, ok)), u) == 0
  {
    hide Drift, Sum;
    var t := Apply(s, Create(p, ok));
    var o := s.procs[p].obj;
    if ok && o !in s.rows {
      DriftOfInsert(s, t, p, t.procs[p], o, t.rows[o], u);
    } else {
      DriftOfKeptRow(s, t, p, t.procs[p], u);
    }
  }

  lemma DriftOfRowRemoval(s: Server, t: Server, o: Object, p: Pid, pr: Proc, u: User)
    requires t.rows == s.rows - {o} && t.usage == s.usage && t.leaked == s.leaked
    requires t.procs == s.procs[p := pr]
    ensures Drift(t, u) == Drift(s, u) + (if o.user == u then LiveSize(s, o) else 0) + Owing(s, p, u) - Owes(pr, u)
  {
    LiveAfterRemove(s, t, o, u);
    DebtsAfterPut(s, t, p, pr, u);
  }

  lemma DriftOfKeptRow(s: Server, t: Server, p: Pid, pr: Proc, u: User)
    requires t.rows == s.rows && t.usage == s.usage && t.leaked == s.leaked
    requires t.procs == s.procs[p := pr]
    ensures Drift(t, u) == Drift(s, u) + Owing(s, p, u) - Owes(pr, u)
  {
    LiveSame(s, t, u);
    DebtsAfterPut(s, t, p, pr, u);
  }

  /** Soft deletion moves bytes from the live rows to the deleter's debt. */
  lemma DriftOfSoftDelete(s: Server, t: Server, p: Pid, v: User, os: set<Object>, atOnce: bool, u: User)
    requires Drift(s, u) == 0 && Owing(s, p, u) == 0
    requires forall o :: o in os ==> o.user == v && Live(s, o)
    requires t.rows == SoftDelete(s, os).rows && t.usage == s.usage && t.leaked == s.leaked
    requires t.procs == if os == {} then s.procs - {p} else s.procs[p := GivingBack(v, SizesOf(s, os), atOnce)]
    ensures Drift(t, u) == 0
  {
    LiveAfterSoftDelete(s, t, os, v, u);
    if os == {} {
      assert SizesOf(s, os) == map[];
      DebtsAfterEnd(s, t, p, u);
    } else {
      DebtsAfterPut(s, t, p, GivingBack(v, SizesOf(s, os), atOnce), u);
    }
  }

  lemma DriftOfRefund(s: Server, p: Pid, part: set<Object>, u: User)
    requires Drift(s, u) == 0 && Enabled(s, GiveBack(p, part)) && s.procs[p].Uploading?
    ensures Drift(Apply(s, GiveBack(p, part)), u) == 0
  {
    hide Sum;
    var t := Apply(s, GiveBack(p, part));
    LiveSame(s, t, u);
    OwesAtMostDebts(s, p, u);
    SubtractTotal(s, s.procs[p].obj.user, s.procs[p].size, u);
    DebtsAfterEnd(s, t, p, u);
  }

  lemma SubtractTotal(s: Server, v: User, n: nat, u: User)
    ensures Total(Subtract(s, v, n), u) ==
            if u == v && Total(s, u) >= n then Total(s, u) - n else if u == v then 0 else Total(s, u)
  {
  }

  lemma DriftOfReturn(s: Server, p: Pid, part: set<Object>, u: User)
    requires Drift(s, u) == 0 && Returns(s, p) && part <= s.procs[p].pending.Keys
    ensures Drift(GivingBackPart(s, p, part), u) == 0
  {
    hide Sum;
    var t := GivingBackPart(s, p, part);
    var v, pending := s.procs[p].user, s.procs[p].pending;
    SumSplit(pending, part);
    SumEmpty<Object>();
    OwesAtMostDebts(s, p, u);
    SubtractTotal(s, v, Sum(Only(pending, part)), u);
    LiveSame(s, t, u);
    PartReturned(s, t, p, part, u);
  }

  lemma PartReturned(s: Server, t: Server, p: Pid, part: set<Object>, u: User)
    requires Returns(s, p) && part <= s.procs[p].pending.Keys && t == GivingBackPart(s, p, part)
    ensures OwedBytes(t, u) == OwedBytes(s, u) - (if u == s.procs[p].user then Sum(Only(s.procs[p].pending, part)) else 0)
  {
    hide Sum;
    var rest := s.procs[p].pending - part;
    SumSplit(s.procs[p].pending, part);
    SumEmpty<Object>();
    if rest == map[] {
      DebtsAfterEnd(s, t, p, u);
    } else {
      DebtsAfterPut(s, t, p, s.procs[p].(pending := rest), u);
    }
  }

  lemma DriftOfRecalculate(s: Server, users: set<User>, u: User)
    requires Drift(s, u) == 0
    ensures Drift(Apply(s, Recalculate(users)), u) == Fault(s, Recalculate(users), u)
  {
    LiveSame(s, Apply(s, Recalculate(users)), u);
    DebtsSame(s, Apply(s, Recalculate(users)), u);
  }

  lemma DriftOfDropUsage(s: Server, v: User, u: User)
    requires Drift(s, u) == 0
    ensures Drift(Apply(s, DropUsage(v)), u) == Fault(s, DropUsage(v), u)
  {
    LiveSame(s, Apply(s, DropUsage(v)), u);
    DebtsSame(s, Apply(s, DropUsage(v)), u);
  }

  lemma DriftOfBeginUpload(s: Server, p: Pid, o: Object, n: nat, u: User)
    requires Drift(s, u) == 0 && Enabled(s, BeginUpload(p, o, n))
    ensures Drift(Apply(s, BeginUpload(p, o, n)), u) == 0
  {
    var t := Apply(s, BeginUpload(p, o, n));
    DriftOfMove(s, t, p, t.procs[p], u);
  }

  lemma DriftOfEnsureUsage(s: Server, p: Pid, u: User)
    requires Drift(s, u) == 0 && Enabled(s, EnsureUsage(p))
    ensures Drift(Apply(s, EnsureUsage(p)), u) == 0
  {
    var t := Apply(s, EnsureUsage(p));
    DriftOfMove(s, t, p, t.procs[p], u);
  }

  lemma DriftOfPut(s: Server, p: Pid, ok: bool, u: User)
    requires Drift(s, u) == 0 && Enabled(s, Put(p, ok))
    ensures Drift(Apply(s, Put(p, ok)), u) == 0
  {
    var t := Apply(s, Put(p, ok));
    DriftOfMove(s, t, p, t.procs[p], u);
  }

  lemma DriftOfRemoveBlob(s: Server, p: Pid, ok: bool, u: User)
    requires Drift(s, u) == 0 && Enabled(s, RemoveBlob(p, ok))
    ensures Drift(Apply(s, RemoveBlob(p, ok)), u) == 0
  {
    var t := Apply(s, RemoveBlob(p, ok));
    DriftOfMove(s, t, p, t.procs[p], u);
  }

  lemma DriftOfPurgeBlob(s: Server, p: Pid, ok: bool, u: User)
    requires Drift(s, u) == 0 && Enabled(s, PurgeBlob(p, ok))
    ensures Drift(Apply(s, PurgeBlob(p, ok)), u) == 0
  {
    var t := Apply(s, PurgeBlob(p, ok));
    DriftOfMove(s, t, p, t.procs[p], u);
  }

  lemma DriftOfBeginPurge(s: Server, p: Pid, k: Kind, before: Time, batch: seq<Object>, u: User)
    requires Drift(s, u) == 0 && Enabled(s, BeginPurge(p, k, before, batch))
    ensures Drift(Apply(s, BeginPurge(p, k, before, batch)), u) == 0
  {
    var t := Apply(s, BeginPurge(p, k, before, batch));
    DriftOfMove(s, t, p, t.procs[p], u);
  }

  lemma DriftOfFinish(s: Server, p: Pid, u: User)
    requires Drift(s, u) == 0 && Enabled(s, Finish(p))
    ensures Drift(Apply(s, Finish(p)), u) == 0
  {
    DriftOfEnd(s, Apply(s, Finish(p)), p, u);
  }

  lemma DriftOfEndPurge(s: Server, p: Pid, u: User)
    requires Drift(s, u) == 0 && Enabled(s, EndPurge(p))
    ensures Drift(Apply(s, EndPurge(p)), u) == 0
  {
    DriftOfEnd(s, Apply(s, EndPurge(p)), p, u);
  }

  lemma LeakedByDeath(s: Server, p: Pid, u: User)
    requires p in s.procs
    ensures Leaked(Dying(s, p), u) == Leaked(s, u) + Owing(s, p, u)
  {
    hide Sum;
    match s.procs[p] {
      case Uploading(_, _, _) =>
      case GivingBack(_, _, _) =>
      case Purging(_, _) =>
    }
  }

  lemma DriftOfCrash(s: Server, p: Pid, u: User)
    requires Drift(s, u) == 0 && Enabled(s, Crash(p))
    ensures Drift(Apply(s, Crash(p)), u) == 0
  {
    LeakedByDeath(s, p, u);
    DriftOfEnd(s, Dying(s, p), p, u);
  }

  lemma DriftOfPrune(s: Server, p: Pid, victims: set<Object>, ok: bool, u: User)
    requires Drift(s, u) == 0 && Enabled(s, Prune(p, victims, ok))
    ensures Drift(Apply(s, Prune(p, victims, ok)), u) == 0
  {
    var t := Apply(s, Prune(p, victims, ok));
    if ok {
      DriftOfSoftDelete(s, t, p, s.procs[p].obj.user, victims, false, u);
    } else {
      DriftOfMove(s, t, p, t.procs[p], u);
    }
  }

  lemma DriftOfRemoveRow(s: Server, p: Pid, ok: bool, u: User)
    requires Drift(s, u) == 0 && Enabled(s, RemoveRow(p, ok))
    ensures Drift(Apply(s, RemoveRow(p, ok)), u) == Fault(s, RemoveRow(p, ok), u)
  {
    var t := Apply(s, RemoveRow(p, ok));
    if ok {
      DriftOfRowRemoval(s, t, s.procs[p].obj, p, t.procs[p], u);
    } else {
      DriftOfKeptRow(s, t, p, t.procs[p], u);
    }
  }

  lemma DriftOfPurgeRow(s: Server, p: Pid, ok: bool, u: User)
    requires Drift(s, u) == 0 && Enabled(s, PurgeRow(p, ok))
    ensures Drift(Apply(s, PurgeRow(p, ok)), u) == Fault(s, PurgeRow(p, ok), u)
  {
    var t := Apply(s, PurgeRow(p, ok));
    if ok {
      DriftOfRowRemoval(s, t, s.procs[p].batch[0], p, t.procs[p], u);
    } else {
      DriftOfKeptRow(s, t, p, t.procs[p], u);
    }
  }

  lemma DriftOfDelete(s: Server, p: Pid, o: Object, u: User)
    requires Drift(s, u) == 0 && Enabled(s, BeginDelete(p, o))
    ensures Drift(Apply(s, BeginDelete(p, o)), u) == 0
  {
    DriftOfSoftDelete(s, Apply(s, BeginDelete(p, o)), p, o.user, {o}, false, u);
  }

  lemma DriftOfAccountDelete(s: Server, p: Pid, v: User, k: Kind, u: User)
    requires Drift(s, u) == 0 && Enabled(s, BeginAccountDelete(p, v, k))
    ensures Drift(Apply(s, BeginAccountDelete(p, v, k)), u) == 0
  {
    DriftOfSoftDelete(s, Apply(s, BeginAccountDelete(p, v, k)), p, v, LiveSet(s, v, k), true, u);
  }

  lemma DriftOfTick(s: Server, d: nat, u: User)
    ensures Drift(Apply(s, Tick(d)), u) == Drift(s, u)
  {
    LiveSame(s, Apply(s, Tick(d)), u);
    DebtsSame(s, Apply(s, Tick(d)), u);
  }

  /** From balanced books each step leaves exactly the drift of its accident. */
  lemma StepDrift(s: Server, e: Event, u: User)
    requires Drift(s, u) == 0
    ensures Drift(Apply(s, e), u) == Fault(s, e, u)
  {
    if Enabled(s, e) {
      match e
      case Tick(d) => DriftOfTick(s, d, u);
      case BeginUpload(p, o, n) => DriftOfBeginUpload(s, p, o, n, u);
      case EnsureUsage(p) => DriftOfEnsureUsage(s, p, u);
      case Reserve(p) => DriftOfReserve(s, p, u);
      case Create(p, ok) => DriftOfCreate(s, p, ok, u);
      case Put(p, ok) => DriftOfPut(s, p, ok, u);
      case Prune(p, victims, ok) => DriftOfPrune(s, p, victims, ok, u);
      case Finish(p) => DriftOfFinish(s, p, u);
      case RemoveRow(p, ok) => DriftOfRemoveRow(s, p, ok, u);
      case RemoveBlob(p, ok) => DriftOfRemoveBlob(s, p, ok, u);
      case GiveBack(p, part) =>
        if s.procs[p].Uploading? { DriftOfRefund(s, p, part, u); } else { DriftOfReturn(s, p, part, u); }
      case BeginDelete(p, o) => DriftOfDelete(s, p, o, u);
      case BeginAccountDelete(p, v, k) => DriftOfAccountDelete(s, p, v, k, u);
      case BeginPurge(p, k, before, batch) => DriftOfBeginPurge(s, p, k, before, batch, u);
      case PurgeBlob(p, ok) => DriftOfPurgeBlob(s, p, ok, u);
      case PurgeRow(p, ok) => DriftOfPurgeRow(s, p, ok, u);
      case EndPurge(p) => DriftOfEndPurge(s, p, u);
      case Crash(p) => DriftOfCrash(s, p, u);
      case Recalculate(users) => DriftOfRecalculate(s, users, u);
      case DropUsage(v) => DriftOfDropUsage(s, v, u);
    }
  }

  lemma StepBalance(s: Server, e: Event)
    requires Balanced(s)
    ensures Balanced(Apply(s, e)) <==> !Accident(s, e)
  {
    forall u ensures Drift(Apply(s, e), u) == Fault(s, e, u) {
      StepDrift(s, e, u);
    }
  }

  // ---------------------------------------------------------------- whole runs

  ghost predicate AccidentFree(s: Server, es: seq<Event>) {
    forall k :: 0 <= k < |es| ==> !Accident(Exec(s, es[..k]), es[k])
  }

  ghost predicate AlwaysBalanced(s: Server, es: seq<Event>) {
    forall k :: 0 <= k <= |es| ==> Balanced(Exec(s, es[..k]))
  }

  /** Quota conservation, exactly: along every interleaving, crashes included, the books
      balance at every step if and only if no step was an accident. */
  lemma Conservation(s: Server, es: seq<Event>)
    requires Balanced(s)
    ensures AlwaysBalanced(s, es) <==> AccidentFree(s, es)
  {
    if AlwaysBalanced(s, es) {
      forall k | 0 <= k < |es| ensures !Accident(Exec(s, es[..k]), es[k]) {
        assert Balanced(Exec(s, es[..k]));
        assert Balanced(Exec(s, es[..k + 1]));
        ExecStep(s, es, k);
        StepBalance(Exec(s, es[..k]), es[k]);
      }
    }
    if AccidentFree(s, es) {
      forall k | 0 <= k <= |es| ensures Balanced(Exec(s, es[..k])) {
        BalancedAt(s, es, k);
      }
    }
  }

  lemma {:induction false} BalancedAt(s: Server, es: seq<Event>, k: nat)
    requires Balanced(s) && AccidentFree(s, es) && k <= |es|
    ensures Balanced(Exec(s, es[..k]))
  {
    if k > 0 {
      BalancedAt(s, es, k - 1);
      ExecStep(s, es, k - 1);
      assert !Accident(Exec(s, es[..k - 1]), es[k - 1]);
      StepBalance(Exec(s, es[..k - 1]), es[k - 1]);
    }
  }
}
