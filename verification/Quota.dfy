/**
 The quota promise over whole runs: exact books, no oversell, no clamp, safe crashes, and a
 recalculation that repairs everything once the user is idle.
 */
module Quota {
  import opened Wrappers
  import opened MapSum
  import opened Lifecycle
  import opened Ledger
  import opened Custody

  /** Usage stays between what is stored and what the tier allows. */
  ghost predicate WithinLimits(s: Server) {
    forall u :: Total(s, u) <= Limit(s, u)
  }

  predicate MovesUsage(e: Event) {
    e.EnsureUsage? || e.Reserve? || e.GiveBack? || e.Recalculate? || e.DropUsage?
  }

  lemma UploadsKeepUsage(s: Server, e: Event)
    requires e.BeginUpload? || e.Create? || e.Put? || e.Prune? || e.Finish? || e.RemoveRow? || e.RemoveBlob?
    ensures Apply(s, e).tiers == s.tiers && Apply(s, e).usage == s.usage
  {
    hide Sum, Owes, Leaked, LiveSizes, LiveSet, Live, PruneSet, PurgePage, KnownBundleId, Only, Limit, LiveBytes, Subtract, SoftDelete, Returning, GivingBackPart, Dying;
  }

  lemma OthersKeepUsage(s: Server, e: Event)
    requires e.Tick? || e.BeginDelete? || e.BeginAccountDelete? || e.BeginPurge? || e.PurgeBlob? || e.PurgeRow? ||
             e.EndPurge? || e.Crash?
    ensures Apply(s, e).tiers == s.tiers && Apply(s, e).usage == s.usage
  {
    hide Sum, Owes, Leaked, LiveSizes, LiveSet, Live, PruneSet, PurgePage, KnownBundleId, Only, Limit, LiveBytes, Subtract, SoftDelete, Returning, GivingBackPart, Dying;
  }

  lemma ReservesWithinLimit(s: Server, p: Pid, u: User)
    requires Enabled(s, Reserve(p)) && Total(s, u) <= Limit(s, u)
    ensures Reserving(s, p).tiers == s.tiers && Total(Reserving(s, p), u) <= Limit(s, u)
  {
  }

  lemma GivesBackWithinLimit(s: Server, p: Pid, part: set<Object>, u: User)
    requires Enabled(s, GiveBack(p, part)) && Total(s, u) <= Limit(s, u)
    ensures Apply(s, GiveBack(p, part)).tiers == s.tiers && Total(Apply(s, GiveBack(p, part)), u) <= Limit(s, u)
  {
    hide Sum, Only;
    if s.procs[p].Uploading? {
      SubtractTotal(s, s.procs[p].obj.user, s.procs[p].size, u);
    } else {
      SubtractTotal(s, s.procs[p].user, Sum(Only(s.procs[p].pending, part)), u);
    }
  }

  lemma EnsuresWithinLimit(s: Server, p: Pid, u: User)
    requires Enabled(s, EnsureUsage(p)) && Total(s, u) <= Limit(s, u)
    ensures Apply(s, EnsureUsage(p)).tiers == s.tiers && Total(Apply(s, EnsureUsage(p)), u) <= Limit(s, u)
  {
  }

  lemma MoversKeepLimits(s: Server, e: Event, u: User)
    requires MovesUsage(e) && Total(s, u) <= Limit(s, u) && LiveBytes(s, u) <= Total(s, u)
    ensures Apply(s, e).tiers == s.tiers && Total(Apply(s, e), u) <= Limit(s, u)
  {
    hide Sum, LiveSizes, Reserving, GivingBackPart;
    if Enabled(s, e) {
      match e
      case Reserve(p) => ReservesWithinLimit(s, p, u);
      case GiveBack(p, part) => GivesBackWithinLimit(s, p, part, u);
      case EnsureUsage(p) => EnsuresWithinLimit(s, p, u);
      case Recalculate(users) => assert Total(Recalculated(s, users), u) == if u in users then LiveBytes(s, u) else Total(s, u);
      case DropUsage(v) =>
    }
  }

  lemma StepWithinLimits(s: Server, e: Event)
    requires WithinLimits(s) && Balanced(s)
    ensures WithinLimits(Apply(s, e))
  {
    hide Sum, Apply, LiveSizes, Enabled;
    var t := Apply(s, e);
    match e {
      case EnsureUsage(_) =>
      case Reserve(_) =>
      case GiveBack(_, _) =>
      case Recalculate(_) =>
      case DropUsage(_) =>
      case BeginUpload(_, _, _) => UploadsKeepUsage(s, e);
      case Create(_, _) => UploadsKeepUsage(s, e);
      case Put(_, _) => UploadsKeepUsage(s, e);
      case Prune(_, _, _) => UploadsKeepUsage(s, e);
      case Finish(_) => UploadsKeepUsage(s, e);
      case RemoveRow(_, _) => UploadsKeepUsage(s, e);
      case RemoveBlob(_, _) => UploadsKeepUsage(s, e);
      case _ => OthersKeepUsage(s, e);
    }
    forall u ensures Total(t, u) <= Limit(t, u) {
      assert Total(s, u) <= Limit(s, u) && Drift(s, u) == 0;
      if MovesUsage(e) { MoversKeepLimits(s, e, u); }
    }
  }

  /** `GREATEST(total_bytes - n, 0)` would have to cut. */
  ghost predicate Clamps(s: Server, e: Event) {
    e.GiveBack? && Enabled(s, e) &&
    if s.procs[e.p].Uploading?
    then Total(s, s.procs[e.p].obj.user) < s.procs[e.p].size
    else Total(s, s.procs[e.p].user) < Sum(Only(s.procs[e.p].pending, e.part))
  }

  lemma BalancedNeverClamps(s: Server, e: Event)
    requires Balanced(s)
    ensures !Clamps(s, e)
  {
    hide Sum;
    if e.GiveBack? && Enabled(s, e) {
      var pr := s.procs[e.p];
      var u := if pr.Uploading? then pr.obj.user else pr.user;
      assert Drift(s, u) == 0;
      OwesAtMostDebts(s, e.p, u);
      if pr.GivingBack? {
        SumSplit(pr.pending, e.part);
      }
    }
  }

  lemma {:induction false} LimitsAt(s: Server, es: seq<Event>, k: nat)
    requires Balanced(s) && WithinLimits(s) && AccidentFree(s, es) && k <= |es|
    ensures WithinLimits(Exec(s, es[..k]))
  {
    hide Sum, Apply;
    if k > 0 {
      LimitsAt(s, es, k - 1);
      BalancedAt(s, es, k - 1);
      ExecStep(s, es, k - 1);
      StepWithinLimits(Exec(s, es[..k - 1]), es[k - 1]);
    }
  }

  lemma CarefulRunsAreAccidentFree(s: Server, es: seq<Event>)
    requires Sound(s) && AllCareful(s, es)
    ensures AccidentFree(s, es)
  {
    forall k | 0 <= k < |es| ensures !Accident(Exec(s, es[..k]), es[k]) {
      SoundAt(s, es, k);
      assert Careful(Exec(s, es[..k]), es[k]);
      CarefulStepsAreNoAccidents(Exec(s, es[..k]), es[k]);
    }
  }

  /** The quota promise. At every step of every careful interleaving, crashes included: the
      counter is exactly live plus owed plus leaked bytes, it never exceeds the limit, so
      neither does live data, and no subtraction is ever cut off at zero. */
  lemma QuotaHolds(s: Server, es: seq<Event>, k: nat, u: User)
    requires Sound(s) && Balanced(s) && WithinLimits(s) && AllCareful(s, es) && k <= |es|
    ensures var t := Exec(s, es[..k]);
            && Total(t, u) == LiveBytes(t, u) + OwedBytes(t, u) + Leaked(t, u)
            && LiveBytes(t, u) <= Total(t, u) <= Limit(t, u)
            && (k < |es| ==> !Clamps(t, es[k]))
  {
    hide Sum, Apply;
    var t := Exec(s, es[..k]);
    CarefulRunsAreAccidentFree(s, es);
    BalancedAt(s, es, k);
    LimitsAt(s, es, k);
    assert Drift(t, u) == 0 && Total(t, u) <= Limit(t, u);
    if k < |es| {
      BalancedNeverClamps(t, es[k]);
    }
  }

  lemma {:induction false} LeakedAt(s: Server, es: seq<Event>, k: nat, u: User)
    requires k <= |es| && Leaked(s, u) == 0
    requires forall i :: 0 <= i < |es| ==> !es[i].Crash?
    ensures Leaked(Exec(s, es[..k]), u) == 0
  {
    if k > 0 {
      LeakedAt(s, es, k - 1, u);
      ExecStep(s, es, k - 1);
      LeakedOnlyByCrash(Exec(s, es[..k - 1]), es[k - 1], u);
    }
  }

  lemma LeakedOnlyByCrash(s: Server, e: Event, u: User)
    requires !e.Crash? && Leaked(s, u) == 0
    ensures Leaked(Apply(s, e), u) == 0
  {
    hide Sum, Owes, LiveSizes, LiveSet, Live, PruneSet, PurgePage, KnownBundleId, Only, Limit, LiveBytes, Subtract, SoftDelete, Returning, GivingBackPart, Dying;
  }

  /** Recalculation reads the rows only: it repairs any counter, and a second run is a no-op. */
  lemma RecalculationRepairs(s: Server, users: set<User>, u: User)
    requires u in users
    ensures var t := Apply(s, Recalculate(users));
            && Total(t, u) == LiveBytes(t, u) && Leaked(t, u) == 0
            && Apply(t, Recalculate(users)) == t
  {
    hide Sum, LiveSizes;
    var t := Recalculated(s, users);
    forall v ensures LiveBytes(t, v) == LiveBytes(s, v) {
      LiveSame(s, t, v);
    }
    assert Recalculated(t, users).usage == t.usage;
    assert Recalculated(t, users).leaked == t.leaked;
  }

  /** It misses bytes exactly when something of the user is still owed. */
  lemma RecalculationBalances(s: Server, users: set<User>)
    requires Balanced(s)
    ensures Balanced(Apply(s, Recalculate(users))) <==> forall u :: u in users ==> OwedBytes(s, u) == 0
  {
    StepBalance(s, Recalculate(users));
    if exists u :: u in users && OwedBytes(s, u) != 0 {
      var u :| u in users && OwedBytes(s, u) != 0;
      assert Fault(s, Recalculate(users), u) != 0;
    } else {
      assert forall u :: Fault(s, Recalculate(users), u) == 0;
    }
  }
}
