/**
 Reading a migration directory, and adding a new migration to it.
 */
module MigrationFiles {
  import opened Wrappers
  import opened Migrations
  import N = MigrationNames
  import Text

  datatype Entry = Entry(name: string, isDir: bool, content: Script)

  datatype Pair = Pair(name: string, up: Option<Script>, down: Option<Script>)

  datatype ParseError = BadName | ConflictingNames(version: int) | Duplicate(version: int) | Incomplete(version: int)

  predicate Counts(e: Entry) { !e.isDir && Text.HasSuffix(e.name, ".sql") }

  function FileOf(e: Entry): Option<N.FileName> {
    if !Counts(e) then None
    else match N.ParseFileName(e.name)
      case Ok(f) => Some(f)
      case Err(_) => None
  }

  ghost predicate Is(e: Entry, v: int, name: string, d: N.Direction) { FileOf(e) == Some(N.FileName(v, name, d)) }

  function ScriptOf(p: Pair, d: N.Direction): Option<Script> { if d.Up? then p.up else p.down }

  function ScriptIn(m: Migration, d: N.Direction): Script { if d.Up? then m.up else m.down }

  // ---------------------------------------------------------------- what a directory must look like

  ghost predicate Named(es: seq<Entry>) {
    forall i :: 0 <= i < |es| && Counts(es[i]) ==> FileOf(es[i]).Some?
  }

  /** Two files of one version carry one name and are not the same direction. */
  ghost predicate Agree(a: Entry, b: Entry) {
    FileOf(a).Some? && FileOf(b).Some? && FileOf(a).value.version == FileOf(b).value.version ==>
      FileOf(a).value.name == FileOf(b).value.name && FileOf(a).value.direction != FileOf(b).value.direction
  }

  ghost predicate Agreeing(es: seq<Entry>) {
    forall i, j :: 0 <= i < j < |es| ==> Agree(es[i], es[j])
  }

  ghost predicate Has(es: seq<Entry>, v: int, d: N.Direction) {
    exists i :: 0 <= i < |es| && FileOf(es[i]).Some? && FileOf(es[i]).value.version == v && FileOf(es[i]).value.direction == d
  }

  ghost predicate Complete(es: seq<Entry>) {
    forall v, d, f :: Has(es, v, d) ==> Has(es, v, f)
  }

  ghost predicate WellFormed(es: seq<Entry>) { Named(es) && Agreeing(es) && Complete(es) }

  // ---------------------------------------------------------------- the loop

  /** The entry is in its pair. */
  ghost predicate Filed(e: Entry, pairs: map<int, Pair>) {
    FileOf(e).Some? ==>
      var f := FileOf(e).value;
      f.version in pairs && pairs[f.version].name == f.name && ScriptOf(pairs[f.version], f.direction) == Some(e.content)
  }

  ghost predicate Source(es: seq<Entry>, v: int, name: string, d: N.Direction, script: Script) {
    exists i :: 0 <= i < |es| && Is(es[i], v, name, d) && es[i].content == script
  }

  /** What a pair holds comes from the entries. */
  ghost predicate Sourced(es: seq<Entry>, v: int, p: Pair) {
    && (p.up.Some? || p.down.Some?)
    && (p.up.Some? ==> Source(es, v, p.name, N.Up, p.up.value))
    && (p.down.Some? ==> Source(es, v, p.name, N.Down, p.down.value))
  }

  ghost predicate Tracks(es: seq<Entry>, pairs: map<int, Pair>) {
    && Named(es) && Agreeing(es)
    && (forall i :: 0 <= i < |es| ==> Filed(es[i], pairs))
    && (forall v :: v in pairs ==> Sourced(es, v, pairs[v]))
  }

  function Added(pairs: map<int, Pair>, f: N.FileName, script: Script): map<int, Pair> {
    var p := if f.version in pairs then pairs[f.version] else Pair(f.name, None, None);
    pairs[f.version := if f.direction.Up? then p.(up := Some(script)) else p.(down := Some(script))]
  }

  lemma SourceGrows(es: seq<Entry>, e: Entry, v: int, name: string, d: N.Direction, script: Script)
    requires Source(es, v, name, d, script)
    ensures Source(es + [e], v, name, d, script)
  {
    var i :| 0 <= i < |es| && Is(es[i], v, name, d) && es[i].content == script;
    assert (es + [e])[i] == es[i];
  }

  lemma SourcedGrows(es: seq<Entry>, e: Entry, v: int, p: Pair)
    requires Sourced(es, v, p)
    ensures Sourced(es + [e], v, p)
  {
    if p.up.Some? { SourceGrows(es, e, v, p.name, N.Up, p.up.value); }
    if p.down.Some? { SourceGrows(es, e, v, p.name, N.Down, p.down.value); }
  }

  lemma SkipTracks(es: seq<Entry>, e: Entry, pairs: map<int, Pair>)
    requires Tracks(es, pairs) && !Counts(e)
    ensures Tracks(es + [e], pairs)
  {
    forall v | v in pairs ensures Sourced(es + [e], v, pairs[v]) { SourcedGrows(es, e, v, pairs[v]); }
  }

  lemma AddAgrees(es: seq<Entry>, e: Entry, pairs: map<int, Pair>, f: N.FileName)
    requires Tracks(es, pairs) && FileOf(e) == Some(f)
    requires f.version in pairs ==> pairs[f.version].name == f.name && ScriptOf(pairs[f.version], f.direction).None?
    ensures Agreeing(es + [e])
  {
    var longer := es + [e];
    forall i, j | 0 <= i < j < |longer| ensures Agree(longer[i], longer[j]) {
      assert longer[i] == es[i];
      assert Filed(es[i], pairs);
      assert j < |es| ==> Agree(es[i], es[j]);
    }
  }

  lemma AddTracks(es: seq<Entry>, e: Entry, pairs: map<int, Pair>, f: N.FileName)
    requires Tracks(es, pairs) && FileOf(e) == Some(f)
    requires f.version in pairs ==> pairs[f.version].name == f.name && ScriptOf(pairs[f.version], f.direction).None?
    ensures Tracks(es + [e], Added(pairs, f, e.content))
  {
    hide FileOf;
    var more := Added(pairs, f, e.content);
    var longer := es + [e];
    AddAgrees(es, e, pairs, f);
    assert longer[|es|] == e && Is(e, f.version, f.name, f.direction);
    assert Source(longer, f.version, f.name, f.direction, e.content);
    forall i | 0 <= i < |longer| ensures Filed(longer[i], more) {
      assert i < |es| ==> longer[i] == es[i] && Filed(es[i], pairs);
    }
    forall v | v in more ensures Sourced(longer, v, more[v]) {
      if v in pairs { SourcedGrows(es, e, v, pairs[v]); }
    }
  }

  lemma ConflictIsMalformed(es: seq<Entry>, e: Entry, pairs: map<int, Pair>, f: N.FileName)
    requires Tracks(es, pairs) && FileOf(e) == Some(f) && f.version in pairs
    requires pairs[f.version].name != f.name || ScriptOf(pairs[f.version], f.direction).Some?
    ensures !Agreeing(es + [e])
  {
    var longer := es + [e];
    var p := pairs[f.version];
    assert Sourced(es, f.version, p);
    var d := if ScriptOf(p, f.direction).Some? then f.direction else if p.up.Some? then N.Up else N.Down;
    assert Source(es, f.version, p.name, d, ScriptOf(p, d).value);
    var i :| 0 <= i < |es| && Is(es[i], f.version, p.name, d);
    assert longer[i] == es[i] && longer[|es|] == e;
    assert !Agree(longer[i], longer[|es|]);
  }

  lemma AgreeingPrefix(es: seq<Entry>, n: nat)
    requires n <= |es| && !Agreeing(es[..n])
    ensures !Agreeing(es)
  {
    var i, j :| 0 <= i < j < n && !Agree(es[..n][i], es[..n][j]);
    assert !Agree(es[i], es[j]);
  }

  // ---------------------------------------------------------------- the result

  ghost predicate Matches(m: Migration, v: int, p: Pair) {
    m.version == v && m.name == p.name && p.up == Some(m.up) && p.down == Some(m.down)
  }

  /** The migrations are the files of the directory, two by two. */
  ghost predicate Holds(es: seq<Entry>, ms: seq<Migration>) {
    && (forall i :: 0 <= i < |es| && FileOf(es[i]).Some? ==> InSome(ms, FileOf(es[i]).value, es[i].content))
    && (forall m, d :: m in ms ==> Source(es, m.version, m.name, d, ScriptIn(m, d)))
  }

  ghost predicate InSome(ms: seq<Migration>, f: N.FileName, script: Script) {
    exists m :: m in ms && m.version == f.version && m.name == f.name && ScriptIn(m, f.direction) == script
  }

  lemma HasIsPair(es: seq<Entry>, pairs: map<int, Pair>, v: int, d: N.Direction)
    requires Tracks(es, pairs)
    ensures Has(es, v, d) <==> v in pairs && ScriptOf(pairs[v], d).Some?
  {
  }

  lemma PairsComplete(es: seq<Entry>, pairs: map<int, Pair>)
    requires Tracks(es, pairs)
    ensures Complete(es) <==> forall v :: v in pairs ==> pairs[v].up.Some? && pairs[v].down.Some?
  {
    forall v, d ensures Has(es, v, d) <==> v in pairs && ScriptOf(pairs[v], d).Some? { HasIsPair(es, pairs, v, d); }
    assert forall v :: v in pairs ==> Sourced(es, v, pairs[v]);
    hide Has, Tracks, Source;
    forall v | v in pairs && Complete(es) ensures pairs[v].up.Some? && pairs[v].down.Some? {
      assert Sourced(es, v, pairs[v]);
      assert Has(es, v, N.Up) || Has(es, v, N.Down);
      assert Has(es, v, N.Up) && Has(es, v, N.Down);
    }
  }

  lemma EntryInSome(e: Entry, pairs: map<int, Pair>, ms: seq<Migration>, m: Migration)
    requires FileOf(e).Some? && Filed(e, pairs) && m in ms && m.version == FileOf(e).value.version
    requires m.version in pairs && Matches(m, m.version, pairs[m.version])
    ensures InSome(ms, FileOf(e).value, e.content)
  {
  }

  lemma PairsHold(es: seq<Entry>, pairs: map<int, Pair>, ms: seq<Migration>)
    requires Tracks(es, pairs)
    requires forall m :: m in ms ==> m.version in pairs && Matches(m, m.version, pairs[m.version])
    requires forall v :: v in pairs ==> exists m :: m in ms && m.version == v
    ensures Holds(es, ms)
  {
    hide FileOf, InSome, Source, Named, Agreeing;
    forall i | 0 <= i < |es| && FileOf(es[i]).Some? ensures InSome(ms, FileOf(es[i]).value, es[i].content) {
      var f := FileOf(es[i]).value;
      assert Filed(es[i], pairs);
      var m :| m in ms && m.version == f.version;
      EntryInSome(es[i], pairs, ms, m);
    }
    forall m, d | m in ms ensures Source(es, m.version, m.name, d, ScriptIn(m, d)) {
      assert Sourced(es, m.version, pairs[m.version]);
    }
  }

  ghost predicate Rising(vs: seq<int>) { forall i, j :: 0 <= i < j < |vs| ==> vs[i] < vs[j] }

  method InsertVersion(sorted: seq<int>, v: int) returns (out: seq<int>)
    requires Rising(sorted) && v !in sorted
    ensures Rising(out) && forall w :: w in out <==> w in sorted || w == v
  {
    var k := 0;
    while k < |sorted| && sorted[k] < v
      invariant 0 <= k <= |sorted| && forall a :: 0 <= a < k ==> sorted[a] < v
    {
      k := k + 1;
    }
    out := sorted[..k] + [v] + sorted[k..];
    if k < |sorted| { assert sorted[k] in sorted; }
    InsertedRises(sorted, v, k);
    InsertedOnce(sorted, v, k);
  }

  lemma InsertedRises(sorted: seq<int>, v: int, k: nat)
    requires Rising(sorted) && k <= |sorted|
    requires (forall a :: 0 <= a < k ==> sorted[a] < v) && (k < |sorted| ==> sorted[k] > v)
    ensures Rising(sorted[..k] + [v] + sorted[k..])
  {
    var out := sorted[..k] + [v] + sorted[k..];
    forall i, j | 0 <= i < j < |out| ensures out[i] < out[j] {
      assert i < k ==> out[i] == sorted[i];
      assert j > k ==> out[j] == sorted[j - 1];
      assert i > k ==> out[i] == sorted[i - 1];
      assert k < |sorted| && j - 1 > k ==> sorted[k] < sorted[j - 1];
    }
  }

  lemma InsertedOnce(sorted: seq<int>, v: int, k: nat)
    requires k <= |sorted|
    ensures forall w :: w in sorted[..k] + [v] + sorted[k..] <==> w in sorted || w == v
  {
    assert sorted == sorted[..k] + sorted[k..];
  }

  method SortVersions(vs: seq<int>) returns (out: seq<int>)
    requires forall i, j :: 0 <= i < j < |vs| ==> vs[i] != vs[j]
    ensures Rising(out) && forall v :: v in out <==> v in vs
  {
    hide Rising;
    out := [];
    NoneRises();
    var i := 0;
    while i < |vs|
      invariant 0 <= i <= |vs| && Rising(out)
      invariant forall v :: v in out <==> v in vs[..i]
    {
      assert vs[..i + 1] == vs[..i] + [vs[i]];
      assert vs[i] !in vs[..i];
      out := InsertVersion(out, vs[i]);
      i := i + 1;
    }
    assert vs[..|vs|] == vs;
  }

  lemma NoneRises()
    ensures Rising([])
  {
  }

  /** Reads a directory: it succeeds exactly on well-formed ones, with the migrations they hold
      in ascending order. */
  method Parse(es: seq<Entry>) returns (r: Result<seq<Migration>, ParseError>)
    ensures r.Ok? <==> WellFormed(es)
    ensures r.Ok? ==> Ascending(r.value) && Holds(es, r.value)
  {
    hide FileOf, Tracks, Named, Agreeing, Complete, Holds, Counts, Ascending, N.ParseFileName, Added;
    var pairs: map<int, Pair> := map[];
    var order: seq<int> := [];
    NothingTracked();
    var i := 0;
    while i < |es|
      invariant 0 <= i <= |es| && Tracks(es[..i], pairs)
      invariant (forall v :: v in order <==> v in pairs) && forall a, b :: 0 <= a < b < |order| ==> order[a] != order[b]
    {
      var e := es[i];
      assert es[..i + 1] == es[..i] + [e];
      if !Counts(e) {
        SkipTracks(es[..i], e, pairs);
      } else {
        var parsed := N.ParseFileName(e.name);
        ParsedIs(e);
        if parsed.Err? {
          BadNameIsMalformed(es, i);
          return Err(BadName);
        }
        var f := parsed.value;
        if f.version in pairs && (pairs[f.version].name != f.name || ScriptOf(pairs[f.version], f.direction).Some?) {
          ConflictIsMalformed(es[..i], e, pairs, f);
          AgreeingPrefix(es, i + 1);
          return Err(if pairs[f.version].name != f.name then ConflictingNames(f.version) else Duplicate(f.version));
        }
        AddTracks(es[..i], e, pairs, f);
        AddedKeys(pairs, f, e.content);
        if f.version !in pairs { order := order + [f.version]; }
        pairs := Added(pairs, f, e.content);
      }
      i := i + 1;
    }
    assert es[..|es|] == es;
    r := Assemble(es, pairs, order);
  }

  lemma BadNameIsMalformed(es: seq<Entry>, i: nat)
    requires i < |es| && Counts(es[i]) && FileOf(es[i]).None?
    ensures !Named(es)
  {
  }

  lemma AddedKeys(pairs: map<int, Pair>, f: N.FileName, script: Script)
    ensures Added(pairs, f, script).Keys == pairs.Keys + {f.version}
  {
  }

  lemma NothingTracked()
    ensures Tracks([], map[])
  {
  }

  lemma ParsedIs(e: Entry)
    requires Counts(e)
    ensures FileOf(e) == match N.ParseFileName(e.name) { case Ok(f) => Some(f) case Err(_) => None }
  {
  }

  ghost predicate Joined(ms: seq<Migration>, versions: seq<int>, pairs: map<int, Pair>) {
    |ms| == |versions| && forall k :: 0 <= k < |ms| ==> versions[k] in pairs && Matches(ms[k], versions[k], pairs[versions[k]])
  }

  /** Up and down of each version; the first version that lacks one is an error. */
  method Join(pairs: map<int, Pair>, versions: seq<int>) returns (r: Result<seq<Migration>, ParseError>)
    requires forall v :: v in versions ==> v in pairs
    ensures r.Ok? ==> Joined(r.value, versions, pairs)
    ensures r.Err? ==> exists v :: v in pairs && (pairs[v].up.None? || pairs[v].down.None?)
  {
    var ms: seq<Migration> := [];
    var i := 0;
    while i < |versions|
      invariant 0 <= i <= |versions| && |ms| == i
      invariant forall k :: 0 <= k < i ==> versions[k] in pairs && Matches(ms[k], versions[k], pairs[versions[k]])
    {
      var v := versions[i];
      var p := pairs[v];
      if p.up.None? || p.down.None? {
        return Err(Incomplete(v));
      }
      ms := ms + [Migration(v, p.name, p.up.value, p.down.value)];
      i := i + 1;
    }
    r := Ok(ms);
  }

  lemma JoinedIsResult(es: seq<Entry>, pairs: map<int, Pair>, versions: seq<int>, ms: seq<Migration>)
    requires Tracks(es, pairs) && Rising(versions) && (forall v :: v in versions <==> v in pairs) && Joined(ms, versions, pairs)
    ensures Ascending(ms) && Holds(es, ms)
    ensures forall v :: v in pairs ==> pairs[v].up.Some? && pairs[v].down.Some?
  {
    hide Tracks, Holds;
    forall v | v in pairs ensures pairs[v].up.Some? && pairs[v].down.Some? && exists m :: m in ms && m.version == v {
      assert v in versions;
      var k :| 0 <= k < |versions| && versions[k] == v;
      assert ms[k] in ms && Matches(ms[k], v, pairs[v]);
    }
    forall m | m in ms ensures m.version in pairs && Matches(m, m.version, pairs[m.version]) {
      var k :| 0 <= k < |ms| && ms[k] == m;
      assert Matches(ms[k], versions[k], pairs[versions[k]]);
    }
    assert Ascending(ms) by {
      forall i, j | 0 <= i < j < |ms| ensures ms[i].version < ms[j].version {
        assert Matches(ms[i], versions[i], pairs[versions[i]]) && Matches(ms[j], versions[j], pairs[versions[j]]);
      }
    }
    PairsHold(es, pairs, ms);
  }

  lemma TrackedIsNamed(es: seq<Entry>, pairs: map<int, Pair>)
    requires Tracks(es, pairs)
    ensures Named(es) && Agreeing(es)
  {
  }

  method Assemble(es: seq<Entry>, pairs: map<int, Pair>, order: seq<int>) returns (r: Result<seq<Migration>, ParseError>)
    requires Tracks(es, pairs) && (forall v :: v in order <==> v in pairs)
    requires forall a, b :: 0 <= a < b < |order| ==> order[a] != order[b]
    ensures r.Ok? <==> WellFormed(es)
    ensures r.Ok? ==> Ascending(r.value) && Holds(es, r.value)
  {
    hide Tracks, Complete, Holds, Named, Agreeing, Rising, Joined, Ascending;
    PairsComplete(es, pairs);
    TrackedIsNamed(es, pairs);
    var versions := SortVersions(order);
    r := Join(pairs, versions);
    if r.Ok? {
      JoinedIsResult(es, pairs, versions, r.value);
    }
  }

  // ---------------------------------------------------------------- a new migration

  /** Adding the two files that Create names keeps the directory readable, provided their version
      is new to it. */
  lemma NewFilesKeepWellFormed(es: seq<Entry>, up: Entry, down: Entry, version: int, name: string)
    requires WellFormed(es) && Is(up, version, name, N.Up) && Is(down, version, name, N.Down)
    requires forall i :: 0 <= i < |es| && FileOf(es[i]).Some? ==> FileOf(es[i]).value.version != version
    ensures WellFormed(es + [up, down])
  {
    hide FileOf;
    var all := es + [up, down];
    assert all[|es|] == up && all[|es| + 1] == down;
    forall i, j | 0 <= i < j < |all| ensures Agree(all[i], all[j]) {
      assert i < |es| ==> all[i] == es[i];
      assert j < |es| ==> all[j] == es[j] && Agree(es[i], es[j]);
    }
    forall i | 0 <= i < |all| && Counts(all[i]) ensures FileOf(all[i]).Some? {
      assert i < |es| ==> all[i] == es[i];
    }
    forall v, d, f | Has(all, v, d) ensures Has(all, v, f) {
      HasMore(es, up, down, version, name, v, d);
      HasMore(es, up, down, version, name, v, f);
    }
  }

  lemma HasMore(es: seq<Entry>, up: Entry, down: Entry, version: int, name: string, v: int, d: N.Direction)
    requires Is(up, version, name, N.Up) && Is(down, version, name, N.Down)
    ensures Has(es + [up, down], v, d) <==> Has(es, v, d) || v == version
  {
    hide FileOf;
    var all := es + [up, down];
    assert all[|es|] == up && all[|es| + 1] == down;
    if Has(es, v, d) {
      var i :| 0 <= i < |es| && FileOf(es[i]).Some? && FileOf(es[i]).value.version == v && FileOf(es[i]).value.direction == d;
      assert all[i] == es[i];
    }
    if Has(all, v, d) && v != version {
      var i :| 0 <= i < |all| && FileOf(all[i]).Some? && FileOf(all[i]).value.version == v && FileOf(all[i]).value.direction == d;
      assert all[i] == es[i];
    }
  }

  // ---------------------------------------------------------------- writing files

  predicate FileNamed(es: seq<Entry>, name: string) {
    exists i :: 0 <= i < |es| && !es[i].isDir && es[i].name == name
  }

  /** No directory is in the way. */
  predicate Writable(es: seq<Entry>, name: string) {
    forall i :: 0 <= i < |es| && es[i].name == name ==> !es[i].isDir
  }

  /** A file of that name is overwritten. */
  function Written(es: seq<Entry>, e: Entry): (fs: seq<Entry>)
    ensures forall i :: 0 <= i < |es| ==>
      i < |fs| && fs[i].name == es[i].name && (!e.isDir ==> fs[i].isDir == es[i].isDir)
    ensures if FileNamed(es, e.name) then |fs| == |es| else fs == es + [e]
  {
    if FileNamed(es, e.name)
    then seq(|es|, i requires 0 <= i < |es| => if !es[i].isDir && es[i].name == e.name then e else es[i])
    else es + [e]
  }

  /** Whether a directory is readable depends on the names of its files alone. */
  lemma SameNamesSameForm(es: seq<Entry>, fs: seq<Entry>)
    requires |es| == |fs| && WellFormed(es)
    requires forall i :: 0 <= i < |es| ==> FileOf(fs[i]) == FileOf(es[i]) && Counts(fs[i]) == Counts(es[i])
    ensures WellFormed(fs)
  {
    hide FileOf, Counts;
    forall v, d, f | Has(fs, v, d) ensures Has(fs, v, f) {
      var i :| 0 <= i < |fs| && FileOf(fs[i]).Some? && FileOf(fs[i]).value.version == v && FileOf(fs[i]).value.direction == d;
      assert Has(es, v, d) by { assert FileOf(es[i]) == FileOf(fs[i]); }
      assert Has(es, v, f);
      var k :| 0 <= k < |es| && FileOf(es[k]).Some? && FileOf(es[k]).value.version == v && FileOf(es[k]).value.direction == f;
      assert FileOf(fs[k]) == FileOf(es[k]);
    }
    forall i, j | 0 <= i < j < |fs| ensures Agree(fs[i], fs[j]) {
      assert Agree(es[i], es[j]);
    }
  }

  lemma FileOfByName(a: Entry, b: Entry)
    requires a.name == b.name && a.isDir == b.isDir
    ensures FileOf(a) == FileOf(b) && Counts(a) == Counts(b)
  {
  }

  lemma WrittenKeepsFiles(es: seq<Entry>, e: Entry)
    requires !e.isDir
    ensures forall i :: 0 <= i < |es| ==> FileOf(Written(es, e)[i]) == FileOf(es[i]) && Counts(Written(es, e)[i]) == Counts(es[i])
    ensures forall name :: FileNamed(Written(es, e), name) <==> FileNamed(es, name) || name == e.name
  {
    var fs := Written(es, e);
    forall i | 0 <= i < |es| ensures FileOf(fs[i]) == FileOf(es[i]) && Counts(fs[i]) == Counts(es[i]) {
      FileOfByName(fs[i], es[i]);
    }
    forall name ensures FileNamed(fs, name) <==> FileNamed(es, name) || name == e.name {
      if FileNamed(es, name) {
        var i :| 0 <= i < |es| && !es[i].isDir && es[i].name == name;
        assert !fs[i].isDir && fs[i].name == name;
      }
      if name == e.name && !FileNamed(es, name) {
        assert fs[|es|] == e;
      }
      if FileNamed(fs, name) && name != e.name {
        var i :| 0 <= i < |fs| && !fs[i].isDir && fs[i].name == name;
        assert i < |es| && !es[i].isDir && es[i].name == name;
      }
    }
  }

  /** A second file of the same version and direction makes a directory unreadable. */
  lemma Clash(es: seq<Entry>, i: nat, j: nat, v: int, d: N.Direction)
    requires i < j < |es| && FileOf(es[i]).Some? && FileOf(es[j]).Some?
    requires FileOf(es[i]).value.version == v == FileOf(es[j]).value.version
    requires FileOf(es[i]).value.direction == d == FileOf(es[j]).value.direction
    ensures !WellFormed(es)
  {
    assert !Agree(es[i], es[j]);
  }

  lemma NamedIsTaken(es: seq<Entry>, e: Entry, v: int, name: string, d: N.Direction)
    requires Is(e, v, name, d) && FileNamed(es, e.name)
    ensures Has(es, v, d) && Taken(es, v)
  {
    var i :| 0 <= i < |es| && !es[i].isDir && es[i].name == e.name;
    FileOfByName(es[i], e);
  }

  lemma TakenHas(es: seq<Entry>, v: int, d: N.Direction)
    requires WellFormed(es) && Taken(es, v)
    ensures Has(es, v, d)
  {
    var i :| 0 <= i < |es| && FileOf(es[i]).Some? && FileOf(es[i]).value.version == v;
    assert Has(es, v, FileOf(es[i]).value.direction);
  }

  lemma Doubled(es: seq<Entry>, fs: seq<Entry>, gs: seq<Entry>, e: Entry, version: int, d: N.Direction)
    requires WellFormed(es) && Taken(es, version) && |fs| == |es| && gs == fs + [e]
    requires FileOf(e).Some? && FileOf(e).value.version == version && FileOf(e).value.direction == d
    requires forall i :: 0 <= i < |es| ==> FileOf(fs[i]) == FileOf(es[i])
    ensures !WellFormed(gs)
  {
    hide FileOf;
    TakenHas(es, version, d);
    var k :| 0 <= k < |es| && FileOf(es[k]).Some? && FileOf(es[k]).value.version == version && FileOf(es[k]).value.direction == d;
    assert gs[k] == fs[k] && gs[|es|] == e;
    Clash(gs, k, |es|, version, d);
  }

  lemma HasOneMore(es: seq<Entry>, e: Entry, v: int, d: N.Direction)
    requires Has(es + [e], v, d)
    ensures Has(es, v, d) || (FileOf(e).Some? && FileOf(e).value.direction == d)
  {
    hide FileOf;
    var fs := es + [e];
    var k :| 0 <= k < |fs| && FileOf(fs[k]).Some? && FileOf(fs[k]).value.version == v && FileOf(fs[k]).value.direction == d;
    assert if k < |es| then fs[k] == es[k] else fs[k] == e;
  }

  /** A version with only one of its two files makes a directory unreadable. */
  lemma HalfIsMalformed(es: seq<Entry>, up: Entry, version: int, name: string)
    requires Is(up, version, name, N.Up) && !Taken(es, version)
    ensures !WellFormed(es + [up])
  {
    hide FileOf, Named, Agreeing;
    assert (es + [up])[|es|] == up && Has(es + [up], version, N.Up);
    if Has(es + [up], version, N.Down) { HasOneMore(es, up, version, N.Down); }
    assert !Has(es, version, N.Down);
  }

  /** After the first write alone the directory is readable exactly if the file was there. */
  lemma OneWriteExactly(es: seq<Entry>, up: Entry, version: int, name: string)
    requires WellFormed(es) && Is(up, version, name, N.Up)
    ensures WellFormed(Written(es, up)) <==> FileNamed(es, up.name)
  {
    WrittenKeepsFiles(es, up);
    hide WellFormed, FileOf, Counts, Taken, FileNamed;
    if FileNamed(es, up.name) {
      SameNamesSameForm(es, Written(es, up));
    } else if Taken(es, version) {
      Doubled(es, es, es + [up], up, version, N.Up);
    } else {
      HalfIsMalformed(es, up, version, name);
    }
  }

  /** After both writes it is readable exactly if the version was new or both files were there. */
  lemma TwoWritesExactly(es: seq<Entry>, up: Entry, down: Entry, version: int, name: string)
    requires WellFormed(es) && Is(up, version, name, N.Up) && Is(down, version, name, N.Down)
    ensures WellFormed(Written(Written(es, up), down)) <==>
            !Taken(es, version) || (FileNamed(es, up.name) && FileNamed(es, down.name))
  {
    var fs := Written(es, up);
    var gs := Written(fs, down);
    WrittenKeepsFiles(es, up);
    WrittenKeepsFiles(fs, down);
    if up.name == down.name { FileOfByName(up, down); }
    if FileNamed(es, up.name) {
      NamedIsTaken(es, up, version, name, N.Up);
      if FileNamed(es, down.name) {
        SameNamesSameForm(es, fs);
        SameNamesSameForm(fs, gs);
      } else {
        Doubled(es, fs, gs, down, version, N.Down);
      }
    } else if Taken(es, version) {
      TakenHas(es, version, N.Up);
      hide FileOf;
      var k :| 0 <= k < |es| && FileOf(es[k]).Some? && FileOf(es[k]).value.version == version && FileOf(es[k]).value.direction == N.Up;
      assert fs[|es|] == up;
      Clash(gs, k, |es|, version, N.Up);
    } else {
      if FileNamed(es, down.name) { NamedIsTaken(es, down, version, name, N.Down); }
      assert gs == es + [up, down];
      NewFilesKeepWellFormed(es, up, down, version, name);
    }
  }

  // ---------------------------------------------------------------- creating a migration

  datatype CreateError = BadMigrationName | BadDirectory(reason: ParseError) | WriteFailed

  /** Newer than everything in the directory. */
  ghost predicate Above(es: seq<Entry>, version: int) {
    forall i :: 0 <= i < |es| && FileOf(es[i]).Some? ==> FileOf(es[i]).value.version < version
  }

  ghost predicate Taken(es: seq<Entry>, version: int) {
    exists i :: 0 <= i < |es| && FileOf(es[i]).Some? && FileOf(es[i]).value.version == version
  }

  lemma VersionsInRange(es: seq<Entry>, ms: seq<Migration>)
    requires Holds(es, ms)
    ensures forall i :: 0 <= i < |Versions(ms)| ==> N.MIN_INT64 <= Versions(ms)[i] <= N.MAX_INT64
    ensures forall v :: v in Versions(ms) <==> Taken(es, v)
  {
    forall i | 0 <= i < |ms| ensures N.MIN_INT64 <= ms[i].version <= N.MAX_INT64 && Taken(es, ms[i].version) {
      assert Source(es, ms[i].version, ms[i].name, N.Up, ScriptIn(ms[i], N.Up));
    }
    forall v ensures v in Versions(ms) <==> Taken(es, v) {
      if Taken(es, v) {
        var i :| 0 <= i < |es| && FileOf(es[i]).Some? && FileOf(es[i]).value.version == v;
        assert InSome(ms, FileOf(es[i]).value, es[i].content);
        var m :| m in ms && m.version == v;
        var k :| 0 <= k < |ms| && ms[k] == m;
        assert Versions(ms)[k] == v;
      }
    }
  }

  lemma AboveMeansFresh(es: seq<Entry>, ms: seq<Migration>)
    requires Holds(es, ms)
    ensures Above(es, N.Next(N.MaxVersion(Versions(ms)))) <==> !Taken(es, N.MAX_INT64)
  {
    VersionsInRange(es, ms);
    var vs := Versions(ms);
    var next := N.Next(N.MaxVersion(vs));
    N.NextVersionIsFresh(vs);
    hide FileOf, Holds, N.Next, N.MaxVersion;
    if Above(es, next) {
      forall i | 0 <= i < |vs| ensures vs[i] < next {
        assert vs[i] in vs && Taken(es, vs[i]);
      }
    }
    if forall i :: 0 <= i < |vs| ==> vs[i] < next {
      forall i | 0 <= i < |es| && FileOf(es[i]).Some? ensures FileOf(es[i]).value.version < next {
        assert Taken(es, FileOf(es[i]).value.version);
        assert FileOf(es[i]).value.version in vs;
      }
    }
  }

  lemma NextTaken(es: seq<Entry>, ms: seq<Migration>)
    requires Holds(es, ms)
    ensures Taken(es, N.Next(N.MaxVersion(Versions(ms)))) <==> Taken(es, N.MAX_INT64) && Taken(es, N.MIN_INT64)
  {
    hide Taken, Holds, N.Next, N.MaxVersion;
    VersionsInRange(es, ms);
    N.NextVersionIsTaken(Versions(ms));
  }

  /** The two files of a new migration: they parse back to the sanitized name and one version,
      which is above all others exactly when the largest 64-bit version is not taken, and in use
      only if the smallest is taken, too. `after` is the directory as the call leaves it. */
  method Create(es: seq<Entry>, raw: string, lower: char -> char, isSpace: char -> bool, upTemplate: Script,
                downTemplate: Script, upFails: bool, downFails: bool)
    returns (r: Result<(string, string), CreateError>, after: seq<Entry>, ghost version: int, ghost up: Entry, ghost down: Entry)
    ensures r == Err(BadMigrationName) <==> N.Sanitized(raw, lower, isSpace) == ""
    ensures r.Err? && r.error.BadDirectory? <==> N.Sanitized(raw, lower, isSpace) != "" && !WellFormed(es)
    ensures r.Err? && !r.error.WriteFailed? ==> after == es
    ensures r.Ok? || r.error.WriteFailed? ==>
      && Is(up, version, N.Sanitized(raw, lower, isSpace), N.Up) && Is(down, version, N.Sanitized(raw, lower, isSpace), N.Down)
      && (Above(es, version) <==> !Taken(es, N.MAX_INT64))
    ensures r.Ok? || r.error.WriteFailed? ==>
      (r.Ok? <==> !upFails && !downFails && Writable(es, up.name) && Writable(es, down.name))
    ensures up.content == upTemplate && down.content == downTemplate
    ensures r.Ok? ==> r.value == (up.name, down.name) && after == Written(Written(es, up), down)
    ensures r.Ok? ==>
      (WellFormed(after) <==> !(Taken(es, N.MAX_INT64) && Taken(es, N.MIN_INT64))
                              || (FileNamed(es, up.name) && FileNamed(es, down.name)))
    ensures r == Err(WriteFailed) ==> after == if upFails || !Writable(es, up.name) then es else Written(es, up)
    ensures r == Err(WriteFailed) ==> (WellFormed(after) <==> upFails || !Writable(es, up.name) || FileNamed(es, up.name))
  {
    hide WellFormed, Holds, N.Sanitized, N.ParseFileName, N.Next, N.MaxVersion, Above, Taken, FileNamed;
    version, after := 0, es;
    up, down := Entry("", false, upTemplate), Entry("", false, downTemplate);
    var name := N.SanitizeName(raw, lower, isSpace);
    if name.Err? {
      r := Err(BadMigrationName);
      return;
    }
    var all := Parse(es);
    if all.Err? {
      r := Err(BadDirectory(all.error));
      return;
    }
    VersionsInRange(es, all.value);
    AboveMeansFresh(es, all.value);
    NextTaken(es, all.value);
    var names;
    names, version := N.CreateNames(Versions(all.value), raw, lower, isSpace);
    var first, second := Entry(names.value.0, false, upTemplate), Entry(names.value.1, false, downTemplate);
    up, down := first, second;
    OneWriteExactly(es, up, version, name.value);
    TwoWritesExactly(es, up, down, version, name.value);
    SecondWritable(es, up, down, version, name.value);
    if upFails || !Writable(es, first.name) {
      r := Err(WriteFailed);
      return;
    }
    after := Written(es, first);
    if downFails || !Writable(after, second.name) {
      r := Err(WriteFailed);
      return;
    }
    after := Written(after, second);
    r := Ok((first.name, second.name));
  }

  lemma SecondWritable(es: seq<Entry>, up: Entry, down: Entry, version: int, name: string)
    requires Is(up, version, name, N.Up) && Is(down, version, name, N.Down)
    ensures Writable(Written(es, up), down.name) <==> Writable(es, down.name)
  {
    var fs := Written(es, up);
    forall i | 0 <= i < |es| ensures fs[i].name == es[i].name && fs[i].isDir == es[i].isDir {}
    if Writable(fs, down.name) {
      forall i | 0 <= i < |es| && es[i].name == down.name ensures !es[i].isDir {
        assert fs[i].name == down.name;
      }
    }
  }
}
