/**
 The option file: a flat `key: value` text, written from a map in any order and read back.
 Characters stand for bytes.
 */
module OptionFile {
  import opened Text
  import opened Wrappers

  predicate Blank(c: char) { c == ' ' || c == '\t' }

  // ---------------------------------------------------------------- lines

  function DropCR(s: string): string { if s != "" && s[|s| - 1] == '\r' then s[..|s| - 1] else s }

  /** Lines end in \n or \r\n; what follows the last \n is a line of its own unless empty. */
  function Lines(s: string): seq<string>
    decreases |s|
  {
    var n := IndexOf(s, '\n');
    if n < 0 then (if s == "" then [] else [s]) else [DropCR(s[..n])] + Lines(s[n + 1..])
  }

  /** Cutting one line off the front. */
  lemma CutLine(rest: string, n: nat)
    requires n < |rest| && rest[n] == '\n' && forall k :: 0 <= k < n ==> rest[k] != '\n'
    ensures Lines(rest) == [DropCR(rest[..n])] + Lines(rest[n + 1..])
  {
  }

  lemma LastLine(rest: string)
    requires '\n' !in rest
    ensures Lines(rest) == if rest == "" then [] else [rest]
  {
  }

  method SplitLines(s: string) returns (lines: seq<string>)
    ensures lines == Lines(s)
  {
    hide Lines;
    lines := [];
    var i, j := 0, 0;
    assert s[0..] == s;
    while j < |s|
      invariant 0 <= i <= j <= |s|
      invariant lines + Lines(s[i..]) == Lines(s)
      invariant forall k :: i <= k < j ==> s[k] != '\n'
    {
      if s[j] == '\n' {
        var end := j;
        if end > i && s[end - 1] == '\r' { end := end - 1; }
        ghost var rest := s[i..];
        assert forall k :: 0 <= k < j - i ==> rest[k] == s[i + k];
        CutLine(rest, j - i);
        assert rest[..j - i] == s[i..j] && rest[j - i + 1..] == s[j + 1..];
        assert s[i..end] == DropCR(s[i..j]);
        assert lines + ([s[i..end]] + Lines(s[j + 1..])) == (lines + [s[i..end]]) + Lines(s[j + 1..]);
        lines := lines + [s[i..end]];
        i := j + 1;
      }
      j := j + 1;
    }
    LastLine(s[i..]);
    if i < |s| {
      lines := lines + [s[i..]];
    }
  }

  method TrimSpace(s: string) returns (t: string)
    ensures t == Trim(s, Blank)
  {
    var start, end := 0, |s|;
    assert s[0..] == s;
    while start < end && (s[start] == ' ' || s[start] == '\t')
      invariant 0 <= start <= end == |s| && TrimLeft(s[start..], Blank) == TrimLeft(s, Blank)
    {
      assert s[start..][1..] == s[start + 1..];
      start := start + 1;
    }
    assert TrimLeft(s[start..], Blank) == s[start..];
    assert s[start..end] == s[start..];
    while end > start && (s[end - 1] == ' ' || s[end - 1] == '\t')
      invariant start <= end <= |s| && TrimRight(s[start..end], Blank) == TrimRight(s[start..], Blank)
    {
      assert s[start..end][..end - start - 1] == s[start..end - 1];
      end := end - 1;
    }
    t := s[start..end];
  }

  method FindColon(s: string) returns (i: int)
    ensures i == IndexOf(s, ':')
  {
    i := 0;
    while i < |s|
      invariant 0 <= i <= |s| && forall k :: 0 <= k < i ==> s[k] != ':'
    {
      if s[i] == ':' {
        IndexIs(s, ':', i);
        return;
      }
      i := i + 1;
    }
    i := -1;
  }

  // ---------------------------------------------------------------- reading

  datatype Parsed = Skipped | Malformed | Assigned(key: string, value: string)

  function ParseLine(raw: string): Parsed {
    var line := Trim(raw, Blank);
    if line == "" || line[0] == '#' then Skipped
    else
      var colon := IndexOf(line, ':');
      if colon < 0 then Malformed
      else
        var key, value := Trim(line[..colon], Blank), Trim(line[colon + 1..], Blank);
        if key == "" then Skipped else Assigned(key, value)
  }

  /** Later assignments win; the first malformed line is an error with its number. */
  function LoadLines(lines: seq<string>, data: map<string, string>, number: nat): Result<map<string, string>, nat> {
    if lines == [] then Ok(data)
    else
      match ParseLine(lines[0])
      case Malformed => Err(number)
      case Skipped => LoadLines(lines[1..], data, number + 1)
      case Assigned(k, v) => LoadLines(lines[1..], data[k := v], number + 1)
  }

  function Load(text: string): Result<map<string, string>, nat> { LoadLines(Lines(text), map[], 1) }

  /** The loop body on one line. */
  method ReadLine(raw: string, data: map<string, string>) returns (ok: bool, more: map<string, string>)
    ensures ok <==> !ParseLine(raw).Malformed?
    ensures ok ==> more == match ParseLine(raw) { case Assigned(k, v) => data[k := v] case _ => data }
  {
    ok, more := true, data;
    var line := TrimSpace(raw);
    if line == "" || line[0] == '#' {
      return;
    }
    var colon := FindColon(line);
    if colon < 0 {
      return false, data;
    }
    var key := TrimSpace(line[..colon]);
    var value := TrimSpace(line[colon + 1..]);
    if key == "" {
      return;
    }
    more := data[key := value];
  }

  lemma LoadStep(lines: seq<string>, i: nat, data: map<string, string>)
    requires i < |lines|
    ensures LoadLines(lines[i..], data, i + 1) ==
            match ParseLine(lines[i])
            case Malformed => Err(i + 1)
            case Skipped => LoadLines(lines[i + 1..], data, i + 2)
            case Assigned(k, v) => LoadLines(lines[i + 1..], data[k := v], i + 2)
  {
  }

  method ReadOptions(text: string) returns (r: Result<map<string, string>, nat>)
    ensures r == Load(text)
  {
    hide ParseLine, Lines;
    var lines := SplitLines(text);
    var data: map<string, string> := map[];
    var i := 0;
    assert lines[0..] == lines;
    while i < |lines|
      invariant 0 <= i <= |lines|
      invariant LoadLines(lines, map[], 1) == LoadLines(lines[i..], data, i + 1)
    {
      LoadStep(lines, i, data);
      var ok, more := ReadLine(lines[i], data);
      if !ok {
        return Err(i + 1);
      }
      data := more;
      i := i + 1;
    }
    r := Ok(data);
  }

  // ---------------------------------------------------------------- writing

  function LineOf(k: string, v: string): string { k + ": " + v }

  /** The file for one order of iteration. */
  function FileText(order: seq<string>, data: map<string, string>): string
    requires forall i :: 0 <= i < |order| ==> order[i] in data
  {
    if order == [] then "" else LineOf(order[0], data[order[0]]) + "\n" + FileText(order[1..], data)
  }

  ghost predicate IsOrder(order: seq<string>, data: map<string, string>) {
    && (forall i, j :: 0 <= i < j < |order| ==> order[i] != order[j])
    && (forall k :: k in order <==> k in data)
  }

  // ---------------------------------------------------------------- round trip

  ghost predicate KeyOk(k: string) {
    k != "" && IsTrimmed(k, Blank) && k[0] != '#' && ':' !in k && '\n' !in k
  }

  ghost predicate ValueOk(v: string) {
    IsTrimmed(v, Blank) && '\n' !in v && (v != "" ==> v[|v| - 1] != '\r')
  }

  /** What the format can hold. */
  ghost predicate Storable(data: map<string, string>) {
    forall k :: k in data ==> KeyOk(k) && ValueOk(data[k])
  }

  lemma FirstLine(line: string, rest: string)
    requires '\n' !in line
    ensures Lines(line + "\n" + rest) == [DropCR(line)] + Lines(rest)
  {
    var s := line + "\n" + rest;
    assert s[|line|] == '\n';
    forall k | 0 <= k < |line| ensures s[k] != '\n' { assert s[k] == line[k]; }
    IndexIs(s, '\n', |line|);
    assert s[..|line|] == line && s[|line| + 1..] == rest;
  }

  /** The value that a line written with `v` reads as. */
  function ReadBack(v: string): string { Trim(TrimRight(" " + DropCR(v), Blank), Blank) }

  lemma LineReads(k: string, v: string)
    requires KeyOk(k)
    ensures ParseLine(DropCR(LineOf(k, v))) == Assigned(k, ReadBack(v))
  {
    var u := DropCR(v);
    var raw := LineOf(k, u);
    assert DropCR(LineOf(k, v)) == raw;
    assert raw == (k + ":") + (" " + u) && TrimLeft(raw, Blank) == raw;
    TrimRightAppend(k + ":", " " + u, Blank);
    LineSplits(Trim(raw, Blank), k, TrimRight(" " + u, Blank));
    TrimForm(k, Blank);
  }

  lemma LineSplits(line: string, k: string, tail: string)
    requires line == k + ":" + tail && KeyOk(k)
    ensures IndexOf(line, ':') == |k| && line[..|k|] == k && line[|k| + 1..] == tail
  {
    forall i | 0 <= i < |k| ensures line[i] != ':' { assert line[i] == k[i]; }
    IndexIs(line, ':', |k|);
  }

  /** A trimmed value reads back exactly unless it ends in a carriage return. */
  lemma ReadsBack(v: string)
    requires IsTrimmed(v, Blank)
    ensures ReadBack(v) == v <==> v == "" || v[|v| - 1] != '\r'
  {
    var u := DropCR(v);
    var x := TrimRight(" " + u, Blank);
    TrimRightForm(" " + u, Blank);
    TrimForm(x, Blank);
    if v == "" {
      TrimForm(" ", Blank);
    } else if v[|v| - 1] == '\r' {
      assert |x| <= |v|;
      assert x != "" ==> x[0] == ' ';
    } else {
      assert u == v && x == " " + v;
      assert x[1..] == v;
      TrimForm(v, Blank);
    }
  }

  ghost predicate Writable(data: map<string, string>) {
    forall k :: k in data ==> KeyOk(k) && IsTrimmed(data[k], Blank) && '\n' !in data[k]
  }

  function ReadAll(data: map<string, string>): map<string, string> { map k | k in data :: ReadBack(data[k]) }

  /** Reading what was written, entry by entry. */
  lemma {:induction false} LoadText(order: seq<string>, data: map<string, string>, loaded: map<string, string>, number: nat)
    requires (forall i :: 0 <= i < |order| ==> order[i] in data) && Writable(data)
    ensures LoadLines(Lines(FileText(order, data)), loaded, number) == Ok(Assign(loaded, order, ReadAll(data)))
    decreases |order|
  {
    if order != [] {
      var k := order[0];
      var v := data[k];
      assert '\n' !in LineOf(k, v);
      FirstLine(LineOf(k, v), FileText(order[1..], data));
      LineReads(k, v);
      hide ParseLine, Lines, ReadBack;
      LoadText(order[1..], data, loaded[k := ReadBack(v)], number + 1);
    }
  }

  function Assign(loaded: map<string, string>, order: seq<string>, data: map<string, string>): map<string, string>
    requires forall i :: 0 <= i < |order| ==> order[i] in data
    decreases |order|
  {
    if order == [] then loaded else Assign(loaded[order[0] := data[order[0]]], order[1..], data)
  }

  lemma {:induction false} AssignAll(loaded: map<string, string>, order: seq<string>, data: map<string, string>)
    requires forall i :: 0 <= i < |order| ==> order[i] in data
    ensures forall k :: k in Assign(loaded, order, data) <==> k in loaded || k in order
    ensures forall k :: k in Assign(loaded, order, data) ==>
              Assign(loaded, order, data)[k] == if k in order then data[k] else loaded[k]
    decreases |order|
  {
    if order != [] {
      AssignAll(loaded[order[0] := data[order[0]]], order[1..], data);
      assert forall k :: k in order <==> k == order[0] || k in order[1..];
    }
  }

  lemma AssignIsAll(order: seq<string>, data: map<string, string>)
    requires IsOrder(order, data)
    ensures Assign(map[], order, data) == data
  {
    AssignAll(map[], order, data);
    hide Assign;
    var all := Assign(map[], order, data);
    assert all.Keys == data.Keys;
  }

  lemma LoadIsReadAll(order: seq<string>, data: map<string, string>)
    requires IsOrder(order, data) && Writable(data)
    ensures Load(FileText(order, data)) == Ok(ReadAll(data))
  {
    LoadText(order, data, map[], 1);
    AssignIsAll(order, ReadAll(data));
  }

  // ---------------------------------------------------------------- what can be read at all

  lemma {:induction false} LinesClean(s: string)
    ensures forall i :: 0 <= i < |Lines(s)| ==> '\n' !in Lines(s)[i]
    decreases |s|
  {
    var n := IndexOf(s, '\n');
    if n >= 0 {
      LinesClean(s[n + 1..]);
      assert '\n' !in s[..n];
    }
  }

  lemma ParsedIsClean(raw: string)
    requires '\n' !in raw && ParseLine(raw).Assigned?
    ensures KeyOk(ParseLine(raw).key) && IsTrimmed(ParseLine(raw).value, Blank) && '\n' !in ParseLine(raw).value
  {
    var line := Trim(raw, Blank);
    TrimForm(raw, Blank);
    var colon := IndexOf(line, ':');
    var key, value := line[..colon], line[colon + 1..];
    TrimForm(key, Blank);
    TrimForm(value, Blank);
    assert ':' !in key && '\n' !in key && '\n' !in value;
    assert key != "" && key[0] == line[0];
    TrimKeepsHead(key);
  }

  lemma TrimKeepsHead(s: string)
    requires s != "" && !Blank(s[0])
    ensures Trim(s, Blank) != "" && Trim(s, Blank)[0] == s[0]
  {
    TrimRightAppend(s[..1], s[1..], Blank);
    assert s[..1] + s[1..] == s;
  }

  lemma {:induction false} LoadedIsWritable(lines: seq<string>, data: map<string, string>, number: nat)
    requires (forall i :: 0 <= i < |lines| ==> '\n' !in lines[i]) && Writable(data) && LoadLines(lines, data, number).Ok?
    ensures Writable(LoadLines(lines, data, number).value)
    decreases |lines|
  {
    if lines != [] {
      match ParseLine(lines[0])
      case Skipped => LoadedIsWritable(lines[1..], data, number + 1);
      case Assigned(k, v) =>
        ParsedIsClean(lines[0]);
        LoadedIsWritable(lines[1..], data[k := v], number + 1);
    }
  }

  /** Writing and reading gives back the map, in every order of iteration, exactly when keys are
      non-empty, trimmed, without colon or newline and no comment, and values are trimmed, without
      newline and not ending in a carriage return. */
  lemma RoundTripIsExact(order: seq<string>, data: map<string, string>)
    requires IsOrder(order, data)
    ensures Load(FileText(order, data)) == Ok(data) <==> Storable(data)
  {
    if Load(FileText(order, data)) == Ok(data) {
      RestoredIsWritable(FileText(order, data), data);
    }
    if Writable(data) {
      LoadIsReadAll(order, data);
      hide *;
      ReadAllIsSame(data);
    } else {
      StorableIsWritable(data);
    }
  }

  lemma RestoredIsWritable(text: string, data: map<string, string>)
    requires Load(text) == Ok(data)
    ensures Writable(data)
  {
    hide Lines, LoadLines, KeyOk;
    LinesClean(text);
    LoadedIsWritable(Lines(text), map[], 1);
  }

  lemma StorableIsWritable(data: map<string, string>)
    ensures Storable(data) ==> Writable(data)
  {
  }

  lemma ReadAllIsSame(data: map<string, string>)
    requires Writable(data)
    ensures ReadAll(data) == data <==> Storable(data)
  {
    hide ReadBack;
    forall k | k in data ensures ReadAll(data)[k] == data[k] <==> ValueOk(data[k]) { ReadsBack(data[k]); }
    if Storable(data) {
      assert ReadAll(data) == data;
    } else {
      var k :| k in data && !(KeyOk(k) && ValueOk(data[k]));
      assert ReadAll(data)[k] != data[k];
    }
  }

  // ---------------------------------------------------------------- the store

  class FileOptionStore {
    var data: map<string, string>
    var file: Option<string>

    constructor (data: map<string, string>, file: Option<string>)
      ensures this.data == data && this.file == file
    {
      this.data, this.file := data, file;
    }

    /** The file holds the map; on a first start there is none and the map is empty. */
    ghost predicate Saved()
      reads this
    {
      if file.Some? then Load(file.value) == Ok(data) else data == map[]
    }

    /** Start from a file, if there is one: a malformed line is an error. */
    static method Open(file: Option<string>) returns (r: Result<FileOptionStore, nat>)
      ensures r.Err? <==> file.Some? && Load(file.value).Err?
      ensures r.Err? ==> Load(file.value) == Err(r.error)
      ensures r.Ok? ==> r.value.file == file
      ensures r.Ok? ==> r.value.data == if file.Some? then Load(file.value).value else map[]
    {
      var data := map[];
      if file.Some? {
        var loaded := ReadOptions(file.value);
        if loaded.Err? {
          return Err(loaded.error);
        }
        data := loaded.value;
      }
      var store := new FileOptionStore(data, file);
      r := Ok(store);
    }

    /** Iterates over the map in whatever order the runtime picks. */
    method Flush(fails: bool) returns (ok: bool, ghost order: seq<string>)
      modifies this`file
      ensures ok <==> !fails
      ensures IsOrder(order, data) && file == if fails then old(file) else Some(FileText(order, data))
    {
      var text := "";
      var rest := data.Keys;
      order := [];
      while rest != {}
        invariant rest <= data.Keys && file == old(file)
        invariant forall i, j :: 0 <= i < j < |order| ==> order[i] != order[j]
        invariant forall k :: k in order <==> k in data && k !in rest
        invariant text == FileText(order, data)
        decreases rest
      {
        var k :| k in rest;
        FileTextSnoc(order, data, k);
        text := text + k + ": " + data[k] + "\n";
        order := order + [k];
        rest := rest - {k};
      }
      ok := !fails;
      if ok { file := Some(text); }
    }

    method Set(k: string, v: string, fails: bool) returns (ok: bool)
      modifies this
      ensures data == old(data)[k := v] && (ok <==> !fails)
      ensures fails ==> file == old(file)
      ensures ok ==> file.Some? && (Load(file.value) == Ok(data) <==> Storable(data))
    {
      data := data[k := v];
      ghost var order;
      ok, order := Flush(fails);
      RoundTripIsExact(order, data);
    }
  }

  lemma {:induction false} FileTextSnoc(order: seq<string>, data: map<string, string>, k: string)
    requires (forall i :: 0 <= i < |order| ==> order[i] in data) && k in data
    ensures FileText(order + [k], data) == FileText(order, data) + k + ": " + data[k] + "\n"
    decreases |order|
  {
    if order == [] {
      assert [k][1..] == [] && FileText([k], data) == LineOf(k, data[k]) + "\n" + "";
    } else {
      FileTextSnoc(order[1..], data, k);
      assert (order + [k])[1..] == order[1..] + [k];
    }
  }

  /** Any run of Set calls with storable pairs, from the first start on, then a restart: the new
      store holds what the old one held. */
  method SetAllThenRestart(store: FileOptionStore, pairs: seq<(string, string)>) returns (again: Result<FileOptionStore, nat>)
    requires Storable(store.data) && store.Saved()
    requires forall i :: 0 <= i < |pairs| ==> KeyOk(pairs[i].0) && ValueOk(pairs[i].1)
    modifies store
    ensures store.data == Updated(old(store.data), pairs)
    ensures again.Ok? && again.value.data == store.data
  {
    hide Load, KeyOk, ValueOk;
    var i := 0;
    assert pairs[..0] == [];
    while i < |pairs|
      invariant 0 <= i <= |pairs|
      invariant Storable(store.data) && store.Saved()
      invariant store.data == Updated(old(store.data), pairs[..i])
    {
      assert pairs[..i + 1][..i] == pairs[..i];
      var ok := store.Set(pairs[i].0, pairs[i].1, false);
      i := i + 1;
    }
    assert pairs[..|pairs|] == pairs;
    again := FileOptionStore.Open(store.file);
  }

  function Updated(data: map<string, string>, pairs: seq<(string, string)>): map<string, string> {
    if pairs == [] then data else Updated(data, pairs[..|pairs| - 1])[pairs[|pairs| - 1].0 := pairs[|pairs| - 1].1]
  }
}
