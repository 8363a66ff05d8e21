/**
 Names of migration files: sanitizing a raw name, formatting and parsing versions, and the
 round trip from a new migration to the two files that hold it.
 */
module MigrationNames {
  import opened Text
  import opened Wrappers

  const MAX_INT64: int := 0x7FFF_FFFF_FFFF_FFFF
  const MIN_INT64: int := -0x8000_0000_0000_0000

  // ---------------------------------------------------------------- sanitizing

  predicate IsWord(c: char) { 'a' <= c <= 'z' || '0' <= c <= '9' }

  predicate IsSeparator(c: char) { c == ' ' || c == '-' || c == '_' }

  /** Groups of letters and digits joined by single underscores. */
  ghost predicate IsSnake(s: string) {
    && s != "" && IsWord(s[0]) && IsWord(s[|s| - 1])
    && (forall i :: 0 <= i < |s| ==> IsWord(s[i]) || s[i] == '_')
    && (forall i :: 0 <= i < |s| - 1 && s[i] == '_' ==> s[i + 1] != '_')
  }

  /** Case folding and white space of the runtime, as far as they matter here. */
  ghost predicate SaneText(lower: char -> char, isSpace: char -> bool) {
    forall c :: (IsWord(c) || c == '_' ==> lower(c) == c && !isSpace(c))
  }

  function MapLower(s: string, lower: char -> char): (t: string)
    ensures |t| == |s| && forall i :: 0 <= i < |s| ==> t[i] == lower(s[i])
  {
    seq(|s|, i requires 0 <= i < |s| => lower(s[i]))
  }

  /** The builder after `s`: words kept, the first separator after a word written as one underscore. */
  function Built(s: string): string {
    if s == "" then ""
    else
      var t := Built(s[..|s| - 1]);
      var c := s[|s| - 1];
      if IsWord(c) then t + [c]
      else if IsSeparator(c) && t != "" && t[|t| - 1] != '_' then t + "_"
      else t
  }

  function Underscore(c: char): bool { c == '_' }

  function Sanitized(raw: string, lower: char -> char, isSpace: char -> bool): string {
    Trim(Built(Trim(MapLower(raw, lower), isSpace)), Underscore)
  }

  method SanitizeName(raw: string, lower: char -> char, isSpace: char -> bool) returns (r: Result<string, ()>)
    ensures r == var name := Sanitized(raw, lower, isSpace); if name == "" then Err(()) else Ok(name)
  {
    var text := Trim(MapLower(raw, lower), isSpace);
    var b, prevUnderscore := "", false;
    var i := 0;
    while i < |text|
      invariant 0 <= i <= |text| && b == Built(text[..i])
      invariant prevUnderscore <==> b != "" && b[|b| - 1] == '_'
    {
      assert text[..i + 1][..i] == text[..i];
      var c := text[i];
      if IsWord(c) {
        b, prevUnderscore := b + [c], false;
      } else if IsSeparator(c) {
        if !prevUnderscore && |b| > 0 {
          b, prevUnderscore := b + "_", true;
        }
      }
      i := i + 1;
    }
    assert text[..|text|] == text;
    var name := Trim(b, Underscore);
    r := if name == "" then Err(()) else Ok(name);
  }

  /** What the builder holds: words and single underscores, never an underscore first. */
  ghost predicate IsBuilt(t: string) {
    && (t != "" ==> IsWord(t[0]))
    && (forall i :: 0 <= i < |t| ==> IsWord(t[i]) || t[i] == '_')
    && (forall i :: 0 <= i < |t| - 1 && t[i] == '_' ==> t[i + 1] != '_')
  }

  lemma {:induction false} BuiltForm(s: string)
    ensures IsBuilt(Built(s))
  {
    if s != "" {
      BuiltForm(s[..|s| - 1]);
    }
  }

  /** Trimming what was built takes off at most the one underscore at the end. */
  lemma TrimBuilt(t: string)
    requires IsBuilt(t)
    ensures Trim(t, Underscore) == if t != "" && t[|t| - 1] == '_' then t[..|t| - 1] else t
    ensures Trim(t, Underscore) == "" || IsSnake(Trim(t, Underscore))
  {
    assert TrimLeft(t, Underscore) == t;
    if t != "" && t[|t| - 1] == '_' {
      var u := t[..|t| - 1];
      assert u != "" && u[|u| - 1] != '_';
      assert TrimRight(u, Underscore) == u;
    }
  }

  /** A sanitized name is in snake form. */
  lemma SanitizedIsSnake(raw: string, lower: char -> char, isSpace: char -> bool)
    ensures var name := Sanitized(raw, lower, isSpace); name == "" || IsSnake(name)
  {
    var text := Trim(MapLower(raw, lower), isSpace);
    BuiltForm(text);
    TrimBuilt(Built(text));
  }

  lemma {:induction false} BuiltKeepsSnakePrefix(s: string, k: nat)
    requires IsSnake(s) && k <= |s|
    ensures Built(s[..k]) == s[..k]
  {
    if k > 0 {
      BuiltKeepsSnakePrefix(s, k - 1);
      assert s[..k][..k - 1] == s[..k - 1];
      assert s[k - 1] == '_' ==> k > 1 && s[k - 2] != '_';
    }
  }

  /** Sanitizing twice changes nothing more. */
  lemma SanitizeIsIdempotent(raw: string, lower: char -> char, isSpace: char -> bool)
    requires SaneText(lower, isSpace) && Sanitized(raw, lower, isSpace) != ""
    ensures var name := Sanitized(raw, lower, isSpace); Sanitized(name, lower, isSpace) == name
  {
    var name := Sanitized(raw, lower, isSpace);
    SanitizedIsSnake(raw, lower, isSpace);
    SnakeIsSanitized(name, lower, isSpace);
  }

  lemma SnakeIsSanitized(s: string, lower: char -> char, isSpace: char -> bool)
    requires SaneText(lower, isSpace) && IsSnake(s)
    ensures Sanitized(s, lower, isSpace) == s
  {
    assert MapLower(s, lower) == s;
    assert TrimLeft(s, isSpace) == s && TrimRight(s, isSpace) == s;
    BuiltKeepsSnakePrefix(s, |s|);
    assert s[..|s|] == s;
    TrimBuilt(s);
  }

  /** The letters and digits of a text, in order. */
  function Words(s: string): string {
    if s == "" then "" else Words(s[..|s| - 1]) + if IsWord(s[|s| - 1]) then [s[|s| - 1]] else ""
  }

  lemma {:induction false} BuiltKeepsWords(s: string)
    ensures Words(Built(s)) == Words(s)
  {
    if s != "" {
      var t := Built(s[..|s| - 1]);
      BuiltKeepsWords(s[..|s| - 1]);
      assert (t + "_")[..|t|] == t && (t + [s[|s| - 1]])[..|t|] == t;
    }
  }

  /** No letter or digit gets lost or moves, and a name is refused exactly when there is none. */
  lemma SanitizeKeepsWords(raw: string, lower: char -> char, isSpace: char -> bool)
    requires SaneText(lower, isSpace)
    ensures Words(Sanitized(raw, lower, isSpace)) == Words(MapLower(raw, lower))
    ensures Sanitized(raw, lower, isSpace) == "" <==> Words(MapLower(raw, lower)) == ""
  {
    var low := MapLower(raw, lower);
    var text := Trim(low, isSpace);
    var b := Built(text);
    BuiltForm(text);
    TrimBuilt(b);
    BuiltKeepsWords(text);
    TrimKeepsWords(low, isSpace);
    TrimKeepsWords(b, Underscore);
    var name := Sanitized(raw, lower, isSpace);
    assert name != "" ==> Words(name) != "";
  }

  lemma TrimKeepsWords(s: string, cut: char -> bool)
    requires forall c :: IsWord(c) ==> !cut(c)
    ensures Words(Trim(s, cut)) == Words(s)
  {
    TrimLeftKeepsWords(s, cut);
    TrimRightKeepsWords(TrimLeft(s, cut), cut);
  }

  lemma {:induction false} TrimRightKeepsWords(s: string, cut: char -> bool)
    requires forall c :: IsWord(c) ==> !cut(c)
    ensures Words(TrimRight(s, cut)) == Words(s)
    decreases |s|
  {
    if s != "" && cut(s[|s| - 1]) { TrimRightKeepsWords(s[..|s| - 1], cut); }
  }

  lemma {:induction false} TrimLeftKeepsWords(s: string, cut: char -> bool)
    requires forall c :: IsWord(c) ==> !cut(c)
    ensures Words(TrimLeft(s, cut)) == Words(s)
    decreases |s|
  {
    if s != "" && cut(s[0]) {
      TrimLeftKeepsWords(s[1..], cut);
      WordsSkipFirst(s);
    }
  }

  lemma {:induction false} WordsSkipFirst(s: string)
    requires s != "" && !IsWord(s[0])
    ensures Words(s[1..]) == Words(s)
    decreases |s|
  {
    if |s| > 1 {
      WordsSkipFirst(s[..|s| - 1]);
      assert s[..|s| - 1][1..] == s[1..][..|s| - 2];
    }
  }

  // ---------------------------------------------------------------- versions

  predicate IsDigit(c: char) { '0' <= c <= '9' }

  function DigitOf(n: nat): char
    requires n < 10
  {
    '0' + n as char
  }

  function DigitValue(c: char): (n: nat)
    requires IsDigit(c)
    ensures n < 10
  {
    c as int - '0' as int
  }

  function Digits(n: nat): (s: string)
    ensures s != "" && forall i :: 0 <= i < |s| ==> IsDigit(s[i])
  {
    if n < 10 then [DigitOf(n)] else Digits(n / 10) + [DigitOf(n % 10)]
  }

  function Value(s: string): nat
    requires forall i :: 0 <= i < |s| ==> IsDigit(s[i])
  {
    if s == "" then 0 else 10 * Value(s[..|s| - 1]) + DigitValue(s[|s| - 1])
  }

  lemma {:induction false} ValueOfDigits(n: nat)
    ensures Value(Digits(n)) == n
  {
    if n >= 10 {
      ValueOfDigits(n / 10);
      assert Digits(n)[..|Digits(n)| - 1] == Digits(n / 10);
    }
  }

  lemma {:induction false} ValueOfPadded(s: string)
    requires forall i :: 0 <= i < |s| ==> IsDigit(s[i])
    ensures (forall i :: 0 <= i < |"0" + s| ==> IsDigit(("0" + s)[i])) && Value("0" + s) == Value(s)
    decreases |s|
  {
    if s != "" {
      ValueOfPadded(s[..|s| - 1]);
      assert ("0" + s)[..|s|] == "0" + s[..|s| - 1];
    }
  }

  function ZeroPad(s: string, width: nat): (t: string)
    ensures |t| >= |s|
    ensures (forall i :: 0 <= i < |s| ==> IsDigit(s[i])) ==> forall i :: 0 <= i < |t| ==> IsDigit(t[i])
    decreases width - |s|
  {
    if |s| >= width then s else ZeroPad("0" + s, width)
  }

  lemma {:induction false} ValueOfZeroPad(s: string, width: nat)
    requires forall i :: 0 <= i < |s| ==> IsDigit(s[i])
    ensures Value(ZeroPad(s, width)) == Value(s)
    decreases width - |s|
  {
    if |s| < width {
      ValueOfPadded(s);
      ValueOfZeroPad("0" + s, width);
    }
  }

  /** `%03d`: the sign counts for the width. */
  function FormatVersion(v: int): string {
    if v < 0 then "-" + ZeroPad(Digits(-v), 2) else ZeroPad(Digits(v), 3)
  }

  function ParseDigits(s: string): Option<nat> {
    if s != "" && forall i :: 0 <= i < |s| ==> IsDigit(s[i]) then Some(Value(s)) else None
  }

  /** A decimal 64-bit integer with an optional sign. */
  function ParseInt(s: string): (r: Option<int>)
    ensures r.Some? ==> MIN_INT64 <= r.value <= MAX_INT64
  {
    var negative := s != "" && s[0] == '-';
    var digits := if s != "" && (s[0] == '-' || s[0] == '+') then s[1..] else s;
    match ParseDigits(digits)
    case None => None
    case Some(n) =>
      var m: int := n;
      var v := if negative then -m else m;
      if MIN_INT64 <= v <= MAX_INT64 then Some(v) else None
  }

  lemma VersionRoundTrip(v: int)
    requires MIN_INT64 <= v <= MAX_INT64
    ensures ParseInt(FormatVersion(v)) == Some(v)
    ensures FormatVersion(v) != "" && forall i :: 0 <= i < |FormatVersion(v)| ==> FormatVersion(v)[i] != '_' && FormatVersion(v)[i] != '.'
  {
    var n: nat := if v < 0 then -v else v;
    var width := if v < 0 then 2 else 3;
    ValueOfDigits(n);
    ValueOfZeroPad(Digits(n), width);
    var z := ZeroPad(Digits(n), width);
    assert ParseDigits(z) == Some(n);
    if v < 0 {
      assert ("-" + z)[1..] == z;
    }
  }

  // ---------------------------------------------------------------- file names

  datatype Direction = Up | Down

  datatype FileName = FileName(version: int, name: string, direction: Direction)

  function DirectionText(d: Direction): string { if d.Up? then "up" else "down" }

  /** `<version>_<name>.<up|down>.sql`. */
  function ParseFileName(fileName: string): (r: Result<FileName, ()>)
    ensures r.Ok? ==> MIN_INT64 <= r.value.version <= MAX_INT64 && r.value.name != ""
  {
    ParseBase(if HasSuffix(fileName, ".sql") then fileName[..|fileName| - 4] else fileName)
  }

  function ParseBase(base: string): (r: Result<FileName, ()>)
    ensures r.Ok? ==> MIN_INT64 <= r.value.version <= MAX_INT64 && r.value.name != ""
  {
    var dot := LastIndexOf(base, '.');
    if dot < 0 then Err(())
    else
      var direction := base[dot + 1..];
      if direction != "up" && direction != "down" then Err(())
      else ParseStem(base[..dot], if direction == "up" then Up else Down)
  }

  function ParseStem(stem: string, direction: Direction): (r: Result<FileName, ()>)
    ensures r.Ok? ==> MIN_INT64 <= r.value.version <= MAX_INT64 && r.value.name != ""
  {
    var underscore := IndexOf(stem, '_');
    if underscore <= 0 then Err(())
    else
      match ParseInt(stem[..underscore])
      case None => Err(())
      case Some(v) =>
        var name := stem[underscore + 1..];
        if name == "" then Err(()) else Ok(FileName(v, name, direction))
  }

  function FileNameOf(f: FileName): string {
    FormatVersion(f.version) + "_" + f.name + "." + DirectionText(f.direction) + ".sql"
  }

  lemma Halves(a: string, c: char, b: string)
    ensures var s := a + [c] + b; s[|a|] == c && s[..|a|] == a && s[|a| + 1..] == b
  {
  }

  lemma StemRoundTrip(version: int, name: string, direction: Direction)
    requires MIN_INT64 <= version <= MAX_INT64 && name != ""
    ensures ParseStem(FormatVersion(version) + ['_'] + name, direction) == Ok(FileName(version, name, direction))
  {
    VersionRoundTrip(version);
    hide FormatVersion, ParseInt, IndexOf;
    var v := FormatVersion(version);
    Halves(v, '_', name);
    IndexIs(v + ['_'] + name, '_', |v|);
  }

  lemma BaseRoundTrip(stem: string, direction: Direction)
    ensures ParseBase(stem + ['.'] + DirectionText(direction)) == ParseStem(stem, direction)
  {
    hide ParseStem, LastIndexOf;
    var d := DirectionText(direction);
    Halves(stem, '.', d);
    LastIndexIs(stem + ['.'] + d, '.', |stem|);
  }

  /** Parsing gives back any 64-bit version, any name that is not empty, and the direction. */
  lemma FileNameRoundTrip(f: FileName)
    requires MIN_INT64 <= f.version <= MAX_INT64 && f.name != ""
    ensures ParseFileName(FileNameOf(f)) == Ok(f) && HasSuffix(FileNameOf(f), ".sql")
  {
    hide FormatVersion, ParseStem, ParseBase, DirectionText;
    var stem := FormatVersion(f.version) + ['_'] + f.name;
    var base := stem + ['.'] + DirectionText(f.direction);
    assert FileNameOf(f) == base + ".sql";
    assert (base + ".sql")[..|base|] == base && (base + ".sql")[|base|..] == ".sql";
    BaseRoundTrip(stem, f.direction);
    StemRoundTrip(f.version, f.name, f.direction);
  }

  // ---------------------------------------------------------------- new migrations

  function MaxVersion(versions: seq<int>): (m: int)
    ensures m >= 0 && (forall i :: 0 <= i < |versions| ==> versions[i] <= m)
    ensures m == 0 || m in versions
  {
    if versions == [] then 0
    else
      var m := MaxVersion(versions[..|versions| - 1]);
      if versions[|versions| - 1] > m then versions[|versions| - 1] else m
  }

  /** 64-bit addition of one. */
  function Next(max: int): int { if max == MAX_INT64 then MIN_INT64 else max + 1 }

  method NextVersion(versions: seq<int>) returns (next: int)
    requires forall i :: 0 <= i < |versions| ==> MIN_INT64 <= versions[i] <= MAX_INT64
    ensures next == Next(MaxVersion(versions)) && MIN_INT64 <= next <= MAX_INT64
  {
    var max := 0;
    var i := 0;
    while i < |versions|
      invariant 0 <= i <= |versions| && max == MaxVersion(versions[..i])
    {
      assert versions[..i + 1][..i] == versions[..i];
      if versions[i] > max { max := versions[i]; }
      i := i + 1;
    }
    assert versions[..|versions|] == versions;
    next := Next(max);
  }

  /** The next version is above all others exactly when the largest 64-bit integer is not taken. */
  lemma NextVersionIsFresh(versions: seq<int>)
    requires forall i :: 0 <= i < |versions| ==> MIN_INT64 <= versions[i] <= MAX_INT64
    ensures (forall i :: 0 <= i < |versions| ==> versions[i] < Next(MaxVersion(versions))) <==> MAX_INT64 !in versions
  {
  }

  /** It is in use only if both ends of the 64-bit range are. */
  lemma NextVersionIsTaken(versions: seq<int>)
    requires forall i :: 0 <= i < |versions| ==> MIN_INT64 <= versions[i] <= MAX_INT64
    ensures Next(MaxVersion(versions)) in versions <==> MAX_INT64 in versions && MIN_INT64 in versions
  {
  }

  /** The names of the two files of a new migration, which parse back to it. */
  method CreateNames(versions: seq<int>, raw: string, lower: char -> char, isSpace: char -> bool)
    returns (r: Result<(string, string), ()>, ghost version: int)
    requires forall i :: 0 <= i < |versions| ==> MIN_INT64 <= versions[i] <= MAX_INT64
    ensures version == Next(MaxVersion(versions))
    ensures r.Err? <==> Sanitized(raw, lower, isSpace) == ""
    ensures r.Ok? ==> ParseFileName(r.value.0) == Ok(FileName(version, Sanitized(raw, lower, isSpace), Up))
    ensures r.Ok? ==> ParseFileName(r.value.1) == Ok(FileName(version, Sanitized(raw, lower, isSpace), Down))
    ensures r.Ok? ==> IsSnake(Sanitized(raw, lower, isSpace))
    ensures r.Ok? ==> HasSuffix(r.value.0, ".sql") && HasSuffix(r.value.1, ".sql")
  {
    var next := NextVersion(versions);
    version := next;
    var name := SanitizeName(raw, lower, isSpace);
    if name.Err? {
      return Err(()), version;
    }
    SanitizedIsSnake(raw, lower, isSpace);
    var up, down := FileName(next, name.value, Up), FileName(next, name.value, Down);
    FileNameRoundTrip(up);
    FileNameRoundTrip(down);
    r := Ok((FileNameOf(up), FileNameOf(down)));
  }
}
