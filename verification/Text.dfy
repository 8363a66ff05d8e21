/** String operations of the runtime, as far as the models use them. */
module Text {
  function TrimLeft(s: string, cut: char -> bool): string {
    if s != "" && cut(s[0]) then TrimLeft(s[1..], cut) else s
  }

  function TrimRight(s: string, cut: char -> bool): string {
    if s != "" && cut(s[|s| - 1]) then TrimRight(s[..|s| - 1], cut) else s
  }

  function Trim(s: string, cut: char -> bool): string { TrimRight(TrimLeft(s, cut), cut) }

  /** First position of `c`, or -1. */
  function IndexOf(s: string, c: char): (i: int)
    ensures -1 <= i < |s| && (i >= 0 ==> s[i] == c && forall k :: 0 <= k < i ==> s[k] != c)
    ensures i < 0 ==> forall k :: 0 <= k < |s| ==> s[k] != c
  {
    if s == "" then -1
    else if s[0] == c then 0
    else
      var i := IndexOf(s[1..], c);
      assert forall k :: 0 < k < |s| ==> s[k] == s[1..][k - 1];
      if i < 0 then -1 else i + 1
  }

  /** Last position of `c`, or -1. */
  function LastIndexOf(s: string, c: char): (i: int)
    ensures -1 <= i < |s| && (i >= 0 ==> s[i] == c && forall k :: i < k < |s| ==> s[k] != c)
    ensures i < 0 ==> forall k :: 0 <= k < |s| ==> s[k] != c
  {
    if s == "" then -1
    else if s[|s| - 1] == c then |s| - 1
    else
      assert forall k :: 0 <= k < |s| - 1 ==> s[k] == s[..|s| - 1][k];
      LastIndexOf(s[..|s| - 1], c)
  }

  lemma IndexIs(s: string, c: char, n: nat)
    requires n < |s| && s[n] == c && forall k :: 0 <= k < n ==> s[k] != c
    ensures IndexOf(s, c) == n
  {
  }

  lemma LastIndexIs(s: string, c: char, n: nat)
    requires n < |s| && s[n] == c && forall k :: n < k < |s| ==> s[k] != c
    ensures LastIndexOf(s, c) == n
  {
  }

  predicate HasSuffix(s: string, suffix: string) {
    |s| >= |suffix| && s[|s| - |suffix|..] == suffix
  }

  lemma {:induction false} TrimLeftForm(s: string, cut: char -> bool)
    ensures TrimLeft(s, cut) == "" || !cut(TrimLeft(s, cut)[0])
    ensures exists n :: 0 <= n <= |s| && TrimLeft(s, cut) == s[n..]
  {
    if s != "" && cut(s[0]) {
      TrimLeftForm(s[1..], cut);
      var n :| 0 <= n <= |s[1..]| && TrimLeft(s[1..], cut) == s[1..][n..];
      assert s[1..][n..] == s[n + 1..];
    } else {
      assert s[0..] == s;
    }
  }

  lemma {:induction false} TrimRightForm(s: string, cut: char -> bool)
    ensures TrimRight(s, cut) == "" || !cut(TrimRight(s, cut)[|TrimRight(s, cut)| - 1])
    ensures exists n :: 0 <= n <= |s| && TrimRight(s, cut) == s[..n]
    decreases |s|
  {
    if s != "" && cut(s[|s| - 1]) {
      TrimRightForm(s[..|s| - 1], cut);
      var n :| 0 <= n <= |s| - 1 && TrimRight(s[..|s| - 1], cut) == s[..|s| - 1][..n];
      assert s[..|s| - 1][..n] == s[..n];
    } else {
      assert s[..|s|] == s;
    }
  }

  ghost predicate IsTrimmed(s: string, cut: char -> bool) {
    s == "" || (!cut(s[0]) && !cut(s[|s| - 1]))
  }

  /** Trimming gives a trimmed part of the text, and a trimmed text is its own. */
  lemma TrimForm(s: string, cut: char -> bool)
    ensures IsTrimmed(Trim(s, cut), cut) && |Trim(s, cut)| <= |s| && (|Trim(s, cut)| == |s| ==> Trim(s, cut) == s)
    ensures forall c :: c in Trim(s, cut) ==> c in s
    ensures IsTrimmed(s, cut) ==> Trim(s, cut) == s
  {
    var l := TrimLeft(s, cut);
    TrimLeftForm(s, cut);
    TrimRightForm(l, cut);
    var t := Trim(s, cut);
    assert t != "" ==> t[0] == l[0];
  }

  lemma {:induction false} TrimRightAppend(a: string, t: string, cut: char -> bool)
    requires a != "" && !cut(a[|a| - 1])
    ensures TrimRight(a + t, cut) == a + TrimRight(t, cut)
    decreases |t|
  {
    if t != "" && cut(t[|t| - 1]) {
      assert (a + t)[..|a + t| - 1] == a + t[..|t| - 1];
      TrimRightAppend(a, t[..|t| - 1], cut);
    } else if t == "" {
      assert a + t == a;
    }
  }
}
