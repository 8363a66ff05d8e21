/**
 Redaction of `key=value` and `key: value` assignments in error messages. Characters stand for
 bytes, and case folding is that of ASCII.
 */
module Redaction {
  const MARK: string := "<redacted>"

  predicate Terminator(c: char) {
    || c == '&' || c == ' ' || c == '\t' || c == '\r' || c == '\n' || c == '"' || c == '\''
    || c == ')' || c == ']' || c == '}' || c == ',' || c == ';'
  }

  function Lower(c: char): char { if 'A' <= c <= 'Z' then (c as int + 32) as char else c }

  /** `key` occurs at position `p`, whatever its case. */
  predicate Occurs(s: string, key: string, p: nat) {
    p + |key| <= |s| && forall i :: 0 <= i < |key| ==> Lower(s[p + i]) == key[i]
  }

  /** Index of the first occurrence at or after `from`, or -1. */
  function Find(s: string, key: string, from: nat): (p: int)
    ensures p < 0 ==> forall q: nat :: q >= from ==> !Occurs(s, key, q)
    ensures p >= 0 ==> p >= from && Occurs(s, key, p) && forall q: nat :: from <= q < p ==> !Occurs(s, key, q)
    decreases |s| + 1 - from
  {
    if from > |s| then -1
    else if Occurs(s, key, from) then from
    else Find(s, key, from + 1)
  }

  /** Where the value that starts at `from` ends: at a terminator or at the end. */
  function ValueEnd(s: string, from: nat): (e: nat)
    requires from <= |s|
    ensures from <= e <= |s| && (forall i :: from <= i < e ==> !Terminator(s[i])) && (e < |s| ==> Terminator(s[e]))
    decreases |s| - from
  {
    if from < |s| && !Terminator(s[from]) then ValueEnd(s, from + 1) else from
  }

  /** Every assignment of `key`, first to last, loses its value. */
  function Redact(s: string, key: string): string
    requires key != ""
    decreases |s|
  {
    var p := Find(s, key, 0);
    if p < 0 then s
    else
      var a := p + |key|;
      s[..a] + MARK + Redact(s[ValueEnd(s, a)..], key)
  }

  lemma RedactStep(s: string, key: string)
    requires key != ""
    ensures var p := Find(s, key, 0);
            if p < 0 then Redact(s, key) == s
            else Redact(s, key) == s[..p + |key|] + MARK + Redact(s[ValueEnd(s, p + |key|)..], key)
  {
  }

  lemma Rejoin(out: string, s: string, p: nat, a: nat, tail: string)
    requires p <= a <= |s|
    ensures out + (s[..a] + MARK + tail) == (out + s[..p] + s[p..a] + MARK) + tail
  {
  }

  /** The loop: the message gets shorter by at least the key in every turn. */
  method RedactAssignment(message: string, key: string) returns (out: string)
    requires key != ""
    ensures out == Redact(message, key)
  {
    hide Redact, Find;
    var rest := message;
    out := "";
    while true
      invariant out + Redact(rest, key) == Redact(message, key)
      decreases |rest|
    {
      RedactStep(rest, key);
      var idx := Find(rest, key, 0);
      if idx < 0 {
        out := out + rest;
        return;
      }
      var valueStart := idx + |key|;
      var valueEnd := valueStart;
      while valueEnd < |rest| && !Terminator(rest[valueEnd])
        invariant valueStart <= valueEnd <= |rest|
        invariant ValueEnd(rest, valueEnd) == ValueEnd(rest, valueStart)
      {
        valueEnd := valueEnd + 1;
      }
      Rejoin(out, rest, idx, valueStart, Redact(rest[valueEnd..], key));
      out := out + rest[..idx] + rest[idx..valueStart] + MARK;
      rest := rest[valueEnd..];
    }
  }

  // ---------------------------------------------------------------- what a key looks like

  /** Lower case, no terminator, no angle bracket, and a final `=` or `:`. */
  ghost predicate KeyOk(key: string) {
    && key != "" && (key[|key| - 1] == '=' || key[|key| - 1] == ':')
    && (forall i :: 0 <= i < |key| ==> Lower(key[i]) == key[i] && key[i] != '<' && key[i] != '>' && !Terminator(key[i]))
  }

  /** The mark stands at `p` and the value ends with it. */
  ghost predicate MarkedAt(s: string, p: nat) {
    && p + |MARK| <= |s| && s[p..p + |MARK|] == MARK
    && (p + |MARK| < |s| ==> Terminator(s[p + |MARK|]))
  }

  /** Every occurrence of the key is followed by the mark, and by nothing else of a value. */
  ghost predicate Redacted(s: string, key: string) {
    forall p: nat :: Occurs(s, key, p) ==> MarkedAt(s, p + |key|)
  }

  // ---------------------------------------------------------------- where keys can occur

  lemma MarkChars()
    ensures |MARK| == 10 && MARK[0] == '<' && MARK[9] == '>'
    ensures forall i :: 0 <= i < 10 ==> MARK[i] != '=' && MARK[i] != ':' && !Terminator(MARK[i])
  {
  }

  /** The text of an occurrence has no angle bracket and ends like the key. */
  lemma OccurrenceChars(t: string, key: string, q: nat)
    requires KeyOk(key) && Occurs(t, key, q)
    ensures forall n :: q <= n < q + |key| ==> t[n] != '<' && t[n] != '>'
    ensures t[q + |key| - 1] == '=' || t[q + |key| - 1] == ':'
    ensures !Terminator(t[q])
  {
    forall n | q <= n < q + |key| ensures Lower(t[n]) == key[n - q] {
      assert t[q + (n - q)] == t[n];
    }
  }

  /** No key straddles the mark or hides in it. */
  lemma OccursBesideMark(head: string, tail: string, key: string, q: nat)
    requires KeyOk(key) && Occurs(head + MARK + tail, key, q)
    ensures q + |key| <= |head| || q >= |head| + |MARK|
    ensures q + |key| <= |head| ==> Occurs(head, key, q)
    ensures q >= |head| + |MARK| ==> Occurs(tail, key, q - |head| - |MARK|)
  {
    MarkChars();
    var t := head + MARK + tail;
    var a := |head|;
    assert t[a] == '<' && t[a + 9] == '>';
    assert forall i :: a <= i < a + 10 ==> t[i] == MARK[i - a];
    OccurrenceChars(t, key, q);
    assert !(q <= a < q + |key|) && !(q <= a + 9 < q + |key|);
    if q + |key| <= a {
      forall i | 0 <= i < |key| ensures Lower(head[q + i]) == key[i] { assert t[q + i] == head[q + i]; }
    } else if q >= a + 10 {
      forall i | 0 <= i < |key| ensures Lower(tail[q - a - 10 + i]) == key[i] { assert t[q + i] == tail[q - a - 10 + i]; }
    }
  }

  lemma MarkedInTail(head: string, tail: string, m: nat)
    requires MarkedAt(tail, m)
    ensures MarkedAt(head + MARK + tail, |head| + |MARK| + m)
  {
    MarkChars();
    var t := head + MARK + tail;
    var n := |head| + 10 + m;
    assert t[n..n + 10] == tail[m..m + 10];
  }

  lemma MarkedAtMark(head: string, tail: string)
    requires tail != "" ==> Terminator(tail[0])
    ensures MarkedAt(head + MARK + tail, |head|)
  {
    MarkChars();
    var t := head + MARK + tail;
    assert t[|head|..|head| + 10] == MARK;
  }

  /** What stood marked before the key at `p` still does. */
  lemma MarkedInHead(s: string, key: string, p: nat, n: nat, tail: string)
    requires KeyOk(key) && Occurs(s, key, p) && n < p + |key| && MarkedAt(s, n)
    ensures MarkedAt(s[..p + |key|] + MARK + tail, n)
  {
    MarkChars();
    OccurrenceChars(s, key, p);
    var a := p + |key|;
    assert forall i :: n <= i < n + 10 ==> s[i] == MARK[i - n] by {
      forall i | n <= i < n + 10 ensures s[i] == MARK[i - n] { assert s[i] == s[n..n + 10][i - n]; }
    }
    assert s[n] == '<' && s[n + 9] == '>';
    assert n < p && !(p <= n + 9 < a);
    assert n + 10 <= p;
    var t := s[..a] + MARK + tail;
    assert t[n..n + 10] == s[n..n + 10] && t[n + 10] == s[n + 10];
  }

  lemma RedactKeepsHead(s: string, key: string)
    requires KeyOk(key) && (s != "" ==> Terminator(s[0]))
    ensures Redact(s, key) != "" ==> Terminator(Redact(s, key)[0])
  {
  }

  /** Redacting one key marks its values, and keeps every other key's values marked. */
  lemma {:induction false} RedactKeeps(s: string, key: string, other: string)
    requires KeyOk(key) && KeyOk(other) && (key == other || Redacted(s, other))
    ensures Redacted(Redact(s, key), other)
    decreases |s|
  {
    hide *;
    RedactTurn(s, key);
    var p := Find(s, key, 0);
    if p >= 0 {
      var rest := s[ValueEnd(s, p + |key|)..];
      RestRedacted(s, key, other, p);
      RedactKeeps(rest, key, other);
      RedactKeepsHead(rest, key);
      TurnKeeps(s, key, other, p, Redact(rest, key));
    }
  }

  /** What one turn of the loop does, and that it makes progress. */
  lemma RedactTurn(s: string, key: string)
    requires KeyOk(key)
    ensures key != ""
    ensures var p := Find(s, key, 0);
            if p < 0 then Redact(s, key) == s && Redacted(s, key)
            else
              && p + |key| <= |s| && Occurs(s, key, p) && (forall q: nat :: q < p ==> !Occurs(s, key, q))
              && var rest := s[ValueEnd(s, p + |key|)..];
              |rest| < |s| && (rest != "" ==> Terminator(rest[0])) && Redact(s, key) == s[..p + |key|] + MARK + Redact(rest, key)
  {
  }

  lemma RestRedacted(s: string, key: string, other: string, p: nat)
    requires p + |key| <= |s| && (key == other || Redacted(s, other))
    ensures key == other || Redacted(s[ValueEnd(s, p + |key|)..], other)
  {
    if key != other {
      SuffixRedacted(s, other, ValueEnd(s, p + |key|));
    }
  }

  lemma FoundWithin(s: string, key: string, p: nat)
    requires Occurs(s, key, p)
    ensures p + |key| <= |s|
  {
  }

  lemma KeyIsNotEmpty(key: string)
    requires KeyOk(key)
    ensures key != ""
  {
  }

  lemma TurnKeeps(s: string, key: string, other: string, p: nat, tail: string)
    requires KeyOk(key) && KeyOk(other) && Occurs(s, key, p) && forall q: nat :: q < p ==> !Occurs(s, key, q)
    requires key == other || Redacted(s, other)
    requires Redacted(tail, other) && (tail != "" ==> Terminator(tail[0]))
    ensures Redacted(s[..p + |key|] + MARK + tail, other)
  {
    hide MarkedAt;
    var head := s[..p + |key|];
    var t := head + MARK + tail;
    forall q: nat | Occurs(t, other, q) ensures MarkedAt(t, q + |other|) {
      OccursBesideMark(head, tail, other, q);
      if q + |other| <= |head| {
        PrefixOccurs(s, other, q, p + |key|);
        if q + |other| == |head| {
          MarkedAtMark(head, tail);
        } else {
          assert key != other;
          MarkedInHead(s, key, p, q + |other|, tail);
        }
      } else {
        MarkedInTail(head, tail, q - |head| - |MARK| + |other|);
      }
    }
  }

  lemma PrefixOccurs(s: string, key: string, q: nat, n: nat)
    requires n <= |s| && Occurs(s[..n], key, q)
    ensures Occurs(s, key, q)
  {
  }

  lemma SuffixRedacted(s: string, key: string, e: nat)
    requires e <= |s| && Redacted(s, key)
    ensures Redacted(s[e..], key)
  {
    var r := s[e..];
    forall q: nat | Occurs(r, key, q) ensures MarkedAt(r, q + |key|) {
      forall i | 0 <= i < |key| ensures Lower(s[e + q + i]) == key[i] { assert r[q + i] == s[e + q + i]; }
      assert Occurs(s, key, e + q);
      var m := q + |key|;
      assert r[m..m + |MARK|] == s[e + m..e + m + |MARK|];
    }
  }

  // ---------------------------------------------------------------- theorems

  lemma MarkEndsValue(s: string, a: nat)
    requires MarkedAt(s, a)
    ensures ValueEnd(s, a) == a + |MARK| && s[..a] + MARK + s[a + |MARK|..] == s
  {
  }

  /** A message in which a key is redacted is left alone: redaction is idempotent. */
  lemma {:induction false} RedactedIsFixed(s: string, key: string)
    requires KeyOk(key) && Redacted(s, key)
    ensures Redact(s, key) == s
    decreases |s|
  {
    KeyIsNotEmpty(key);
    MarkChars();
    hide Redact, MarkedAt, KeyOk, Occurs;
    RedactStep(s, key);
    var p := Find(s, key, 0);
    if p >= 0 {
      FoundWithin(s, key, p);
      var a := p + |key|;
      assert MarkedAt(s, a);
      MarkEndsValue(s, a);
      var e := ValueEnd(s, a);
      SuffixRedacted(s, key, e);
      RedactedIsFixed(s[e..], key);
    }
  }

  lemma RedactIsIdempotent(s: string, key: string)
    requires KeyOk(key)
    ensures Redact(Redact(s, key), key) == Redact(s, key)
  {
    RedactKeeps(s, key, key);
    RedactedIsFixed(Redact(s, key), key);
  }

  ghost predicate KeysOk(keys: seq<string>) { forall i :: 0 <= i < |keys| ==> KeyOk(keys[i]) }

  /** One key after the other. */
  function RedactAll(s: string, keys: seq<string>): string
    requires KeysOk(keys)
  {
    if keys == [] then s else Redact(RedactAll(s, keys[..|keys| - 1]), keys[|keys| - 1])
  }

  /** After all keys, in whatever order, every occurrence of every one of them is followed by the
      mark: no later key undoes an earlier one. */
  lemma {:induction false} AllKeysAreRedacted(s: string, keys: seq<string>)
    requires KeysOk(keys)
    ensures forall i :: 0 <= i < |keys| ==> Redacted(RedactAll(s, keys), keys[i])
  {
    hide Redacted, Redact, KeyOk;
    if keys != [] {
      var n := |keys| - 1;
      AllKeysAreRedacted(s, keys[..n]);
      forall i | 0 <= i < |keys| ensures Redacted(RedactAll(s, keys), keys[i]) {
        assert i < n ==> keys[i] == keys[..n][i];
        RedactKeeps(RedactAll(s, keys[..n]), keys[n], keys[i]);
      }
    }
  }

  lemma {:induction false} FixedByAll(s: string, keys: seq<string>)
    requires KeysOk(keys) && forall i :: 0 <= i < |keys| ==> Redacted(s, keys[i])
    ensures RedactAll(s, keys) == s
  {
    if keys != [] {
      FixedByAll(s, keys[..|keys| - 1]);
      RedactedIsFixed(s, keys[|keys| - 1]);
    }
  }

  /** Redacting again, with the same keys in another order, changes nothing. */
  lemma RedactAllIsIdempotent(s: string, keys: seq<string>, again: seq<string>)
    requires KeysOk(keys) && KeysOk(again) && forall k :: k in again ==> k in keys
    ensures RedactAll(RedactAll(s, keys), again) == RedactAll(s, keys)
  {
    hide Redacted, Redact, KeyOk;
    AllKeysAreRedacted(s, keys);
    forall i | 0 <= i < |again| ensures Redacted(RedactAll(s, keys), again[i]) {
      assert again[i] in keys;
    }
    FixedByAll(RedactAll(s, keys), again);
  }

  // ---------------------------------------------------------------- the two key lists

  const ASSIGNMENT_KEYS: seq<string> := [
    "smtp_secret=", "smtp-secret=", "smtp_token=", "smtp-token=", "smtp_password=", "smtp-password=",
    "password=", "token=", "secret=", "smtp_secret:", "smtp-token:", "smtp_password:", "smtp-password:",
    "password:", "token:", "secret:"]

  const QUERY_KEYS: seq<string> := ["token=", "secret=", "signature=", "key="]

  lemma SmtpSecretKeys()
    ensures KeyOk("smtp_secret=") && KeyOk("smtp-secret=") && KeyOk("smtp_secret:")
  {
  }

  lemma SmtpTokenKeys()
    ensures KeyOk("smtp_token=") && KeyOk("smtp-token=") && KeyOk("smtp-token:")
  {
  }

  lemma SmtpPasswordKeys()
    ensures KeyOk("smtp_password=") && KeyOk("smtp-password=")
  {
  }

  lemma SmtpPasswordColonKeys()
    ensures KeyOk("smtp_password:") && KeyOk("smtp-password:")
  {
  }

  lemma PlainKeys()
    ensures KeyOk("password=") && KeyOk("token=") && KeyOk("secret=")
  {
  }

  lemma PlainColonKeys()
    ensures KeyOk("password:") && KeyOk("token:") && KeyOk("secret:")
  {
  }

  lemma QueryKeys()
    ensures KeyOk("signature=") && KeyOk("key=")
  {
  }

  lemma ListedKeysAreOk()
    ensures KeysOk(ASSIGNMENT_KEYS) && KeysOk(QUERY_KEYS)
  {
    SmtpSecretKeys();
    SmtpTokenKeys();
    SmtpPasswordKeys();
    SmtpPasswordColonKeys();
    PlainKeys();
    PlainColonKeys();
    QueryKeys();
    hide KeyOk;
  }

  method RedactKeys(message: string, keys: seq<string>) returns (out: string)
    requires KeysOk(keys)
    ensures out == RedactAll(message, keys)
    ensures forall k :: k in keys ==> Redacted(out, k)
  {
    out := message;
    AllKeysAreRedacted(message, keys);
    hide Redact, Redacted, KeyOk;
    var i := 0;
    while i < |keys|
      invariant 0 <= i <= |keys| && out == RedactAll(message, keys[..i])
    {
      assert keys[..i + 1][..i] == keys[..i];
      KeyIsNotEmpty(keys[i]);
      out := RedactAssignment(out, keys[i]);
      i := i + 1;
    }
    assert keys[..|keys|] == keys;
  }

  method RedactSecretAssignments(message: string) returns (out: string)
    ensures KeysOk(ASSIGNMENT_KEYS) && out == RedactAll(message, ASSIGNMENT_KEYS)
    ensures forall k :: k in ASSIGNMENT_KEYS ==> Redacted(out, k)
  {
    hide *;
    ListedKeysAreOk();
    out := RedactKeys(message, ASSIGNMENT_KEYS);
  }

  method RedactSensitiveQueryLikeText(message: string) returns (out: string)
    ensures KeysOk(QUERY_KEYS) && out == RedactAll(message, QUERY_KEYS)
    ensures forall k :: k in QUERY_KEYS ==> Redacted(out, k)
  {
    hide *;
    ListedKeysAreOk();
    out := RedactKeys(message, QUERY_KEYS);
  }
}
