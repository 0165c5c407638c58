/** The string primitives the pipeline relies on: substring search (Python's
    `t in s`), `split` with a non-empty separator (Python's `str.split(sep)` and
    JavaScript's `String.prototype.split(sep)` agree on it: leftmost,
    non-overlapping occurrences), `join`, `str.replace`, and the ASCII part of
    `str.lower` and `str.title`. */
module Strings {
  import opened Wrappers

  /** `t` occurs in `s` starting at index `i`. */
  predicate OccursAt(s: string, t: string, i: int) {
    0 <= i && i + |t| <= |s| && s[i..i + |t|] == t
  }

  /** Python's `t in s` for two strings. */
  predicate Contains(s: string, t: string) {
    exists i | 0 <= i <= |s| :: OccursAt(s, t, i)
  }

  /** The leftmost occurrence of `t` in `s` at or after index `from`. */
  function FindFrom(s: string, t: string, from: nat): (r: Option<nat>)
    ensures r.Some? ==> from <= r.value && OccursAt(s, t, r.value)
    ensures r.Some? ==> forall j :: from <= j < r.value ==> !OccursAt(s, t, j)
    ensures r.None? ==> forall j :: from <= j ==> !OccursAt(s, t, j)
    decreases |s| - from
  {
    if from + |t| > |s| then None
    else if s[from..from + |t|] == t then Some(from)
    else FindFrom(s, t, from + 1)
  }

  /** An occurrence with none before it is the one `FindFrom` finds. */
  lemma FindFromFirst(s: string, t: string, i: nat)
    requires OccursAt(s, t, i)
    requires forall j :: 0 <= j < i ==> !OccursAt(s, t, j)
    ensures FindFrom(s, t, 0) == Some(i)
  {
  }

  /** When the first character of `t` does not occur again in `t`, an
      occurrence of `t` in `n + t` that starts inside `n` lies wholly inside
      `n`: one that reached into the appended `t` would have to match that
      first character with a later one. */
  lemma NoStraddle(n: string, t: string, j: nat)
    requires t != [] && forall k :: 1 <= k < |t| ==> t[k] != t[0]
    requires !Contains(n, t) && j < |n|
    ensures !OccursAt(n + t, t, j)
  {
    var s := n + t;
    if j + |t| <= |n| {
      assert s[j..j + |t|] == n[j..j + |t|];
      assert !OccursAt(n, t, j);
    } else if j + |t| <= |s| {
      var k := |n| - j;
      assert s[j + k] == t[0];
      assert s[j..j + |t|][k] != t[k];
    }
  }

  /** Under the same condition, the first occurrence of `t` in `n + t` is the
      appended one. */
  lemma AppendedFirst(n: string, t: string)
    requires t != [] && forall k :: 1 <= k < |t| ==> t[k] != t[0]
    requires !Contains(n, t)
    ensures FindFrom(n + t, t, 0) == Some(|n|)
  {
    var s := n + t;
    assert s[|n|..|n| + |t|] == t;
    forall j | 0 <= j < |n|
      ensures !OccursAt(s, t, j)
    {
      NoStraddle(n, t, j);
    }
    FindFromFirst(s, t, |n|);
  }

  /** `s.split(sep)`: the pieces between the leftmost non-overlapping
      occurrences of `sep`. */
  function Split(s: string, sep: string): (parts: seq<string>)
    requires sep != []
    ensures |parts| >= 1
    decreases |s|
  {
    match FindFrom(s, sep, 0)
    case None => [s]
    case Some(i) => [s[..i]] + Split(s[i + |sep|..], sep)
  }

  /** `sep.join(parts)` in Python, `parts.join(sep)` in JavaScript. */
  function Join(parts: seq<string>, sep: string): string {
    if |parts| == 0 then ""
    else if |parts| == 1 then parts[0]
    else parts[0] + sep + Join(parts[1..], sep)
  }

  /** `s.replace(pattern, replacement)`: every leftmost non-overlapping occurrence of
      `pattern` replaced, which is `replacement.join(s.split(pattern))`. */
  function Replace(s: string, pattern: string, replacement: string): string
    requires pattern != []
  {
    Join(Split(s, pattern), replacement)
  }

  /** Under the condition of `AppendedFirst`, replacing `t` in `n + t` replaces
      the appended copy only. */
  lemma ReplaceAppended(n: string, t: string, u: string)
    requires t != [] && forall k :: 1 <= k < |t| ==> t[k] != t[0]
    requires !Contains(n, t)
    ensures Replace(n + t, t, u) == n + u
  {
    var s := n + t;
    AppendedFirst(n, t);
    assert s[..|n|] == n;
    assert s[|n| + |t|..] == [];
    assert Split([], t) == [[]];
    assert Split(s, t) == [n] + [[]];
    assert Join([n, []], u) == n + u + Join([[]], u);
  }

  /** Joining the pieces of a split with the same separator gives back the
      original string. */
  lemma {:induction false} JoinSplit(s: string, sep: string)
    requires sep != []
    ensures Join(Split(s, sep), sep) == s
    decreases |s|
  {
    match FindFrom(s, sep, 0)
    case None =>
    case Some(i) =>
      var rest := s[i + |sep|..];
      var tail := Split(rest, sep);
      JoinSplit(rest, sep);
      assert Split(s, sep) == [s[..i]] + tail;
      assert ([s[..i]] + tail)[1..] == tail;
      assert s == s[..i] + sep + rest;
  }

  /** No piece of a split contains the separator. */
  lemma {:induction false} SplitPiecesAvoidSeparator(s: string, sep: string)
    requires sep != []
    ensures forall k :: 0 <= k < |Split(s, sep)| ==> !Contains(Split(s, sep)[k], sep)
    decreases |s|
  {
    match FindFrom(s, sep, 0)
    case None =>
      assert Split(s, sep) == [s];
      assert !Contains(s, sep);
    case Some(i) =>
      var rest := s[i + |sep|..];
      SplitPiecesAvoidSeparator(rest, sep);
      var head := s[..i];
      forall j | OccursAt(head, sep, j)
        ensures false
      {
        assert head[j..j + |sep|] == s[j..j + |sep|];
        assert OccursAt(s, sep, j);
      }
      assert Split(s, sep) == [head] + Split(rest, sep);
  }

  /** Without an occurrence of the separator, the split is the string itself. */
  lemma SplitAbsent(s: string, sep: string)
    requires sep != [] && !Contains(s, sep)
    ensures Split(s, sep) == [s]
  {
  }

  /** Replacing a substring that does not occur leaves the string unchanged. */
  lemma ReplaceAbsent(s: string, pattern: string, replacement: string)
    requires pattern != [] && !Contains(s, pattern)
    ensures Replace(s, pattern, replacement) == s
  {
    SplitAbsent(s, pattern);
  }

  /** A character that is in no piece and not in the separator is not in the join. */
  lemma {:induction false} JoinAvoids(parts: seq<string>, sep: string, c: char)
    requires forall k :: 0 <= k < |parts| ==> c !in parts[k]
    requires c !in sep
    ensures c !in Join(parts, sep)
  {
    if |parts| > 1 {
      JoinAvoids(parts[1..], sep, c);
    }
  }

  /** After replacing every `c` by a text without `c`, no `c` is left. */
  lemma ReplaceCharRemoves(s: string, c: char, replacement: string)
    requires c !in replacement
    ensures c !in Replace(s, [c], replacement)
  {
    var parts := Split(s, [c]);
    SplitPiecesAvoidSeparator(s, [c]);
    forall k | 0 <= k < |parts|
      ensures c !in parts[k]
    {
      if c in parts[k] {
        var i :| 0 <= i < |parts[k]| && parts[k][i] == c;
        assert OccursAt(parts[k], [c], i);
      }
    }
    JoinAvoids(parts, replacement, c);
  }

  /** Replacing a single character by a single character works position by
      position: each `c` becomes `d` and every other character is kept. */
  lemma {:induction false} ReplaceCharByChar(s: string, c: char, d: char)
    ensures |Replace(s, [c], [d])| == |s|
    ensures forall i :: 0 <= i < |s| ==> Replace(s, [c], [d])[i] == if s[i] == c then d else s[i]
    decreases |s|
  {
    match FindFrom(s, [c], 0)
    case None =>
      forall i | 0 <= i < |s|
        ensures s[i] != c
      {
        assert !OccursAt(s, [c], i);
      }
    case Some(i) =>
      var rest := s[i + 1..];
      var tail := Split(rest, [c]);
      ReplaceCharByChar(rest, c, d);
      assert Split(s, [c]) == [s[..i]] + tail;
      assert ([s[..i]] + tail)[1..] == tail;
      var joined := Join(tail, [d]);
      assert joined == Replace(rest, [c], [d]);
      var r := s[..i] + [d] + joined;
      assert Replace(s, [c], [d]) == r;
      assert |r| == |s|;
      forall j | 0 <= j < |s|
        ensures r[j] == if s[j] == c then d else s[j]
      {
        if j < i {
          assert !OccursAt(s, [c], j);
          assert s[j..j + 1] == [s[j]];
          assert r[j] == s[j];
        } else if j == i {
          assert s[i..i + 1] == [c];
          assert r[j] == d;
        } else {
          assert r[j] == joined[j - i - 1];
          assert rest[j - i - 1] == s[j];
        }
      }
  }

  // ---------------------------------------------------------------------
  // Case mapping restricted to ASCII letters.

  predicate IsUpper(c: char) { 'A' <= c <= 'Z' }
  predicate IsLower(c: char) { 'a' <= c <= 'z' }
  predicate IsLetter(c: char) { IsUpper(c) || IsLower(c) }

  function ToLower(c: char): char {
    if IsUpper(c) then (c as int + 32) as char else c
  }

  function ToUpper(c: char): char {
    if IsLower(c) then (c as int - 32) as char else c
  }

  /** `s.lower()` on ASCII letters; every other character is kept. */
  function Lower(s: string): string {
    seq(|s|, i requires 0 <= i < |s| => ToLower(s[i]))
  }

  /** `s.title()` on ASCII letters: a letter is upper-cased when the character
      before it is not a letter, and lower-cased otherwise. */
  function TitleAfter(s: string, afterLetter: bool): (r: string)
    ensures |r| == |s|
  {
    if s == [] then []
    else [if afterLetter then ToLower(s[0]) else ToUpper(s[0])] + TitleAfter(s[1..], IsLetter(s[0]))
  }

  function Title(s: string): string {
    TitleAfter(s, false)
  }

  /** Title-casing an already title-cased string changes nothing. */
  lemma {:induction false} TitleAfterIdempotent(s: string, afterLetter: bool)
    ensures TitleAfter(TitleAfter(s, afterLetter), afterLetter) == TitleAfter(s, afterLetter)
  {
    if s != [] {
      var t := TitleAfter(s, afterLetter);
      TitleAfterIdempotent(s[1..], IsLetter(s[0]));
      assert t[0] == if afterLetter then ToLower(s[0]) else ToUpper(s[0]);
      assert IsLetter(t[0]) == IsLetter(s[0]);
      assert t[1..] == TitleAfter(s[1..], IsLetter(s[0]));
    }
  }

  /** Title-casing changes the case of letters only. */
  lemma {:induction false} TitleAfterKeepsOthers(s: string, afterLetter: bool)
    ensures forall i :: 0 <= i < |s| && !IsLetter(s[i]) ==> TitleAfter(s, afterLetter)[i] == s[i]
    ensures forall i :: 0 <= i < |s| && IsLetter(s[i]) ==> IsLetter(TitleAfter(s, afterLetter)[i])
  {
    if s != [] {
      TitleAfterKeepsOthers(s[1..], IsLetter(s[0]));
      assert forall i :: 1 <= i < |s| ==> TitleAfter(s, afterLetter)[i] == TitleAfter(s[1..], IsLetter(s[0]))[i - 1];
    }
  }

  /** Title-casing keeps every character up to case. */
  lemma {:induction false} TitleAfterKeepsLetters(s: string, afterLetter: bool)
    ensures forall i :: 0 <= i < |s| ==> ToLower(TitleAfter(s, afterLetter)[i]) == ToLower(s[i])
  {
    if s != [] {
      TitleAfterKeepsLetters(s[1..], IsLetter(s[0]));
      assert forall i :: 1 <= i < |s| ==> TitleAfter(s, afterLetter)[i] == TitleAfter(s[1..], IsLetter(s[0]))[i - 1];
    }
  }

  lemma TitleIdempotent(s: string)
    ensures Title(Title(s)) == Title(s)
  {
    TitleAfterIdempotent(s, false);
  }

  /** The decimal digits of `n`, as an f-string prints an int. */
  function Decimal(n: nat): (r: string)
    ensures |r| >= 1
  {
    if n < 10 then [['0', '1', '2', '3', '4', '5', '6', '7', '8', '9'][n]]
    else Decimal(n / 10) + Decimal(n % 10)
  }
}
