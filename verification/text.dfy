/**
 * String operations of Python's `str` and JavaScript's `String` used by the
 * extractors, the catalogue and the browser pages: whitespace stripping,
 * substring search, replacement, splitting, joining and case mapping.
 *
 * Whitespace is the ASCII set (space, tab, line feed, vertical tab, form feed,
 * carriage return). Case mapping covers ASCII and the Latin-1 letters used in
 * Portuguese (À-Þ and à-þ); other Unicode case rules are not modelled.
 */
module Text {

  predicate IsSpace(c: char) {
    c == ' ' || c == '\t' || c == '\n' || c == '\r' || c == '\U{000B}' || c == '\U{000C}'
  }

  predicate IsDigit(c: char) {
    '0' <= c <= '9'
  }

  predicate AllDigits(s: string) {
    forall i | 0 <= i < |s| :: IsDigit(s[i])
  }

  predicate NoSpaceAtEnds(s: string) {
    s == [] || (!IsSpace(s[0]) && !IsSpace(s[|s| - 1]))
  }

  /** Python `s.lstrip()`. */
  function StripLeft(s: string): string {
    if |s| > 0 && IsSpace(s[0]) then StripLeft(s[1..]) else s
  }

  /** `lstrip` drops a run of leading whitespace and keeps the rest, which starts with a non-space. */
  lemma {:induction false} StripLeftSpec(s: string)
    ensures var r := StripLeft(s);
            |r| <= |s| && r == s[|s| - |r|..] && (r == [] || !IsSpace(r[0]))
            && forall i | 0 <= i < |s| - |r| :: IsSpace(s[i])
  {
    if |s| > 0 && IsSpace(s[0]) {
      StripLeftSpec(s[1..]);
      var r := StripLeft(s);
      assert s[1..][|s| - 1 - |r|..] == s[|s| - |r|..];
      forall i | 0 <= i < |s| - |r|
        ensures IsSpace(s[i])
      {
        if i > 0 {
          assert s[i] == s[1..][i - 1];
        }
      }
    }
  }

  /** Python `s.rstrip()`. */
  function StripRight(s: string): string {
    if |s| > 0 && IsSpace(s[|s| - 1]) then StripRight(s[..|s| - 1]) else s
  }

  /** `rstrip` drops a run of trailing whitespace and keeps the rest, which ends with a non-space. */
  lemma {:induction false} StripRightSpec(s: string)
    ensures var r := StripRight(s);
            |r| <= |s| && r == s[..|r|] && (r == [] || !IsSpace(r[|r| - 1]))
            && forall i | |r| <= i < |s| :: IsSpace(s[i])
  {
    if |s| > 0 && IsSpace(s[|s| - 1]) {
      StripRightSpec(s[..|s| - 1]);
      var r := StripRight(s);
      assert s[..|s| - 1][..|r|] == s[..|r|];
      forall i | |r| <= i < |s|
        ensures IsSpace(s[i])
      {
        if i < |s| - 1 {
          assert s[i] == s[..|s| - 1][i];
        }
      }
    }
  }

  /** Python `s.strip()`: the text between the first and the last non-space character. */
  function Strip(s: string): (r: string)
    ensures NoSpaceAtEnds(r)
    ensures |r| <= |s|
  {
    var l := StripLeft(s);
    StripLeftSpec(s);
    StripRightSpec(l);
    StripRight(l)
  }

  /** `Strip` keeps exactly the characters between the surrounding whitespace runs. */
  lemma {:induction false} StripIsInfix(s: string)
    ensures exists a, b :: 0 <= a <= b <= |s| && Strip(s) == s[a..b]
                           && (forall i | 0 <= i < a :: IsSpace(s[i]))
                           && (forall i | b <= i < |s| :: IsSpace(s[i]))
  {
    var l := StripLeft(s);
    var a := |s| - |l|;
    var r := StripRight(l);
    StripLeftSpec(s);
    StripRightSpec(l);
    assert s[a..a + |r|] == r;
    assert forall i | a + |r| <= i < |s| :: IsSpace(s[i]) by {
      forall i | a + |r| <= i < |s| ensures IsSpace(s[i]) {
        assert s[i] == l[i - a];
      }
    }
  }

  /** `Strip` leaves the empty string exactly when every character is whitespace. */
  lemma {:induction false} StripEmptyIffBlank(s: string)
    ensures Strip(s) == [] <==> forall i | 0 <= i < |s| :: IsSpace(s[i])
  {
    var l := StripLeft(s);
    StripLeftSpec(s);
    StripRightSpec(l);
    if Strip(s) == [] {
      assert l == [];
    } else {
      var r := Strip(s);
      assert !IsSpace(r[0]);
      assert r[0] == l[0] == s[|s| - |l|];
    }
  }

  /** Stripping a string that has no whitespace at its ends changes nothing. */
  lemma StripNoop(s: string)
    requires NoSpaceAtEnds(s)
    ensures Strip(s) == s
  {
  }

  /** Python `s.find(sub, i)` restricted to start positions from `i`: the first index, or -1. */
  function FindFrom(s: string, sub: string, i: nat): (r: int)
    ensures r == -1 || (i <= r && r + |sub| <= |s|)
    decreases |s| - i
  {
    if i + |sub| > |s| then -1
    else if s[i..i + |sub|] == sub then i
    else FindFrom(s, sub, i + 1)
  }

  /** Python `s.find(sub)`. */
  function Find(s: string, sub: string): (r: int)
    ensures r == -1 || (0 <= r && r + |sub| <= |s|)
  {
    FindFrom(s, sub, 0)
  }

  predicate OccursAt(s: string, sub: string, i: int) {
    0 <= i && i + |sub| <= |s| && s[i..i + |sub|] == sub
  }

  /** Python `sub in s`. */
  predicate Contains(s: string, sub: string) {
    Find(s, sub) >= 0
  }

  /** Python `any(w in s for w in ws)`. */
  predicate ContainsAny(s: string, ws: seq<string>) {
    ws != [] && (Contains(s, ws[0]) || ContainsAny(s, ws[1..]))
  }

  /** `ContainsAny` is the existential it stands for. */
  lemma {:induction false} ContainsAnyIff(s: string, ws: seq<string>)
    ensures ContainsAny(s, ws) <==> exists k | 0 <= k < |ws| :: Contains(s, ws[k])
  {
    if ws != [] {
      ContainsAnyIff(s, ws[1..]);
      if !Contains(s, ws[0]) && exists k | 0 <= k < |ws| :: Contains(s, ws[k]) {
        var k :| 0 <= k < |ws| && Contains(s, ws[k]);
        assert ws[1..][k - 1] == ws[k];
      }
    }
  }

  /** `FindFrom` returns the first occurrence at or after `i`, and -1 when there is none. */
  lemma {:induction false} FindFromSpec(s: string, sub: string, i: nat)
    ensures var r := FindFrom(s, sub, i);
            (r == -1 && forall k | i <= k :: !OccursAt(s, sub, k))
            || (i <= r && OccursAt(s, sub, r) && forall k | i <= k < r :: !OccursAt(s, sub, k))
    decreases |s| - i
  {
    if i + |sub| > |s| {
    } else if s[i..i + |sub|] == sub {
    } else {
      FindFromSpec(s, sub, i + 1);
    }
  }

  /** `Find` is the first occurrence of `sub` in `s`, or -1 when `sub` does not occur. */
  lemma FindSpec(s: string, sub: string)
    ensures var r := Find(s, sub);
            (r == -1 && forall k :: !OccursAt(s, sub, k))
            || (OccursAt(s, sub, r) && forall k | 0 <= k < r :: !OccursAt(s, sub, k))
  {
    FindFromSpec(s, sub, 0);
  }

  /** `Contains` holds exactly when `sub` occurs somewhere in `s`. */
  lemma ContainsIff(s: string, sub: string)
    ensures Contains(s, sub) <==> exists k :: OccursAt(s, sub, k)
  {
    FindSpec(s, sub);
  }

  /** Python `s.find(c)` for one character: the first index of `c`, or -1. */
  function IndexOf(s: string, c: char): (r: int)
    ensures -1 <= r < |s|
    ensures r >= 0 ==> s[r] == c
    ensures forall j | 0 <= j < |s| && (r < 0 || j < r) :: s[j] != c
  {
    if s == [] then -1
    else if s[0] == c then 0
    else var k := IndexOf(s[1..], c); if k < 0 then -1 else k + 1
  }

  /** Python `s.startswith(p)`. */
  predicate StartsWith(s: string, p: string) {
    |p| <= |s| && s[..|p|] == p
  }

  /** Python `s.endswith(p)`. */
  predicate EndsWith(s: string, p: string) {
    |p| <= |s| && s[|s| - |p|..] == p
  }

  /** Upper-case mapping of one character (ASCII and Latin-1 letters). */
  function UpperChar(c: char): char {
    if 'a' <= c <= 'z' then (c as int - 32) as char
    else if '\U{00E0}' <= c <= '\U{00FE}' && c != '\U{00F7}' then (c as int - 32) as char
    else c
  }

  /** Lower-case mapping of one character (ASCII and Latin-1 letters). */
  function LowerChar(c: char): char {
    if 'A' <= c <= 'Z' then (c as int + 32) as char
    else if '\U{00C0}' <= c <= '\U{00DE}' && c != '\U{00D7}' then (c as int + 32) as char
    else c
  }

  /** Python `s.upper()`. */
  function Upper(s: string): (r: string)
    ensures |r| == |s| && forall i | 0 <= i < |s| :: r[i] == UpperChar(s[i])
  {
    seq(|s|, i requires 0 <= i < |s| => UpperChar(s[i]))
  }

  /** Python `s.lower()` / `s.casefold()`, JavaScript `s.toLowerCase()`. */
  function Lower(s: string): (r: string)
    ensures |r| == |s| && forall i | 0 <= i < |s| :: r[i] == LowerChar(s[i])
  {
    seq(|s|, i requires 0 <= i < |s| => LowerChar(s[i]))
  }

  /** Python `s.replace(a, b)` for single characters. */
  function ReplaceChar(s: string, a: char, b: char): (r: string)
    ensures |r| == |s|
    ensures forall i | 0 <= i < |s| :: r[i] == (if s[i] == a then b else s[i])
  {
    seq(|s|, i requires 0 <= i < |s| => if s[i] == a then b else s[i])
  }

  /** JavaScript `s.replace(a, b)` with a string pattern: only the first occurrence. */
  function ReplaceFirstChar(s: string, a: char, b: char): (r: string)
    ensures |r| == |s|
  {
    if s == [] then []
    else if s[0] == a then [b] + s[1..]
    else [s[0]] + ReplaceFirstChar(s[1..], a, b)
  }

  /** Python `s.replace(a, '')` for a single character. */
  function RemoveChar(s: string, a: char): (r: string)
    ensures a !in r
    ensures forall c | c in r :: c in s
  {
    if s == [] then []
    else if s[0] == a then RemoveChar(s[1..], a)
    else [s[0]] + RemoveChar(s[1..], a)
  }

  /** Python `s.replace(p, '')`: delete the non-overlapping occurrences of `p`, scanning left to right. */
  function RemoveAll(s: string, p: string): string
    requires p != []
  {
    if s == [] then []
    else if StartsWith(s, p) then RemoveAll(s[|p|..], p)
    else [s[0]] + RemoveAll(s[1..], p)
  }

  /** A string in which `a` does not occur is left unchanged by `RemoveChar`. */
  lemma {:induction false} RemoveCharAbsent(s: string, a: char)
    requires a !in s
    ensures RemoveChar(s, a) == s
  {
    if s != [] {
      RemoveCharAbsent(s[1..], a);
    }
  }

  /** A string that does not contain the first character of `p` is left unchanged by `RemoveAll`. */
  lemma {:induction false} RemoveAllAbsent(s: string, p: string)
    requires p != [] && p[0] !in s
    ensures RemoveAll(s, p) == s
  {
    if s != [] {
      RemoveAllAbsent(s[1..], p);
    }
  }

  function Count(s: string, c: char): nat {
    if s == [] then 0 else (if s[0] == c then 1 else 0) + Count(s[1..], c)
  }

  /** Python `s.split(c)` for a single-character separator. */
  function Split(s: string, c: char): (r: seq<string>)
    ensures |r| >= 1
  {
    if s == [] then [[]]
    else if s[0] == c then [[]] + Split(s[1..], c)
    else var rest := Split(s[1..], c); [[s[0]] + rest[0]] + rest[1..]
  }

  /** `s.split(c)` has one more part than `s` has separators, and no part contains the separator. */
  lemma {:induction false} SplitParts(s: string, c: char)
    ensures |Split(s, c)| == Count(s, c) + 1
    ensures forall k | 0 <= k < |Split(s, c)| :: c !in Split(s, c)[k]
  {
    if s != [] {
      SplitParts(s[1..], c);
    }
  }

  /** Splitting `a + [c] + b` where `a` and `b` are free of `c` gives exactly `[a, b]`. */
  lemma {:induction false} SplitTwo(a: string, c: char, b: string)
    requires c !in a && c !in b
    ensures Split(a + [c] + b, c) == [a, b]
  {
    if a == [] {
      assert a + [c] + b == [c] + b;
      SplitNone(b, c);
    } else {
      assert (a + [c] + b)[1..] == a[1..] + [c] + b;
      SplitTwo(a[1..], c, b);
      assert [a[0]] + a[1..] == a;
    }
  }

  /** A leading part free of the separator becomes the first part of the split. */
  lemma {:induction false} SplitCons(a: string, c: char, rest: string)
    requires c !in a
    ensures Split(a + [c] + rest, c) == [a] + Split(rest, c)
  {
    if a == [] {
      assert a + [c] + rest == [c] + rest;
    } else {
      assert (a + [c] + rest)[1..] == a[1..] + [c] + rest;
      SplitCons(a[1..], c, rest);
      assert [a[0]] + a[1..] == a;
    }
  }

  /** A string without the separator splits into itself. */
  lemma {:induction false} SplitNone(s: string, c: char)
    requires c !in s
    ensures Split(s, c) == [s]
  {
    if s != [] {
      SplitNone(s[1..], c);
      assert [s[0]] + s[1..] == s;
    }
  }

  /** JavaScript `replace` of the first `a` leaves a prefix free of `a` alone. */
  lemma {:induction false} ReplaceFirstCharAfter(x: string, s: string, a: char, b: char)
    requires a !in x
    ensures ReplaceFirstChar(x + s, a, b) == x + ReplaceFirstChar(s, a, b)
  {
    if x == [] {
      assert x + s == s;
    } else {
      assert (x + s)[0] == x[0];
      assert (x + s)[1..] == x[1..] + s;
      ReplaceFirstCharAfter(x[1..], s, a, b);
      assert [x[0]] + x[1..] == x;
    }
  }

  /** Text in which no character is a decimal digit. */
  predicate NoDigits(s: string) {
    forall c | c in s :: !IsDigit(c)
  }

  /** A slice of text without digits has none either. */
  lemma NoDigitsSlice(s: string, a: nat, b: nat)
    requires NoDigits(s) && a <= b <= |s|
    ensures NoDigits(s[a..b])
  {
    forall c | c in s[a..b]
      ensures !IsDigit(c)
    {
      var i :| 0 <= i < b - a && s[a..b][i] == c;
      assert s[a + i] == c;
    }
  }

  /** `strip` keeps text free of digits. */
  lemma StripNoDigits(s: string)
    requires NoDigits(s)
    ensures NoDigits(Strip(s))
  {
    StripIsInfix(s);
    var a, b :| 0 <= a <= b <= |s| && Strip(s) == s[a..b];
    NoDigitsSlice(s, a, b);
  }

  /** `replace(p, '')` keeps text free of digits. */
  lemma {:induction false} RemoveAllNoDigits(s: string, p: string)
    requires p != [] && NoDigits(s)
    ensures NoDigits(RemoveAll(s, p))
    decreases |s|
  {
    if s != [] {
      if StartsWith(s, p) {
        NoDigitsSlice(s, |p|, |s|);
        RemoveAllNoDigits(s[|p|..], p);
      } else {
        NoDigitsSlice(s, 1, |s|);
        RemoveAllNoDigits(s[1..], p);
      }
    }
  }

  /** Every part of a split of text without digits is free of digits. */
  lemma {:induction false} SplitNoDigits(s: string, c: char)
    requires NoDigits(s)
    ensures forall k | 0 <= k < |Split(s, c)| :: NoDigits(Split(s, c)[k])
    decreases |s|
  {
    if s != [] {
      NoDigitsSlice(s, 1, |s|);
      SplitNoDigits(s[1..], c);
    }
  }

  /** Python `' '.join(parts)`. */
  function JoinSpace(parts: seq<string>): string {
    if |parts| == 0 then ""
    else if |parts| == 1 then parts[0]
    else JoinSpace(parts[..|parts| - 1]) + " " + parts[|parts| - 1]
  }

  /** Joining non-empty parts gives the empty string exactly when there are no parts. */
  lemma JoinSpaceEmpty(parts: seq<string>)
    requires forall k | 0 <= k < |parts| :: parts[k] != []
    ensures JoinSpace(parts) == [] <==> parts == []
  {
  }
}
