/**
 * String helpers shared by the whole model: whitespace trimming, ASCII case
 * mapping, substring search, joining and splitting on a one-character
 * separator, and decimal integer parsing. Strings are sequences of
 * characters; only the ASCII letters have a case mapping here.
 */
module Text {
  import opened Wrappers

  /**
   * White space and line terminators as JavaScript's `trim` and `\s` know
   * them: the ASCII controls, no-break space, the Unicode space separators,
   * the line and paragraph separators and the byte order mark.
   */
  predicate IsSpace(c: char)
  {
    c == ' ' || c == '\t' || c == '\n' || c == '\r' || c == '\U{000B}' || c == '\U{000C}' ||
    c == '\U{00A0}' || c == '\U{1680}' || ('\U{2000}' <= c <= '\U{200A}') ||
    c == '\U{2028}' || c == '\U{2029}' || c == '\U{202F}' || c == '\U{205F}' || c == '\U{3000}' || c == '\U{FEFF}'
  }

  predicate AllSpace(s: string)
  {
    forall i :: 0 <= i < |s| ==> IsSpace(s[i])
  }

  /** Leading whitespace removed. */
  function TrimStart(s: string): (r: string)
    ensures |r| <= |s| && r == s[|s| - |r|..]
    ensures AllSpace(s[..|s| - |r|])
    ensures |r| > 0 ==> !IsSpace(r[0])
  {
    if |s| > 0 && IsSpace(s[0]) then TrimStart(s[1..]) else s
  }

  /** Trailing whitespace removed. */
  function TrimEnd(s: string): (r: string)
    ensures |r| <= |s| && r == s[..|r|]
    ensures AllSpace(s[|r|..])
    ensures |r| > 0 ==> !IsSpace(r[|r| - 1])
  {
    if |s| > 0 && IsSpace(s[|s| - 1]) then TrimEnd(s[..|s| - 1]) else s
  }

  /** Whitespace removed at both ends: `s.trim()` / `s.strip()`. */
  function Trim(s: string): (r: string)
    ensures |r| <= |s|
    ensures |r| > 0 ==> !IsSpace(r[0]) && !IsSpace(r[|r| - 1])
  {
    TrimEnd(TrimStart(s))
  }

  /** A string is blank after trimming exactly when it is all whitespace. */
  lemma TrimEmptyIffAllSpace(s: string)
    ensures Trim(s) == [] <==> AllSpace(s)
  {
    var t := TrimStart(s);
    if Trim(s) == [] {
      assert AllSpace(t[0..]);
      assert s[..|s|] == s;
    }
  }

  function LowerChar(c: char): char
  {
    if 'A' <= c <= 'Z' then (c as int + 32) as char else c
  }

  function UpperChar(c: char): char
  {
    if 'a' <= c <= 'z' then (c as int - 32) as char else c
  }

  /** `s.toLowerCase()` / `s.lower()`, on ASCII letters. */
  function Lower(s: string): (r: string)
    ensures |r| == |s|
  {
    seq(|s|, i requires 0 <= i < |s| => LowerChar(s[i]))
  }

  /** `s.toUpperCase()` / `s.upper()`, on ASCII letters. */
  function Upper(s: string): (r: string)
    ensures |r| == |s|
  {
    seq(|s|, i requires 0 <= i < |s| => UpperChar(s[i]))
  }

  /** An optional string is truthy: present and not empty. */
  predicate Filled(o: Option<string>)
  {
    o.Some? && o.value != ""
  }

  predicate StartsWith(s: string, p: string)
  {
    |p| <= |s| && s[..|p|] == p
  }

  predicate EndsWith(s: string, p: string)
  {
    |p| <= |s| && s[|s| - |p|..] == p
  }

  /** `p` occurs in `s` at position `i`. */
  predicate OccursAt(s: string, p: string, i: int)
  {
    0 <= i && i + |p| <= |s| && s[i..i + |p|] == p
  }

  /**
   * `s.indexOf(p, k)` for `k <= |s|`: the first position at or after `k`
   * where `p` occurs, or -1 when there is none.
   */
  function IndexFrom(s: string, p: string, k: nat): (r: int)
    decreases |s| - k
    ensures r == -1 || (k <= r && OccursAt(s, p, r))
    ensures r == -1 ==> forall i :: k <= i ==> !OccursAt(s, p, i)
    ensures r != -1 ==> forall i :: k <= i < r ==> !OccursAt(s, p, i)
  {
    if k + |p| > |s| then -1
    else if s[k..k + |p|] == p then k
    else IndexFrom(s, p, k + 1)
  }

  /** `s.indexOf(p)`. */
  function IndexOf(s: string, p: string): int
  {
    IndexFrom(s, p, 0)
  }

  /** `s.includes(p)` / Python's `p in s`. */
  predicate Contains(s: string, p: string)
  {
    IndexOf(s, p) != -1
  }

  lemma ContainsIff(s: string, p: string)
    ensures Contains(s, p) <==> exists i :: OccursAt(s, p, i)
  {
  }

  /** Python's `needle.lower() in hay.lower()`. */
  predicate ContainsCI(hay: string, needle: string)
  {
    Contains(Lower(hay), Lower(needle))
  }

  /** `parts.join(sep)`. */
  function Join(parts: seq<string>, sep: string): string
  {
    if |parts| == 0 then ""
    else if |parts| == 1 then parts[0]
    else parts[0] + sep + Join(parts[1..], sep)
  }

  /** `s.split(d)` for a one-character separator `d`. */
  function Split(s: string, d: char): (r: seq<string>)
    ensures |r| >= 1
    ensures forall i :: 0 <= i < |r| ==> d !in r[i]
    ensures Join(r, [d]) == s
  {
    if s == [] then [""]
    else
      var rest := Split(s[1..], d);
      if s[0] == d then
        assert s == [d] + Join(rest, [d]);
        [""] + rest
      else
        JoinConsFirst(rest, [d], s[0]);
        [[s[0]] + rest[0]] + rest[1..]
  }

  /** Prepending a character to the first part prepends it to the joined string. */
  lemma JoinConsFirst(parts: seq<string>, sep: string, c: char)
    requires |parts| >= 1
    ensures Join([[c] + parts[0]] + parts[1..], sep) == [c] + Join(parts, sep)
  {
    var q := [[c] + parts[0]] + parts[1..];
    assert q[1..] == parts[1..];
  }

  /** Splitting after a separator-free first part yields that part, then the split of the rest. */
  lemma {:induction false} SplitAfterPart(x: string, y: string, d: char)
    requires d !in x
    ensures Split(x + [d] + y, d) == [x] + Split(y, d)
  {
    if x == [] {
      assert x + [d] + y == [d] + y;
      assert ([d] + y)[1..] == y;
    } else {
      var s := x + [d] + y;
      assert s[0] == x[0] && s[1..] == x[1..] + [d] + y;
      SplitAfterPart(x[1..], y, d);
      var rest := Split(s[1..], d);
      assert rest[0] == x[1..] && rest[1..] == Split(y, d);
      assert [x[0]] + x[1..] == x;
    }
  }

  /** A string without the separator splits into itself alone. */
  lemma {:induction false} SplitWhole(y: string, d: char)
    requires d !in y
    ensures Split(y, d) == [y]
  {
    if y != [] {
      SplitWhole(y[1..], d);
      assert [y[0]] + y[1..] == y;
    }
  }

  /** Splitting a join on a separator no part contains gives the parts back. */
  lemma {:induction false} SplitJoin(parts: seq<string>, d: char)
    requires |parts| >= 1
    requires forall i :: 0 <= i < |parts| ==> d !in parts[i]
    ensures Split(Join(parts, [d]), d) == parts
  {
    if |parts| == 1 {
      SplitWhole(parts[0], d);
    } else {
      SplitJoin(parts[1..], d);
      SplitAfterPart(parts[0], Join(parts[1..], [d]), d);
      assert [parts[0]] + parts[1..] == parts;
    }
  }

  /** A character in neither the parts nor the separator is not in their join. */
  lemma {:induction false} JoinAvoids(parts: seq<string>, sep: string, c: char)
    requires c !in sep
    requires forall i :: 0 <= i < |parts| ==> c !in parts[i]
    ensures c !in Join(parts, sep)
  {
    if |parts| > 1 {
      JoinAvoids(parts[1..], sep, c);
    }
  }

  /** A join begins with its first part and ends with its last. */
  lemma {:induction false} JoinEnds(parts: seq<string>, sep: string)
    requires |parts| >= 1
    ensures StartsWith(Join(parts, sep), parts[0])
    ensures EndsWith(Join(parts, sep), parts[|parts| - 1])
  {
    if |parts| > 1 {
      JoinEnds(parts[1..], sep);
      var rest := Join(parts[1..], sep);
      assert Join(parts, sep) == parts[0] + sep + rest;
      assert (parts[0] + sep + rest)[..|parts[0]|] == parts[0];
      assert (parts[0] + sep + rest)[|parts[0] + sep + rest| - |rest|..] == rest;
    }
  }

  predicate IsDigit(c: char)
  {
    '0' <= c <= '9'
  }

  predicate AllDigits(s: string)
  {
    forall i :: 0 <= i < |s| ==> IsDigit(s[i])
  }

  /** Value of a string of decimal digits, most significant first. */
  function DigitsValue(s: string): nat
    requires AllDigits(s)
  {
    if s == [] then 0
    else DigitsValue(s[..|s| - 1]) * 10 + (s[|s| - 1] as int - '0' as int)
  }

  /** Length of the longest prefix of `s` made of digits. */
  function DigitPrefixLength(s: string): (n: nat)
    ensures n <= |s| && AllDigits(s[..n])
    ensures n < |s| ==> !IsDigit(s[n])
  {
    if s == [] || !IsDigit(s[0]) then 0
    else
      var n := 1 + DigitPrefixLength(s[1..]);
      assert s[..n] == [s[0]] + s[1..][..n - 1];
      n
  }

  /**
   * `parseInt(s, 10)`: leading whitespace skipped, an optional sign, then the
   * longest run of digits; `None` (NaN) when there is no digit.
   */
  function ParseInt(s: string): (r: Option<int>)
    ensures r.None? <==> DigitPrefixLength(SignStripped(TrimStart(s))) == 0
  {
    var t := TrimStart(s);
    var negative := |t| > 0 && t[0] == '-';
    var u := SignStripped(t);
    var n := DigitPrefixLength(u);
    if n == 0 then None
    else
      var v: int := DigitsValue(u[..n]);
      Some(if negative then -v else v)
  }

  function SignStripped(t: string): string
  {
    if |t| > 0 && (t[0] == '-' || t[0] == '+') then t[1..] else t
  }

  /** `parseInt` of a plain digit string is its decimal value. */
  lemma ParseIntDigits(s: string)
    requires s != [] && AllDigits(s)
    ensures ParseInt(s) == Some(DigitsValue(s))
  {
    assert !IsSpace(s[0]) && s[0] != '-' && s[0] != '+';
    DigitPrefixAll(s);
    assert s[..|s|] == s;
  }

  lemma {:induction false} DigitPrefixAll(s: string)
    requires AllDigits(s)
    ensures DigitPrefixLength(s) == |s|
  {
    if s != [] {
      DigitPrefixAll(s[1..]);
    }
  }

  /** Decimal rendering of a natural number, `String(n)`. */
  function NatToString(n: nat): (r: string)
    ensures |r| >= 1 && AllDigits(r)
    ensures DigitsValue(r) == n
  {
    if n < 10 then [('0' as int + n) as char]
    else
      var r := NatToString(n / 10) + [('0' as int + n % 10) as char];
      assert r[..|r| - 1] == NatToString(n / 10);
      r
  }

  /** Decimal rendering of an integer, with a leading '-' when negative. */
  function IntToString(n: int): string
  {
    if n < 0 then "-" + NatToString(-n) else NatToString(n)
  }

  /**
   * Every occurrence of `p`, searched left to right without overlap,
   * replaced by `r`: a global replacement of a literal pattern.
   */
  function ReplaceAll(s: string, p: string, r: string): (out: string)
    requires |p| > 0
    ensures !Contains(s, p) ==> out == s
    decreases |s|
  {
    var i := IndexOf(s, p);
    if i == -1 then s else s[..i] + r + ReplaceAll(s[i + |p|..], p, r)
  }

  /** The pieces between the occurrences of `p` that `ReplaceAll` finds. */
  function Pieces(s: string, p: string): (ps: seq<string>)
    requires |p| > 0
    ensures |ps| >= 1
    decreases |s|
  {
    var i := IndexOf(s, p);
    if i == -1 then [s] else [s[..i]] + Pieces(s[i + |p|..], p)
  }

  /** The text before the first occurrence does not contain the pattern. */
  lemma BeforeFirstIsFree(s: string, p: string)
    requires |p| > 0 && IndexOf(s, p) >= 0
    ensures !Contains(s[..IndexOf(s, p)], p)
  {
    var i := IndexOf(s, p);
    var head := s[..i];
    if Contains(head, p) {
      var j := IndexOf(head, p);
      assert OccursAt(head, p, j);
      assert head[j..j + |p|] == s[j..j + |p|];
      assert OccursAt(s, p, j);
    }
  }

  /** Joining a first part onto at least one more. */
  lemma JoinCons(head: string, rest: seq<string>, sep: string)
    requires |rest| >= 1
    ensures Join([head] + rest, sep) == head + sep + Join(rest, sep)
  {
    assert ([head] + rest)[1..] == rest;
  }

  /**
   * `s` is its pieces joined by `p`, none of the pieces contains `p`, and
   * the replacement is the same pieces joined by `r`: every occurrence, and
   * nothing else, is replaced.
   */
  lemma {:induction false} ReplaceAllPieces(s: string, p: string, r: string)
    requires |p| > 0
    ensures Join(Pieces(s, p), p) == s
    ensures Join(Pieces(s, p), r) == ReplaceAll(s, p, r)
    ensures forall k :: 0 <= k < |Pieces(s, p)| ==> !Contains(Pieces(s, p)[k], p)
    decreases |s|
  {
    var i := IndexOf(s, p);
    if i >= 0 {
      var head, rest := s[..i], s[i + |p|..];
      var tail := Pieces(rest, p);
      ReplaceAllPieces(rest, p, r);
      BeforeFirstIsFree(s, p);
      assert Pieces(s, p) == [head] + tail;
      JoinCons(head, tail, p);
      JoinCons(head, tail, r);
      assert s == head + p + rest by {
        assert s[i..i + |p|] == p;
      }
      assert ReplaceAll(s, p, r) == head + r + ReplaceAll(rest, p, r);
      assert forall k :: 1 <= k < |Pieces(s, p)| ==> Pieces(s, p)[k] == tail[k - 1];
    }
  }

  /** Replacing the placeholder by itself changes nothing. */
  lemma ReplaceBySelf(s: string, p: string)
    requires |p| > 0
    ensures ReplaceAll(s, p, p) == s
  {
    ReplaceAllPieces(s, p, p);
  }

  /** The first occurrence of `p`, if any, replaced by `r`: `s.replace(p, r)` for a literal `p`. */
  function ReplaceFirst(s: string, p: string, r: string): (out: string)
    ensures !Contains(s, p) ==> out == s
    ensures Contains(s, p) ==> out == s[..IndexOf(s, p)] + r + s[IndexOf(s, p) + |p|..]
    ensures Contains(s, p) ==> Contains(out, r)
  {
    var i := IndexOf(s, p);
    if i == -1 then s
    else
      var out := s[..i] + r + s[i + |p|..];
      assert OccursAt(out, r, i);
      out
  }

  /**
   * `r` cannot help form an occurrence of `p` around it: `p` is no longer
   * than `r`, the character `p[m]` is not in `r`, no occurrence can start in
   * the last `m` characters of `r`, and no tail of `p` past `m` begins as
   * `r` does.
   */
  predicate CannotReform(p: string, r: string, m: nat)
  {
    0 <= m < |p| <= |r| && 2 <= |r| &&
    (forall t :: 0 <= t < |r| ==> r[t] != p[m]) &&
    (forall t :: |r| - m <= t < |r| ==> r[t] != p[0]) &&
    (forall k :: m < k < |p| ==> p[k] != r[0] || (k + 1 < |p| && p[k + 1] != r[1]))
  }

  /** No occurrence of `p` in `head + r + tail` when `head` and `tail` have none and `r` cannot help form one. */
  lemma NoOccurrenceAround(head: string, r: string, tail: string, p: string, m: nat, j: int)
    requires CannotReform(p, r, m) && !Contains(head, p) && !Contains(tail, p)
    ensures !OccursAt(head + r + tail, p, j)
  {
    var out := head + r + tail;
    var i := |head|;
    if j < 0 || j + |p| > |out| {
    } else if j + |p| <= i {
      assert out[j..j + |p|] == head[j..j + |p|];
      ContainsIff(head, p);
      assert !OccursAt(head, p, j);
    } else if j < i && j + m < i {
      var k := i - j;
      assert m < k < |p|;
      assert p[k] != r[0] || (k + 1 < |p| && p[k + 1] != r[1]);
      assert out[i] == r[0] && out[i + 1] == r[1];
      if p[k] != r[0] {
        assert out[j..j + |p|][k] == out[i];
      } else {
        assert out[j..j + |p|][k + 1] == out[i + 1];
      }
    } else if j < i + |r| && j + m < i + |r| {
      assert out[j..j + |p|][m] != p[m];
    } else if j < i + |r| {
      assert out[j..j + |p|][0] != p[0];
    } else {
      var j' := j - i - |r|;
      assert out[i + |r|..] == tail;
      assert tail[j'..j' + |p|] == out[j..j + |p|];
      ContainsIff(tail, p);
      assert !OccursAt(tail, p, j');
    }
  }

  /**
   * A global replacement leaves no occurrence of `p` behind when the
   * replacement cannot help form one.
   */
  lemma {:induction false} ReplaceAllRemoves(s: string, p: string, r: string, m: nat)
    requires CannotReform(p, r, m)
    ensures !Contains(ReplaceAll(s, p, r), p)
    decreases |s|
  {
    var i := IndexOf(s, p);
    if i >= 0 {
      var head, rest := s[..i], s[i + |p|..];
      var tail := ReplaceAll(rest, p, r);
      ReplaceAllRemoves(rest, p, r, m);
      BeforeFirstIsFree(s, p);
      assert ReplaceAll(s, p, r) == head + r + tail;
      NotContainedAround(head, r, tail, p, m);
    }
  }

  lemma NotContainedAround(head: string, r: string, tail: string, p: string, m: nat)
    requires CannotReform(p, r, m) && !Contains(head, p) && !Contains(tail, p)
    ensures !Contains(head + r + tail, p)
  {
    forall j ensures !OccursAt(head + r + tail, p, j) {
      NoOccurrenceAround(head, r, tail, p, m, j);
    }
    ContainsIff(head + r + tail, p);
  }
}
