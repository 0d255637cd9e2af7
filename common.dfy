/** Shared vocabulary: an Option type, the ASCII character classes and string
    operations the pages rely on (regular-expression classes, `toLowerCase`,
    `includes`, `startsWith`), an order-preserving filter and decimal rendering
    of indices. Characters are assumed to be ASCII: letters outside 'A'..'Z'
    and 'a'..'z' are left alone by the case mappings. */
module Common {

  datatype Option<+T> = None | Some(value: T) {
    function GetOr(default: T): T {
      match this
      case Some(v) => v
      case None => default
    }
  }

  /** JavaScript truthiness of an optional string: absent and "" are falsy. */
  predicate Truthy(s: Option<string>) {
    s.Some? && s.value != ""
  }

  // ---------------------------------------------------------------------------
  // Character classes: /[a-z]/, /[A-Z]/, /[0-9]/, /[^a-zA-Z0-9]/, /\s/, /\D/

  predicate IsLower(c: char) { 'a' <= c <= 'z' }
  predicate IsUpper(c: char) { 'A' <= c <= 'Z' }
  predicate IsDigit(c: char) { '0' <= c <= '9' }
  predicate IsSpecial(c: char) { !IsLower(c) && !IsUpper(c) && !IsDigit(c) }
  predicate IsSpace(c: char) {
    c == ' ' || c == '\t' || c == '\n' || c == '\r' || c == '\U{000B}' || c == '\U{000C}'
  }

  function LowerChar(c: char): (r: char)
    ensures IsUpper(c) ==> IsLower(r)
    ensures !IsUpper(c) ==> r == c
  {
    if IsUpper(c) then (c as int - 'A' as int + 'a' as int) as char else c
  }

  function UpperChar(c: char): (r: char)
    ensures IsLower(c) ==> IsUpper(r)
    ensures !IsLower(c) ==> r == c
  {
    if IsLower(c) then (c as int - 'a' as int + 'A' as int) as char else c
  }

  /** `toLowerCase` restricted to ASCII. */
  function ToLower(s: string): (r: string)
    ensures |r| == |s|
    ensures forall i :: 0 <= i < |s| ==> r[i] == LowerChar(s[i])
  {
    seq(|s|, i requires 0 <= i < |s| => LowerChar(s[i]))
  }

  /** `toUpperCase` restricted to ASCII. */
  function ToUpper(s: string): (r: string)
    ensures |r| == |s|
    ensures forall i :: 0 <= i < |s| ==> r[i] == UpperChar(s[i])
  {
    seq(|s|, i requires 0 <= i < |s| => UpperChar(s[i]))
  }

  lemma ToLowerIdempotent(s: string)
    ensures ToLower(ToLower(s)) == ToLower(s)
    ensures forall i :: 0 <= i < |s| ==> !IsUpper(ToLower(s)[i])
  {
  }

  /** `s.startsWith(prefix)`. */
  predicate StartsWith(s: string, prefix: string) {
    |prefix| <= |s| && s[..|prefix|] == prefix
  }

  /** `s.includes(sub)`: `sub` occurs in `s` at some position. */
  predicate Contains(s: string, sub: string) {
    exists i :: 0 <= i <= |s| && OccursAt(s, sub, i)
  }

  predicate OccursAt(s: string, sub: string, i: nat) {
    i + |sub| <= |s| && s[i..i + |sub|] == sub
  }

  lemma ContainsEmpty(s: string)
    ensures Contains(s, "")
  {
    assert OccursAt(s, "", 0);
  }

  lemma ContainsAt(s: string, sub: string, i: nat)
    requires i + |sub| <= |s| && s[i..i + |sub|] == sub
    ensures Contains(s, sub)
  {
    assert OccursAt(s, sub, i);
  }

  /** `s.replace(/\s+/g, "")`. */
  predicate NotSpace(c: char) { !IsSpace(c) }

  function RemoveSpaces(s: string): (r: string)
    ensures |r| <= |s|
    ensures forall i :: 0 <= i < |r| ==> !IsSpace(r[i])
    ensures r == Filter(s, NotSpace)
  {
    if s == [] then []
    else if IsSpace(s[0]) then RemoveSpaces(s[1..])
    else [s[0]] + RemoveSpaces(s[1..])
  }

  /** `s.replace(/\D/g, "")`. */
  function KeepDigits(s: string): (r: string)
    ensures |r| <= |s|
    ensures forall i :: 0 <= i < |r| ==> IsDigit(r[i])
    ensures r == Filter(s, IsDigit)
  {
    if s == [] then []
    else if IsDigit(s[0]) then [s[0]] + KeepDigits(s[1..])
    else KeepDigits(s[1..])
  }

  lemma {:induction false} KeepDigitsOfDigits(s: string)
    requires forall i :: 0 <= i < |s| ==> IsDigit(s[i])
    ensures KeepDigits(s) == s
  {
    if s != [] {
      KeepDigitsOfDigits(s[1..]);
    }
  }

  lemma {:induction false} KeepDigitsAppend(a: string, b: string)
    ensures KeepDigits(a + b) == KeepDigits(a) + KeepDigits(b)
  {
    if a == [] {
      assert a + b == b;
    } else {
      assert (a + b)[1..] == a[1..] + b;
      KeepDigitsAppend(a[1..], b);
    }
  }

  // ---------------------------------------------------------------------------
  // Array.prototype.filter and friends

  /** `s.filter(p)`: the elements satisfying `p`, in their original order. */
  function Filter<T(==)>(s: seq<T>, p: T -> bool): (r: seq<T>)
    ensures |r| <= |s|
    ensures forall i :: 0 <= i < |r| ==> r[i] in s && p(r[i])
    ensures forall i :: 0 <= i < |s| && p(s[i]) ==> s[i] in r
  {
    if s == [] then []
    else if p(s[0]) then [s[0]] + Filter(s[1..], p)
    else Filter(s[1..], p)
  }

  /** `a` can be obtained from `b` by deleting elements: order is preserved. */
  predicate IsSubsequence<T(==)>(a: seq<T>, b: seq<T>)
    decreases |b|
  {
    if a == [] then true
    else if b == [] then false
    else if a[0] == b[0] then IsSubsequence(a[1..], b[1..])
    else IsSubsequence(a, b[1..])
  }

  lemma {:induction false} FilterIsSubsequence<T>(s: seq<T>, p: T -> bool)
    ensures IsSubsequence(Filter(s, p), s)
  {
    if s != [] {
      FilterIsSubsequence(s[1..], p);
      if !p(s[0]) {
        SubsequenceOfTail(Filter(s[1..], p), s);
      }
    }
  }

  /** A subsequence of the tail is a subsequence of the whole. */
  lemma {:induction false} SubsequenceOfTail<T>(a: seq<T>, b: seq<T>)
    requires b != [] && IsSubsequence(a, b[1..])
    ensures IsSubsequence(a, b)
    decreases |b|, 0
  {
    if a != [] && a[0] == b[0] {
      SubsequenceDropHead(a, b[1..]);
    }
  }

  /** Dropping the first element of a subsequence keeps it a subsequence. */
  lemma {:induction false} SubsequenceDropHead<T>(a: seq<T>, b: seq<T>)
    requires a != [] && IsSubsequence(a, b)
    ensures IsSubsequence(a[1..], b)
    decreases |b|, 1
  {
    if b == [] {
    } else if a[0] == b[0] {
      if a[1..] != [] {
        SubsequenceOfTail(a[1..], b);
      }
    } else {
      SubsequenceDropHead(a, b[1..]);
      if a[1..] != [] {
        SubsequenceOfTail(a[1..], b);
      }
    }
  }

  lemma {:induction false} FilterAll<T>(s: seq<T>, p: T -> bool)
    requires forall i :: 0 <= i < |s| ==> p(s[i])
    ensures Filter(s, p) == s
  {
    if s != [] {
      FilterAll(s[1..], p);
    }
  }

  lemma {:induction false} FilterNone<T>(s: seq<T>, p: T -> bool)
    requires forall i :: 0 <= i < |s| ==> !p(s[i])
    ensures Filter(s, p) == []
  {
    if s != [] {
      FilterNone(s[1..], p);
    }
  }

  /** Filtering twice is filtering by the conjunction. */
  lemma {:induction false} FilterFilter<T>(s: seq<T>, p: T -> bool, q: T -> bool, pq: T -> bool)
    requires forall x :: pq(x) == (p(x) && q(x))
    ensures Filter(Filter(s, p), q) == Filter(s, pq)
  {
    if s != [] {
      FilterFilter(s[1..], p, q, pq);
    }
  }

  /** Elements satisfying `p` and elements failing it add up to the whole. */
  lemma {:induction false} FilterSplit<T>(s: seq<T>, p: T -> bool, notP: T -> bool)
    requires forall x :: notP(x) == !p(x)
    ensures |Filter(s, p)| + |Filter(s, notP)| == |s|
  {
    if s != [] {
      FilterSplit(s[1..], p, notP);
    }
  }

  /** The same split for three predicates of which each element of `s`
      satisfies exactly one. */
  predicate ExactlyOne<T>(p: T -> bool, q: T -> bool, r: T -> bool, x: T) {
    (p(x) ==> !q(x) && !r(x)) && (q(x) ==> !r(x)) && (p(x) || q(x) || r(x))
  }

  lemma {:induction false} FilterSplit3<T>(s: seq<T>, p: T -> bool, q: T -> bool, r: T -> bool)
    requires forall i :: 0 <= i < |s| ==> ExactlyOne(p, q, r, s[i])
    ensures |Filter(s, p)| + |Filter(s, q)| + |Filter(s, r)| == |s|
  {
    if s != [] {
      assert forall i :: 0 <= i < |s[1..]| ==> s[1..][i] == s[i + 1];
      FilterSplit3(s[1..], p, q, r);
    }
  }

  /** Filtering out a single element shortens the sequence by one. */
  lemma {:induction false} FilterDropsOne<T>(s: seq<T>, p: T -> bool, k: nat)
    requires k < |s| && !p(s[k])
    requires forall i :: 0 <= i < |s| && i != k ==> p(s[i])
    ensures |Filter(s, p)| == |s| - 1
  {
    if k == 0 {
      assert forall i :: 0 <= i < |s[1..]| ==> s[1..][i] == s[i + 1];
      FilterAll(s[1..], p);
    } else {
      assert forall i :: 0 <= i < |s[1..]| ==> s[1..][i] == s[i + 1];
      FilterDropsOne(s[1..], p, k - 1);
    }
  }

  /** `s.filter((_, i) => i !== index)`. */
  function RemoveAt<T>(s: seq<T>, index: int): (r: seq<T>)
    ensures 0 <= index < |s| ==> r == s[..index] + s[index + 1..]
    ensures !(0 <= index < |s|) ==> r == s
    ensures |r| == if 0 <= index < |s| then |s| - 1 else |s|
  {
    if 0 <= index < |s| then s[..index] + s[index + 1..] else s
  }

  // ---------------------------------------------------------------------------
  // Decimal rendering of a non-negative integer, as template literals do it

  function DigitChar(d: nat): (c: char)
    requires d < 10
    ensures IsDigit(c)
  {
    ('0' as int + d) as char
  }

  function NatToString(n: nat): (r: string)
    ensures |r| >= 1
    ensures forall i :: 0 <= i < |r| ==> IsDigit(r[i])
  {
    if n < 10 then [DigitChar(n)] else NatToString(n / 10) + [DigitChar(n % 10)]
  }

  /** Different numbers render differently. */
  lemma {:induction false} NatToStringInjective(m: nat, n: nat)
    requires NatToString(m) == NatToString(n)
    ensures m == n
  {
    var a, b := NatToString(m), NatToString(n);
    if m < 10 && n < 10 {
      assert a[0] == DigitChar(m) && b[0] == DigitChar(n);
    } else if m >= 10 && n >= 10 {
      assert a[|a| - 1] == DigitChar(m % 10);
      assert b[|b| - 1] == DigitChar(n % 10);
      assert a[..|a| - 1] == NatToString(m / 10);
      assert b[..|b| - 1] == NatToString(n / 10);
      NatToStringInjective(m / 10, n / 10);
    }
  }

  /** A fixed prefix followed by the index: the ids `pwd-<i>` and `todo-<i>`. */
  function IndexedId(prefix: string, i: nat): string {
    prefix + NatToString(i)
  }

  lemma IndexedIdInjective(prefix: string, i: nat, j: nat)
    requires i != j
    ensures IndexedId(prefix, i) != IndexedId(prefix, j)
  {
    if IndexedId(prefix, i) == IndexedId(prefix, j) {
      assert IndexedId(prefix, i)[|prefix|..] == NatToString(i);
      assert IndexedId(prefix, j)[|prefix|..] == NatToString(j);
      NatToStringInjective(i, j);
    }
  }

  /** `Math.round(p / q)` for non-negative `p` and positive `q`: rounds half up. */
  function RoundDiv(p: nat, q: nat): (r: nat)
    requires q > 0
    ensures 2 * q * r <= 2 * p + q < 2 * q * (r + 1)
  {
    (2 * p + q) / (2 * q)
  }

  /** Rounding a quotient of at most `m` gives at most `m`. */
  lemma RoundDivAtMost(p: nat, q: nat, m: nat)
    requires q > 0 && p <= m * q
    ensures RoundDiv(p, q) <= m
  {
    var r := RoundDiv(p, q);
    assert (2 * q) * r < (2 * q) * (m + 1);
    MulCancelLess(2 * q, r, m + 1);
  }

  /** Rounding a quotient of at least `m` gives at least `m`. */
  lemma RoundDivAtLeast(p: nat, q: nat, m: nat)
    requires q > 0 && p >= m * q
    ensures RoundDiv(p, q) >= m
  {
    var r := RoundDiv(p, q);
    assert (2 * q) * m < (2 * q) * (r + 1);
    MulCancelLess(2 * q, m, r + 1);
  }

  /** A common factor can be cancelled from a strict inequality. */
  lemma MulCancelLess(a: nat, x: nat, y: nat)
    requires a * x < a * y
    ensures x < y
  {
  }

  function Min(a: int, b: int): int {
    if a <= b then a else b
  }

  /** 1 for true, 0 for false: a count's step. */
  function Bit(b: bool): nat {
    if b then 1 else 0
  }
}
