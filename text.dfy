/** String helpers shared by the components: the character classes the source's regular
    expressions use, order-preserving filtering, ASCII lower-casing, trimming and
    substring search. Strings are sequences of characters. */
module Text {

  /** The class `[0-9]` (and `\d`) of the source's regular expressions. */
  predicate IsDigit(c: char) {
    '0' <= c <= '9'
  }

  /** The characters that JavaScript's `\s` class and `String.prototype.trim` treat as
      white space or line terminators. */
  predicate IsWhitespace(c: char) {
    var n := c as int;
    (0x09 <= n <= 0x0D) || n == 0x20 || n == 0xA0 || n == 0x1680
    || (0x2000 <= n <= 0x200A) || n == 0x2028 || n == 0x2029
    || n == 0x202F || n == 0x205F || n == 0x3000 || n == 0xFEFF
  }

  /** `Array.prototype.filter`: the elements of `s` satisfying `p`, in their original order. */
  function Filter<T(!new)>(s: seq<T>, p: T -> bool): (r: seq<T>)
    ensures |r| <= |s|
    ensures forall x :: x in r <==> x in s && p(x)
  {
    if s == [] then [] else (if p(s[0]) then [s[0]] else []) + Filter(s[1..], p)
  }

  /** Filtering distributes over concatenation: the kept elements of a prefix come before
      the kept elements of what follows it, so the original order is preserved. */
  lemma {:induction false} FilterAppend<T(!new)>(a: seq<T>, b: seq<T>, p: T -> bool)
    ensures Filter(a + b, p) == Filter(a, p) + Filter(b, p)
  {
    if a == [] {
      assert a + b == b;
    } else {
      assert (a + b)[1..] == a[1..] + b;
      FilterAppend(a[1..], b, p);
    }
  }

  /** A sequence all of whose elements satisfy `p` passes through the filter unchanged. */
  lemma {:induction false} FilterKeepsAll<T(!new)>(s: seq<T>, p: T -> bool)
    requires forall i :: 0 <= i < |s| ==> p(s[i])
    ensures Filter(s, p) == s
  {
    if s != [] {
      FilterKeepsAll(s[1..], p);
    }
  }

  /** A sequence none of whose elements satisfy `p` filters to the empty sequence. */
  lemma {:induction false} FilterDropsAll<T(!new)>(s: seq<T>, p: T -> bool)
    requires forall i :: 0 <= i < |s| ==> !p(s[i])
    ensures Filter(s, p) == []
  {
    if s != [] {
      FilterDropsAll(s[1..], p);
    }
  }

  /** Filtering twice with the same predicate is filtering once. */
  lemma FilterIdempotent<T(!new)>(s: seq<T>, p: T -> bool)
    ensures Filter(Filter(s, p), p) == Filter(s, p)
  {
    var r := Filter(s, p);
    forall i | 0 <= i < |r| ensures p(r[i]) {
      assert r[i] in r;
    }
    FilterKeepsAll(r, p);
  }

  /** Filters with predicates that agree everywhere give the same result. */
  lemma {:induction false} FilterAgreeing<T(!new)>(s: seq<T>, p: T -> bool, q: T -> bool)
    requires forall x :: p(x) == q(x)
    ensures Filter(s, p) == Filter(s, q)
  {
    if s != [] {
      FilterAgreeing(s[1..], p, q);
    }
  }

  /** Two kept elements keep their relative order: when `s[i]` and `s[j]` (with `i < j`)
      both satisfy `p`, the result holds `s[i]` at an earlier position than `s[j]`. */
  lemma FilterKeepsOrder<T(!new)>(s: seq<T>, p: T -> bool, i: int, j: int)
    requires 0 <= i < j < |s| && p(s[i]) && p(s[j])
    ensures exists a, b :: 0 <= a < b < |Filter(s, p)|
                           && Filter(s, p)[a] == s[i] && Filter(s, p)[b] == s[j]
  {
    var front, back := s[..j], s[j..];
    assert s == front + back;
    FilterAppend(front, back, p);
    var ff, fb := Filter(front, p), Filter(back, p);
    assert back == [s[j]] + back[1..];
    assert fb == [s[j]] + Filter(back[1..], p);
    assert s[i] in front;
    var a :| 0 <= a < |ff| && ff[a] == s[i];
    var r := Filter(s, p);
    assert r == ff + fb;
    assert r[a] == s[i] && r[|ff|] == s[j];
  }

  /** The digits of `s`, in order: `s.replace(/\s+/g, '').replace(/[^0-9]/gi, '')`. */
  function Digits(s: string): (r: string)
    ensures |r| <= |s|
    ensures forall i :: 0 <= i < |r| ==> IsDigit(r[i])
  {
    var r := Filter(s, IsDigit);
    assert forall i :: 0 <= i < |r| ==> r[i] in r;
    r
  }

  predicate NotWhitespace(c: char) {
    !IsWhitespace(c)
  }

  /** `s.replace(/\s/g, '')`: the string with every white-space character deleted. */
  function RemoveWhitespace(s: string): (r: string)
    ensures |r| <= |s|
  {
    Filter(s, NotWhitespace)
  }

  /** A string made of digits has itself as its digits. */
  lemma DigitsOfDigits(s: string)
    requires forall i :: 0 <= i < |s| ==> IsDigit(s[i])
    ensures Digits(s) == s
  {
    FilterKeepsAll(s, IsDigit);
  }

  /** Upper-case ASCII letters become lower case; every other character is kept. */
  function LowerChar(c: char): char {
    if 'A' <= c <= 'Z' then (c as int + 32) as char else c
  }

  /** `toLowerCase`, restricted to ASCII letters. */
  function ToLower(s: string): (r: string)
    ensures |r| == |s|
    ensures forall i :: 0 <= i < |s| ==> r[i] == LowerChar(s[i])
  {
    if s == [] then [] else [LowerChar(s[0])] + ToLower(s[1..])
  }

  /** Lower-casing keeps white space white space, and everything else not white space. */
  lemma ToLowerKeepsBlank(s: string)
    ensures IsBlank(ToLower(s)) <==> IsBlank(s)
  {
    var low := ToLower(s);
    assert forall i :: 0 <= i < |s| ==> (IsWhitespace(low[i]) <==> IsWhitespace(s[i]));
  }

  /** `p` is a prefix of `s`. */
  predicate IsPrefix(p: string, s: string) {
    |p| <= |s| && s[..|p|] == p
  }

  /** `s.includes(sub)`: `sub` occurs in `s` at some position; the empty string occurs
      everywhere. */
  predicate Contains(s: string, sub: string)
    decreases |s|
  {
    IsPrefix(sub, s) || (|s| > 0 && Contains(s[1..], sub))
  }

  /** An occurrence of `sub` at position `i` makes `s` contain `sub`. */
  lemma {:induction false} ContainsAt(s: string, sub: string, i: nat)
    requires i + |sub| <= |s| && s[i..i + |sub|] == sub
    ensures Contains(s, sub)
    decreases i
  {
    if i == 0 {
      assert s[..|sub|] == sub;
    } else {
      assert s[1..][i - 1..i - 1 + |sub|] == s[i..i + |sub|];
      ContainsAt(s[1..], sub, i - 1);
    }
  }

  /** A string contains a one-character string exactly when the character occurs in it. */
  lemma {:induction false} ContainsChar(s: string, c: char)
    ensures Contains(s, [c]) <==> c in s
    decreases |s|
  {
    if s != [] {
      ContainsChar(s[1..], c);
      assert s == [s[0]] + s[1..];
      if IsPrefix([c], s) {
        assert s[0] == c;
      }
    }
  }

  /** Every character of a string that `s` contains occurs in `s`. */
  lemma {:induction false} ContainedCharsOccur(s: string, sub: string, c: char)
    requires Contains(s, sub) && c in sub
    ensures c in s
    decreases |s|
  {
    if IsPrefix(sub, s) {
      var k :| 0 <= k < |sub| && sub[k] == c;
      assert s[k] == c;
    } else {
      ContainedCharsOccur(s[1..], sub, c);
      assert s == [s[0]] + s[1..];
    }
  }

  /** Lower-casing twice is lower-casing once. */
  lemma ToLowerIdempotent(s: string)
    ensures ToLower(ToLower(s)) == ToLower(s)
  {
  }

  /** `s.trimStart()`. */
  function TrimStart(s: string): (r: string)
    ensures |r| <= |s|
  {
    if s != [] && IsWhitespace(s[0]) then TrimStart(s[1..]) else s
  }

  /** `s.trimEnd()`. */
  function TrimEnd(s: string): (r: string)
    ensures |r| <= |s|
  {
    if s != [] && IsWhitespace(s[|s| - 1]) then TrimEnd(s[..|s| - 1]) else s
  }

  /** `s.trim()`. */
  function Trim(s: string): string {
    TrimEnd(TrimStart(s))
  }

  /** Every character of `s` is white space. */
  predicate IsBlank(s: string) {
    forall i :: 0 <= i < |s| ==> IsWhitespace(s[i])
  }

  /** Trimming a string leaves nothing exactly when the string is blank. */
  lemma TrimEmptyIffBlank(s: string)
    ensures Trim(s) == [] <==> IsBlank(s)
  {
    TrimStartEmpty(s);
    TrimStartFirst(s);
  }

  lemma {:induction false} TrimStartEmpty(s: string)
    ensures TrimStart(s) == [] <==> IsBlank(s)
  {
    if s != [] {
      TrimStartEmpty(s[1..]);
      if IsWhitespace(s[0]) {
        assert IsBlank(s) <==> IsBlank(s[1..]) by {
          assert forall i :: 1 <= i < |s| ==> s[i] == s[1..][i - 1];
        }
      }
    }
  }

  /** What `trimStart` leaves is empty or starts with a non-white-space character, and
      trimming the end of such a string leaves it non-empty. */
  lemma {:induction false} TrimStartFirst(s: string)
    ensures TrimStart(s) != [] ==> !IsWhitespace(TrimStart(s)[0]) && TrimEnd(TrimStart(s)) != []
  {
    if s != [] && IsWhitespace(s[0]) {
      TrimStartFirst(s[1..]);
    } else if s != [] {
      TrimEndKeepsFirst(s);
    }
  }

  lemma {:induction false} TrimEndKeepsFirst(s: string)
    requires s != [] && !IsWhitespace(s[0])
    ensures TrimEnd(s) != []
    decreases |s|
  {
    if IsWhitespace(s[|s| - 1]) {
      TrimEndKeepsFirst(s[..|s| - 1]);
    }
  }
}
