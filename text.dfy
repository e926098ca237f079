/** String primitives shared by the form steps: the JavaScript character
    classes `\d` and `\s`, `String.prototype.trim`, `replace(/…/g, "")` with a
    one-character class, and `String.prototype.slice` with non-negative
    arguments. Strings are sequences of Unicode scalar values. */
module Text {

  /** `\d` in a JavaScript regular expression: ASCII `0`-`9` only. */
  predicate IsDigit(c: char) {
    '0' <= c <= '9'
  }

  /** The characters matched by `\s` and removed by `trim()`: ECMAScript's
      WhiteSpace (tab, vertical tab, form feed, no-break space, byte order
      mark and the space separators) and LineTerminator (LF, CR, U+2028,
      U+2029). Both use the same set. */
  predicate IsSpace(c: char) {
    c == '\t' || c == '\n' || c == '\U{000B}' || c == '\U{000C}' || c == '\r' ||
    c == ' ' || c == '\U{00A0}' || c == '\U{1680}' ||
    ('\U{2000}' <= c <= '\U{200A}') ||
    c == '\U{2028}' || c == '\U{2029}' || c == '\U{202F}' || c == '\U{205F}' ||
    c == '\U{3000}' || c == '\U{FEFF}'
  }

  predicate NotHyphen(c: char) {
    c != '-'
  }

  /** Kept by `replace(/[-\s]/g, "")`. */
  predicate NotSeparator(c: char) {
    c != '-' && !IsSpace(c)
  }

  predicate AllDigits(s: string) {
    forall i :: 0 <= i < |s| ==> IsDigit(s[i])
  }

  /** `!s.trim()`: the string is empty once leading and trailing white space
      is removed, i.e. it consists of white space only. */
  predicate IsBlank(s: string) {
    forall i :: 0 <= i < |s| ==> IsSpace(s[i])
  }

  function Min(a: int, b: int): int {
    if a <= b then a else b
  }

  /** `s.replace(/[^keep]/g, "")`: the characters of `s` that satisfy `keep`,
      in their original order. */
  function Filter(s: string, keep: char -> bool): (r: string)
    ensures |r| <= |s|
    ensures forall i :: 0 <= i < |r| ==> keep(r[i])
  {
    if s == [] then []
    else if keep(s[0]) then [s[0]] + Filter(s[1..], keep)
    else Filter(s[1..], keep)
  }

  /** `s.replace(/\D/g, "")` */
  function Digits(s: string): string {
    Filter(s, IsDigit)
  }

  /** `s.replace(/[-]/g, "")` */
  function RemoveHyphens(s: string): string {
    Filter(s, NotHyphen)
  }

  /** `s.replace(/[-\s]/g, "")` */
  function RemoveSeparators(s: string): string {
    Filter(s, NotSeparator)
  }

  /** `s.slice(start, end)` for non-negative arguments: both ends are clamped
      to the length, and an empty string results when they cross. */
  function Slice(s: string, start: nat, end: nat): (r: string)
    ensures |r| == if Min(start, |s|) <= Min(end, |s|) then Min(end, |s|) - Min(start, |s|) else 0
    ensures forall i :: 0 <= i < |r| ==> r[i] == s[start + i]
  {
    var lo := Min(start, |s|);
    var hi := Min(end, |s|);
    if lo < hi then s[lo..hi] else ""
  }

  /** `s.slice(start)` */
  function SliceFrom(s: string, start: nat): (r: string)
    ensures |r| == if start <= |s| then |s| - start else 0
    ensures forall i :: 0 <= i < |r| ==> r[i] == s[start + i]
  {
    Slice(s, start, |s|)
  }

  lemma {:induction false} FilterConcat(a: string, b: string, keep: char -> bool)
    ensures Filter(a + b, keep) == Filter(a, keep) + Filter(b, keep)
  {
    if a == [] {
      assert a + b == b;
    } else {
      assert (a + b)[0] == a[0] && (a + b)[1..] == a[1..] + b;
      FilterConcat(a[1..], b, keep);
    }
  }

  /** Removing hyphens around an inserted hyphen joins the two sides. */
  lemma RemoveHyphensJoin(a: string, b: string)
    ensures RemoveHyphens(a + "-" + b) == RemoveHyphens(a) + RemoveHyphens(b)
  {
    assert RemoveHyphens("-") == [];
    FilterConcat(a, "-", NotHyphen);
    FilterConcat(a + "-", b, NotHyphen);
  }

  /** The three clamped slices at 2 and 10 put together give the string back. */
  lemma SliceThree(s: string)
    ensures Slice(s, 0, 2) + Slice(s, 2, 10) + SliceFrom(s, 10) == s
  {
  }

  /** Filtering leaves a string alone exactly when every character is kept. */
  lemma {:induction false} FilterKeepsAll(s: string, keep: char -> bool)
    ensures Filter(s, keep) == s <==> forall i :: 0 <= i < |s| ==> keep(s[i])
  {
    if s != [] {
      FilterKeepsAll(s[1..], keep);
      if !keep(s[0]) {
        assert |Filter(s, keep)| < |s|;
      }
    }
  }

  /** Filtering drops everything exactly when no character is kept. */
  lemma {:induction false} FilterDropsAll(s: string, keep: char -> bool)
    ensures Filter(s, keep) == [] <==> forall i :: 0 <= i < |s| ==> !keep(s[i])
  {
    if s != [] {
      FilterDropsAll(s[1..], keep);
      if keep(s[0]) {
        assert Filter(s, keep)[0] == s[0];
      }
    }
  }

  /** Every character filtering keeps comes from the input, and every
      character of the input that satisfies the class is kept. */
  lemma {:induction false} FilterMembers(s: string, keep: char -> bool)
    ensures forall j :: 0 <= j < |Filter(s, keep)| ==> Filter(s, keep)[j] in s
    ensures forall i :: 0 <= i < |s| && keep(s[i]) ==> s[i] in Filter(s, keep)
  {
    if s != [] {
      FilterMembers(s[1..], keep);
      var r := Filter(s, keep);
      forall i | 0 <= i < |s| && keep(s[i]) ensures s[i] in r {
        if i > 0 {
          assert s[i] == s[1..][i - 1];
        }
      }
    }
  }

  /** Filtering with a stronger class after a weaker one is the stronger one. */
  lemma {:induction false} FilterFilter(s: string, first: char -> bool, second: char -> bool)
    requires forall c :: second(c) ==> first(c)
    ensures Filter(Filter(s, first), second) == Filter(s, second)
  {
    if s != [] {
      FilterFilter(s[1..], first, second);
    }
  }

  /** A white-space-only string holds no digit and nothing survives
      `replace(/[-\s]/g, "")`. */
  lemma BlankStripsToEmpty(s: string)
    requires IsBlank(s)
    ensures Digits(s) == [] && RemoveSeparators(s) == []
  {
    forall i | 0 <= i < |s| ensures !IsDigit(s[i]) && !NotSeparator(s[i]) {
      assert IsSpace(s[i]);
    }
    FilterDropsAll(s, IsDigit);
    FilterDropsAll(s, NotSeparator);
  }

  lemma AllDigitsNotBlank(s: string)
    requires AllDigits(s) && s != []
    ensures !IsBlank(s)
  {
    assert IsDigit(s[0]);
  }
}
