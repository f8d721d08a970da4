/**
 * The few string operations of the Kotlin standard library that the app relies on:
 * `isBlank`, `Char.isDigit`/`filter`, `contains` and `toDoubleOrNull` on digit strings.
 */
module Text {
  import opened Wrappers

  /**
   * `Char.isWhitespace` on the JVM: Java whitespace or a Unicode space separator.
   */
  function IsWhitespace(c: char): (w: bool)
    ensures c == ' ' || c == '\t' || c == '\n' ==> w
    ensures '0' <= c <= '9' ==> !w
    ensures 'A' <= c <= 'Z' || 'a' <= c <= 'z' ==> !w
  {
    c == ' ' || c == '\t' || c == '\n' || c == '\r' || c == '\U{000B}' || c == '\U{000C}'
    || ('\U{001C}' <= c <= '\U{001F}')
    || c == '\U{00A0}' || c == '\U{1680}' || ('\U{2000}' <= c <= '\U{200A}')
    || c == '\U{2028}' || c == '\U{2029}' || c == '\U{202F}' || c == '\U{205F}' || c == '\U{3000}'
  }

  /** `CharSequence.isBlank`: empty, or whitespace only. */
  function IsBlank(s: string): (b: bool)
    ensures b <==> forall c :: c in s ==> IsWhitespace(c)
    ensures s == [] ==> b
  {
    forall i :: 0 <= i < |s| ==> IsWhitespace(s[i])
  }

  /** `Char.isDigit`, restricted to the ASCII digits. */
  predicate IsDigit(c: char) {
    '0' <= c <= '9'
  }

  predicate AllDigits(s: string) {
    forall i :: 0 <= i < |s| ==> IsDigit(s[i])
  }

  /** `s.filter { it.isDigit() }`: the digits of `s`, in order. */
  function FilterDigits(s: string): (r: string)
    ensures AllDigits(r)
    ensures |r| <= |s|
    ensures forall c :: c in r <==> c in s && IsDigit(c)
  {
    if s == [] then []
    else if IsDigit(s[0]) then [s[0]] + FilterDigits(s[1..])
    else FilterDigits(s[1..])
  }

  /** Filtering keeps a string that is already all digits. */
  lemma {:induction false} FilterDigitsKeepsDigits(s: string)
    requires AllDigits(s)
    ensures FilterDigits(s) == s
  {
    if s != [] {
      assert AllDigits(s[1..]) by {
        forall i | 0 <= i < |s[1..]| ensures IsDigit(s[1..][i]) {
          assert s[1..][i] == s[i + 1];
        }
      }
      FilterDigitsKeepsDigits(s[1..]);
    }
  }

  /** Filtering works piece by piece: the digits of `a + b` are those of `a`, then those of `b`. */
  lemma {:induction false} FilterDigitsAppend(a: string, b: string)
    ensures FilterDigits(a + b) == FilterDigits(a) + FilterDigits(b)
  {
    if a != [] {
      assert (a + b)[0] == a[0];
      assert (a + b)[1..] == a[1..] + b;
      FilterDigitsAppend(a[1..], b);
    } else {
      assert a + b == b;
    }
  }

  /** Filtering twice is filtering once. */
  lemma FilterDigitsIdempotent(s: string)
    ensures FilterDigits(FilterDigits(s)) == FilterDigits(s)
  {
    FilterDigitsKeepsDigits(FilterDigits(s));
  }

  /** A digit string is blank exactly when it is empty. */
  lemma DigitsBlankIffEmpty(s: string)
    requires AllDigits(s)
    ensures IsBlank(s) <==> s == []
  {
    if s != [] {
      assert !IsWhitespace(s[0]);
    }
  }

  function DigitValue(c: char): nat
    requires IsDigit(c)
  {
    (c as int) - ('0' as int)
  }

  /** The number written by a string of decimal digits (the empty string writes 0). */
  function DigitsValue(s: string): nat
    requires AllDigits(s)
  {
    if s == [] then 0 else DigitsValue(s[..|s| - 1]) * 10 + DigitValue(s[|s| - 1])
  }

  /**
   * `s.toDoubleOrNull()` for a string that holds only digits: absent for the
   * empty string, otherwise the number the digits write.
   */
  function ParseDigits(s: string): (r: Option<nat>)
    requires AllDigits(s)
    ensures r.None? <==> s == []
    ensures r.Some? ==> r.value == DigitsValue(s)
  {
    if s == [] then None else Some(DigitsValue(s))
  }

  /** A digit string writes zero exactly when each of its digits is '0'. */
  lemma {:induction false} DigitsValueZero(s: string)
    requires AllDigits(s)
    ensures DigitsValue(s) == 0 <==> forall i :: 0 <= i < |s| ==> s[i] == '0'
  {
    if s != [] {
      var init := s[..|s| - 1];
      assert AllDigits(init) by {
        forall i | 0 <= i < |init| ensures IsDigit(init[i]) {
          assert init[i] == s[i];
        }
      }
      DigitsValueZero(init);
      if DigitsValue(s) == 0 {
        forall i | 0 <= i < |s| ensures s[i] == '0' {
          if i < |s| - 1 {
            assert init[i] == s[i];
          }
        }
      } else if DigitValue(s[|s| - 1]) != 0 {
        assert s[|s| - 1] != '0';
      } else {
        var j :| 0 <= j < |init| && init[j] != '0';
        assert s[j] == init[j];
      }
    }
  }

  /** `haystack.contains(needle)`: `needle` occurs in `haystack` as a contiguous piece. */
  function Contains(haystack: string, needle: string): (b: bool)
    ensures needle <= haystack ==> b
    ensures |needle| > |haystack| ==> !b
    ensures b ==> |needle| <= |haystack|
    decreases |haystack|
  {
    if needle <= haystack then true
    else if haystack == [] then false
    else Contains(haystack[1..], needle)
  }

  /** `needle` occurs in `haystack` starting at index `i`. */
  predicate OccursAt(haystack: string, needle: string, i: int) {
    0 <= i && i + |needle| <= |haystack| && haystack[i..i + |needle|] == needle
  }

  /** `Contains` agrees with the definition by an occurrence index. */
  lemma {:induction false} ContainsIffOccurs(haystack: string, needle: string)
    ensures Contains(haystack, needle) <==> exists i :: OccursAt(haystack, needle, i)
    decreases |haystack|
  {
    if needle <= haystack {
      assert OccursAt(haystack, needle, 0);
    } else if haystack != [] {
      var tail := haystack[1..];
      ContainsIffOccurs(tail, needle);
      assert Contains(haystack, needle) == Contains(tail, needle);
      assert !OccursAt(haystack, needle, 0);
      forall i | OccursAt(haystack, needle, i) && i > 0 ensures OccursAt(tail, needle, i - 1) {
        assert tail[i - 1..i - 1 + |needle|] == haystack[i..i + |needle|];
      }
      forall j | OccursAt(tail, needle, j) ensures OccursAt(haystack, needle, j + 1) {
        assert haystack[j + 1..j + 1 + |needle|] == tail[j..j + |needle|];
      }
    } else {
      assert |needle| > 0;
      forall i | 0 <= i ensures !OccursAt(haystack, needle, i) {
      }
    }
  }
}
