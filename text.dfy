/**
 * The string operations of Python's `str` that the monitor relies on, restricted to
 * ASCII: `lower`/`upper`, `strip`, `splitlines` (on '\n' only), `join`, `replace`,
 * `count`, the `in` substring test, `str(int)` and slicing `s[:n]`.
 */
module Text {

  /** `c.isspace()` for ASCII characters: space, \t, \n, \v, \f, \r and \x1c-\x1f. */
  predicate IsSpace(c: char) {
    c == ' ' || ('\t' <= c <= '\r') || ('\U{1C}' <= c <= '\U{1F}')
  }

  function Lower(c: char): (d: char)
    ensures !('A' <= d <= 'Z')
    ensures !('A' <= c <= 'Z') ==> d == c
  {
    if 'A' <= c <= 'Z' then (c as int - 'A' as int + 'a' as int) as char else c
  }

  function Upper(c: char): (d: char)
    ensures !('a' <= d <= 'z')
    ensures !('a' <= c <= 'z') ==> d == c
  {
    if 'a' <= c <= 'z' then (c as int - 'a' as int + 'A' as int) as char else c
  }

  /** `s.lower()`: same length, each letter lowered. */
  function LowerStr(s: string): (r: string)
    ensures |r| == |s|
    ensures forall i :: 0 <= i < |s| ==> r[i] == Lower(s[i])
  {
    seq(|s|, i requires 0 <= i < |s| => Lower(s[i]))
  }

  /** `s.upper()`: same length, each letter raised. */
  function UpperStr(s: string): (r: string)
    ensures |r| == |s|
    ensures forall i :: 0 <= i < |s| ==> r[i] == Upper(s[i])
  {
    seq(|s|, i requires 0 <= i < |s| => Upper(s[i]))
  }

  /** `s.strip()`: `s` without its leading and trailing white space (facts in StripFacts). */
  function Strip(s: string): string
    decreases |s|
  {
    if |s| > 0 && IsSpace(s[0]) then Strip(s[1..])
    else if |s| > 0 && IsSpace(s[|s| - 1]) then Strip(s[..|s| - 1])
    else s
  }

  /** A line is blank when nothing but white space is left after `strip()`. */
  predicate IsBlank(s: string) {
    Strip(s) == ""
  }

  /** `sep.join(parts)`. */
  function Join(sep: string, parts: seq<string>): string
    decreases |parts|
  {
    if |parts| == 0 then ""
    else if |parts| == 1 then parts[0]
    else parts[0] + sep + Join(sep, parts[1..])
  }

  /** `s.replace(a, b)` for a single character `a` and a single character `b`. */
  function ReplaceChar(s: string, a: char, b: char): (r: string)
    ensures |r| == |s|
    ensures forall i :: 0 <= i < |s| ==> r[i] == (if s[i] == a then b else s[i])
  {
    seq(|s|, i requires 0 <= i < |s| => if s[i] == a then b else s[i])
  }

  /** The index of the first '\n' in `s`, or |s| when there is none. */
  function NewlineIndex(s: string): (i: nat)
    ensures i <= |s|
    ensures forall k :: 0 <= k < i ==> s[k] != '\n'
    ensures i < |s| ==> s[i] == '\n'
    decreases |s|
  {
    if s == "" || s[0] == '\n' then 0 else 1 + NewlineIndex(s[1..])
  }

  /**
   * `s.splitlines()` with '\n' as the only line boundary: the pieces between
   * newlines, without a trailing empty piece; "" has no lines.
   */
  function SplitLines(s: string): (r: seq<string>)
    ensures forall k :: 0 <= k < |r| ==> '\n' !in r[k]
    decreases |s|
  {
    if s == "" then []
    else
      var i := NewlineIndex(s);
      assert '\n' !in s[..i] by {
        forall k | 0 <= k < i ensures s[..i][k] != '\n' { }
      }
      if i == |s| then [s] else [s[..i]] + SplitLines(s[i + 1..])
  }

  /** `text.count(term)` for a non-empty term: non-overlapping matches, scanned from the left. */
  function CountFrom(text: string, term: string): nat
    requires |term| > 0
    decreases |text|
  {
    if |text| < |term| then 0
    else if text[..|term|] == term then 1 + CountFrom(text[|term|..], term)
    else CountFrom(text[1..], term)
  }

  /** `term in text`: `term` occurs in `text` as a contiguous piece. */
  predicate Contains(text: string, term: string)
    decreases |text|
  {
    term <= text || (|text| > 0 && Contains(text[1..], term))
  }

  function Digit(d: nat): (c: char)
    requires d < 10
    ensures '0' <= c <= '9'
  {
    ('0' as int + d) as char
  }

  /** `str(n)` for a natural number: its decimal digits. */
  function NatToString(n: nat): (r: string)
    ensures |r| > 0
    ensures forall k :: 0 <= k < |r| ==> '0' <= r[k] <= '9'
  {
    if n < 10 then [Digit(n)] else NatToString(n / 10) + [Digit(n % 10)]
  }

  /** `str(i)` for an integer: a minus sign for negative values, then the digits. */
  function IntToString(i: int): (r: string)
    ensures |r| > 0
    ensures forall k :: 0 <= k < |r| ==> r[k] == '-' || '0' <= r[k] <= '9'
  {
    if i < 0 then "-" + NatToString(-i) else NatToString(i)
  }

  function Min(a: int, b: int): int {
    if a <= b then a else b
  }

  /** Python's slice `s[:n]`; a negative `n` drops that many elements from the end. */
  function PyTake<T>(s: seq<T>, n: int): (r: seq<T>)
    ensures |r| <= |s| && r == s[..|r|]
    ensures n >= 0 ==> |r| == Min(n, |s|)
    ensures n < 0 ==> |r| == (if |s| + n < 0 then 0 else |s| + n)
  {
    if n >= 0 then (if n <= |s| then s[..n] else s)
    else if |s| + n < 0 then [] else s[..|s| + n]
  }

  // ---------------------------------------------------------------------------
  // Lemmas

  /**
   * `strip()` leaves nothing exactly when every character is white space; otherwise its
   * result starts and ends with a non-space; it only keeps characters of `s`; and it leaves
   * alone a string that neither starts nor ends with white space.
   */
  lemma {:induction false} StripFacts(s: string)
    ensures Strip(s) == "" <==> forall k :: 0 <= k < |s| ==> IsSpace(s[k])
    ensures Strip(s) != "" ==> !IsSpace(Strip(s)[0]) && !IsSpace(Strip(s)[|Strip(s)| - 1])
    ensures forall c :: c in Strip(s) ==> c in s
    ensures |s| > 0 && !IsSpace(s[0]) && !IsSpace(s[|s| - 1]) ==> Strip(s) == s
    decreases |s|
  {
    if |s| > 0 && IsSpace(s[0]) {
      StripFacts(s[1..]);
      assert forall k :: 1 <= k < |s| ==> s[k] == s[1..][k - 1];
      assert forall c :: c in s[1..] ==> c in s;
    } else if |s| > 0 && IsSpace(s[|s| - 1]) {
      StripFacts(s[..|s| - 1]);
      assert forall k :: 0 <= k < |s| - 1 ==> s[k] == s[..|s| - 1][k];
      assert forall c :: c in s[..|s| - 1] ==> c in s;
    }
  }

  /** Stripping twice strips nothing more. */
  lemma StripIdempotent(s: string)
    ensures Strip(Strip(s)) == Strip(s)
  {
    StripFacts(s);
    StripFacts(Strip(s));
  }

  /** A non-empty term is counted at least once exactly when the text contains it. */
  lemma {:induction false} CountPositiveIffContains(text: string, term: string)
    requires |term| > 0
    ensures CountFrom(text, term) > 0 <==> Contains(text, term)
    decreases |text|
  {
    if |text| < |term| {
      ContainsNeedsRoom(text, term);
    } else if text[..|term|] == term {
      assert term <= text;
    } else {
      assert !(term <= text);
      CountPositiveIffContains(text[1..], term);
    }
  }

  /** A term longer than the text never occurs in it. */
  lemma {:induction false} ContainsNeedsRoom(text: string, term: string)
    requires |term| > |text|
    ensures !Contains(text, term)
    decreases |text|
  {
    if |text| > 0 { ContainsNeedsRoom(text[1..], term); }
  }

  /** Non-overlapping matches never need more characters than the text has. */
  lemma {:induction false} CountBound(text: string, term: string)
    requires |term| > 0
    ensures CountFrom(text, term) * |term| <= |text|
    decreases |text|
  {
    if |text| < |term| {
    } else if text[..|term|] == term {
      CountBound(text[|term|..], term);
    } else {
      CountBound(text[1..], term);
    }
  }

  lemma {:induction false} NewlineIndexOfConcat(a: string, b: string)
    requires '\n' !in a
    requires b == "" || b[0] == '\n'
    ensures NewlineIndex(a + b) == |a|
    decreases |a|
  {
    if a == "" {
      assert a + b == b;
    } else {
      assert (a + b)[0] == a[0];
      assert (a + b)[1..] == a[1..] + b;
      NewlineIndexOfConcat(a[1..], b);
    }
  }

  /** Joining newline-free, non-empty lines with "\n" and splitting them again gives the lines back. */
  lemma {:induction false} SplitLinesOfJoin(ls: seq<string>)
    requires forall k :: 0 <= k < |ls| ==> ls[k] != "" && '\n' !in ls[k]
    ensures SplitLines(Join("\n", ls)) == ls
    decreases |ls|
  {
    if |ls| == 1 {
      NewlineIndexOfConcat(ls[0], "");
      assert ls[0] + "" == ls[0];
    } else if |ls| > 1 {
      var rest := Join("\n", ls[1..]);
      var s := ls[0] + "\n" + rest;
      assert s == ls[0] + ("\n" + rest);
      NewlineIndexOfConcat(ls[0], "\n" + rest);
      assert s[..|ls[0]|] == ls[0];
      assert s[|ls[0]| + 1..] == rest;
      assert SplitLines(s) == [ls[0]] + SplitLines(rest);
      SplitLinesOfJoin(ls[1..]);
      assert ls == [ls[0]] + ls[1..];
    }
  }

  /** Joining newline-free pieces with a newline-free separator gives a newline-free string. */
  lemma {:induction false} JoinNoNewline(sep: string, parts: seq<string>)
    requires '\n' !in sep
    requires forall k :: 0 <= k < |parts| ==> '\n' !in parts[k]
    ensures '\n' !in Join(sep, parts)
    decreases |parts|
  {
    if |parts| > 1 {
      JoinNoNewline(sep, parts[1..]);
      var rest := Join(sep, parts[1..]);
      assert parts[0] + sep + rest == parts[0] + (sep + rest);
    }
  }

  /** A join of at least one non-empty piece is non-empty. */
  lemma {:induction false} JoinNonEmpty(sep: string, parts: seq<string>)
    requires |parts| > 0 && parts[0] != ""
    ensures Join(sep, parts) != ""
  {
    if |parts| > 1 {
      assert Join(sep, parts)[0] == parts[0][0];
    }
  }
}
