/**
 * String helpers the worker relies on: JavaScript's `Array.prototype.join`,
 * `Number.prototype.toString` on integer ids, and, as their partners, a
 * splitter and a decimal parser with the round trips that make the rendered
 * SQL text, index keys and context lines readable back.
 */
module Text {
  import opened Wrappers

  // ---------------------------------------------------------------------------
  // Join and its inverse
  // ---------------------------------------------------------------------------

  /** `parts.join(sep)`: the parts in order, `sep` between neighbours, "" for no parts. */
  function Join(parts: seq<string>, sep: string): string
  {
    if |parts| == 0 then ""
    else if |parts| == 1 then parts[0]
    else parts[0] + sep + Join(parts[1..], sep)
  }

  /** `sep` occurs in `s` starting at index `j`. */
  predicate OccursAt(s: string, sep: string, j: int)
  {
    0 <= j && j + |sep| <= |s| && s[j..j + |sep|] == sep
  }

  lemma OccursShift(s: string, sep: string, j: int)
    requires |s| > 0 && 0 <= j
    ensures OccursAt(s[1..], sep, j) <==> OccursAt(s, sep, j + 1)
  {
  }

  /** The first index at which `sep` occurs in `s`, if any. */
  function Find(s: string, sep: string): (r: Option<nat>)
    requires |sep| > 0
    ensures r.Some? ==> OccursAt(s, sep, r.value)
    ensures r.Some? ==> forall j :: 0 <= j < r.value ==> !OccursAt(s, sep, j)
    ensures r.None? ==> forall j :: !OccursAt(s, sep, j)
    decreases |s|
  {
    if |s| < |sep| then None
    else if s[..|sep|] == sep then Some(0)
    else
      var rest := Find(s[1..], sep);
      assert forall j :: 0 <= j ==> (OccursAt(s[1..], sep, j) <==> OccursAt(s, sep, j + 1)) by {
        forall j | 0 <= j { OccursShift(s, sep, j); }
      }
      assert !OccursAt(s, sep, 0);
      assert forall j :: OccursAt(s, sep, j) ==> j >= 1 && OccursAt(s[1..], sep, j - 1);
      match rest
      case None => None
      case Some(k) => Some(k + 1)
  }

  /** No occurrence of `sep` in `p + sep` starts inside `p`: `p` followed by `sep` splits back at `|p|`. */
  ghost predicate SeparatorFree(p: string, sep: string)
  {
    forall j :: 0 <= j < |p| ==> !OccursAt(p + sep, sep, j)
  }

  lemma FindNone(p: string, sep: string)
    requires |sep| > 0 && SeparatorFree(p, sep)
    ensures Find(p, sep) == None
  {
    forall j | 0 <= j && j + |sep| <= |p|
      ensures !OccursAt(p, sep, j)
    {
      assert (p + sep)[j..j + |sep|] == p[j..j + |sep|];
      assert !OccursAt(p + sep, sep, j);
    }
  }

  /** In `p + sep + rest` the first occurrence of `sep` is the one right after `p`. */
  lemma FindAfter(p: string, sep: string, rest: string)
    requires |sep| > 0 && SeparatorFree(p, sep)
    ensures Find(p + sep + rest, sep) == Some(|p|)
  {
    var s := p + sep + rest;
    assert s[|p|..|p| + |sep|] == sep;
    assert OccursAt(s, sep, |p|);
    forall j | 0 <= j < |p|
      ensures !OccursAt(s, sep, j)
    {
      assert s[j..j + |sep|] == (p + sep)[j..j + |sep|];
      assert !OccursAt(p + sep, sep, j);
    }
  }

  /** Every piece of `s` between occurrences of `sep`, read left to right. */
  function Pieces(s: string, sep: string): seq<string>
    requires |sep| > 0
    decreases |s|
  {
    match Find(s, sep)
    case None => [s]
    case Some(i) => [s[..i]] + Pieces(s[i + |sep|..], sep)
  }

  /** The inverse of `Join` for non-empty parts: "" splits into no parts. */
  function Split(s: string, sep: string): seq<string>
    requires |sep| > 0
  {
    if s == "" then [] else Pieces(s, sep)
  }

  lemma {:induction false} PiecesJoin(parts: seq<string>, sep: string)
    requires |sep| > 0 && |parts| > 0
    requires forall k :: 0 <= k < |parts| ==> SeparatorFree(parts[k], sep)
    ensures Pieces(Join(parts, sep), sep) == parts
    decreases |parts|
  {
    if |parts| == 1 {
      FindNone(parts[0], sep);
    } else {
      var p, tail := parts[0], Join(parts[1..], sep);
      assert Join(parts, sep) == p + sep + tail;
      FindAfter(p, sep, tail);
      assert (p + sep + tail)[..|p|] == p;
      assert (p + sep + tail)[|p| + |sep|..] == tail;
      PiecesJoin(parts[1..], sep);
    }
  }

  /** Splitting a join gives the parts back when each is non-empty and separator-free. */
  lemma SplitJoin(parts: seq<string>, sep: string)
    requires |sep| > 0
    requires forall k :: 0 <= k < |parts| ==> parts[k] != "" && SeparatorFree(parts[k], sep)
    ensures Split(Join(parts, sep), sep) == parts
  {
    if |parts| > 0 {
      PiecesJoin(parts, sep);
    }
  }

  /** A part in which the separator's first character never appears is separator-free. */
  lemma FreeOfFirstChar(p: string, sep: string)
    requires |sep| > 0
    requires forall j :: 0 <= j < |p| ==> p[j] != sep[0]
    ensures SeparatorFree(p, sep)
  {
    forall j | 0 <= j < |p|
      ensures !OccursAt(p + sep, sep, j)
    {
      if j + |sep| <= |p + sep| {
        assert (p + sep)[j..j + |sep|][0] == p[j];
      }
    }
  }

  // ---------------------------------------------------------------------------
  // Integer ids as text
  // ---------------------------------------------------------------------------

  predicate IsDigit(c: char)
  {
    '0' <= c <= '9'
  }

  predicate AllDigits(s: string)
  {
    |s| > 0 && forall i :: 0 <= i < |s| ==> IsDigit(s[i])
  }

  /** What `toString()` of an integer looks like: digits, or a minus sign and digits. */
  predicate IsIntLiteral(s: string)
  {
    AllDigits(s) || (|s| > 1 && s[0] == '-' && AllDigits(s[1..]))
  }

  function DigitChar(d: nat): (c: char)
    requires d < 10
    ensures IsDigit(c)
  {
    ('0' as int + d) as char
  }

  function DigitValue(c: char): nat
    requires IsDigit(c)
  {
    c as int - '0' as int
  }

  /** Decimal digits of `n`, most significant first, no leading zeros. */
  function NatToString(n: nat): (s: string)
    ensures AllDigits(s)
    decreases n
  {
    if n < 10 then [DigitChar(n)] else NatToString(n / 10) + [DigitChar(n % 10)]
  }

  /** `id.toString()` for an integer `id`. */
  function IntToString(n: int): (s: string)
    ensures IsIntLiteral(s)
  {
    if n < 0 then "-" + NatToString(-n) else NatToString(n)
  }

  /** The value of a string of decimal digits. */
  function DigitsValue(s: string): nat
    requires forall i :: 0 <= i < |s| ==> IsDigit(s[i])
    decreases |s|
  {
    if s == "" then 0 else DigitsValue(s[..|s| - 1]) * 10 + DigitValue(s[|s| - 1])
  }

  /** Reads an integer literal (leading zeros allowed) back; anything else is `None`. */
  function ParseInt(s: string): Option<int>
  {
    if AllDigits(s) then Some(DigitsValue(s) as int)
    else if |s| > 1 && s[0] == '-' && AllDigits(s[1..]) then Some(0 - DigitsValue(s[1..]) as int)
    else None
  }

  lemma {:induction false} NatRoundTrip(n: nat)
    ensures DigitsValue(NatToString(n)) == n
    decreases n
  {
    if n >= 10 {
      var s := NatToString(n);
      assert s[..|s| - 1] == NatToString(n / 10);
      NatRoundTrip(n / 10);
    }
  }

  /** Every integer id reads back from its own `toString()`. */
  lemma IntRoundTrip(n: int)
    ensures ParseInt(IntToString(n)) == Some(n)
  {
    if n < 0 {
      var s := IntToString(n);
      assert !IsDigit(s[0]);
      assert s[1..] == NatToString(-n);
      NatRoundTrip(-n);
    } else {
      NatRoundTrip(n);
    }
  }

  /** Distinct ids never render to the same key. */
  lemma IntToStringInjective(a: int, b: int)
    ensures IntToString(a) == IntToString(b) <==> a == b
  {
    IntRoundTrip(a);
    IntRoundTrip(b);
  }

  /** An integer literal holds only digits and a leading minus sign. */
  lemma LiteralAvoids(s: string, c: char)
    requires IsIntLiteral(s) && c != '-' && !IsDigit(c)
    ensures forall j :: 0 <= j < |s| ==> s[j] != c
  {
  }

  /** An integer literal followed by "- " splits back at the end of the literal. */
  lemma LiteralFreeOfDashSpace(s: string)
    requires IsIntLiteral(s)
    ensures SeparatorFree(s, "- ")
  {
    var t := s + "- ";
    forall j | 0 <= j < |s|
      ensures !OccursAt(t, "- ", j)
    {
      assert t[j..j + 2] == [t[j], t[j + 1]];
      if j + 1 < |s| {
        assert t[j + 1] == s[j + 1];
        if !AllDigits(s) { assert s[j + 1] == s[1..][j]; }
      } else {
        assert t[j] == s[|s| - 1];
        if !AllDigits(s) { assert s[|s| - 1] == s[1..][|s| - 2]; }
      }
    }
  }
}
