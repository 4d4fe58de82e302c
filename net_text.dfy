/**
 * The .NET text operations the handlers depend on: `char.IsWhiteSpace`,
 * `string.Trim()`, `string.Split(char)`, `int.ToString()` and `int.TryParse(string, out int)`.
 */
module NetText {
  import opened Wrappers

  const Int32Min: int := -0x8000_0000
  const Int32Max: int := 0x7FFF_FFFF

  /** An ASCII decimal digit. */
  predicate IsDigit(c: char) { '0' <= c <= '9' }

  predicate AllDigits(s: string) { forall i :: 0 <= i < |s| ==> IsDigit(s[i]) }

  /** The white space `int.TryParse` skips at either end of its input: U+0009 to U+000D and the space. */
  predicate IsParseSpace(c: char) { c == ' ' || '\t' <= c <= '\r' }

  /** `char.IsWhiteSpace`: the characters `string.Trim()` removes. */
  predicate IsWhiteSpace(c: char) {
    || IsParseSpace(c)
    || c == '\U{0085}' || c == '\U{00A0}' || c == '\U{1680}'
    || ('\U{2000}' <= c <= '\U{200A}')
    || c == '\U{2028}' || c == '\U{2029}' || c == '\U{202F}' || c == '\U{205F}' || c == '\U{3000}'
  }

  /** Which characters a trim removes: those of `char.IsWhiteSpace`, or those `int.TryParse` skips. */
  datatype SpaceKind = WhiteSpace | ParseSpace

  predicate IsSpace(kind: SpaceKind, c: char) {
    match kind
    case WhiteSpace => IsWhiteSpace(c)
    case ParseSpace => IsParseSpace(c)
  }

  /** The number of spaces `string.Trim()` skips at the start: the index of the first other character. */
  function LeadingSpaces(s: string, kind: SpaceKind): (k: nat)
    ensures k <= |s|
    ensures forall i :: 0 <= i < k ==> IsSpace(kind, s[i])
    ensures k < |s| ==> !IsSpace(kind, s[k])
  {
    if s != [] && IsSpace(kind, s[0]) then
      var k := 1 + LeadingSpaces(s[1..], kind);
      assert forall i :: 1 <= i < |s| ==> s[i] == s[1..][i - 1];
      k
    else 0
  }

  /**
   * Where `string.Trim()` stops its scan back from the end, never going below `from`:
   * one past the last character at or after `from` that is not a space.
   */
  function ContentEnd(s: string, from: nat, kind: SpaceKind): (e: nat)
    requires from <= |s|
    ensures from <= e <= |s|
    ensures forall i :: e <= i < |s| ==> IsSpace(kind, s[i])
    ensures e > from ==> !IsSpace(kind, s[e - 1])
  {
    if |s| > from && IsSpace(kind, s[|s| - 1]) then ContentEnd(s[..|s| - 1], from, kind) else |s|
  }

  /**
   * `string.Trim()`, with `kind` naming what counts as a space: the text with exactly its
   * leading and trailing spaces removed. The result is the part of `s` that starts at
   * `LeadingSpaces(s, kind)`; everything before it and after it is a space, and it neither
   * starts nor ends with a space, so text made only of spaces trims to nothing.
   */
  function Trim(s: string, kind: SpaceKind): (r: string)
    ensures LeadingSpaces(s, kind) + |r| <= |s|
    ensures r == s[LeadingSpaces(s, kind)..LeadingSpaces(s, kind) + |r|]
    ensures forall i :: 0 <= i < LeadingSpaces(s, kind) ==> IsSpace(kind, s[i])
    ensures forall i :: LeadingSpaces(s, kind) + |r| <= i < |s| ==> IsSpace(kind, s[i])
    ensures r != [] ==> !IsSpace(kind, r[0]) && !IsSpace(kind, r[|r| - 1])
    ensures (forall i :: 0 <= i < |s| ==> IsSpace(kind, s[i])) ==> r == []
  {
    var k := LeadingSpaces(s, kind);
    s[k..ContentEnd(s, k, kind)]
  }

  /** Text without any space is its own trim. */
  lemma TrimNoWhite(s: string, kind: SpaceKind)
    requires forall i :: 0 <= i < |s| ==> !IsSpace(kind, s[i])
    ensures Trim(s, kind) == s
  {
  }

  /** Number of occurrences of `c` in `s`. */
  function Count(s: string, c: char): nat
  {
    if s == [] then 0 else (if s[0] == c then 1 else 0) + Count(s[1..], c)
  }

  lemma {:induction false} CountAppend(a: string, b: string, c: char)
    ensures Count(a + b, c) == Count(a, c) + Count(b, c)
  {
    if a != [] {
      assert (a + b)[0] == a[0];
      assert (a + b)[1..] == a[1..] + b;
      CountAppend(a[1..], b, c);
    } else {
      assert a + b == b;
    }
  }

  /** `Contains(c)` holds exactly when `c` occurs at least once. */
  lemma {:induction false} CountPositive(s: string, c: char)
    ensures c in s <==> Count(s, c) > 0
  {
    if s != [] {
      CountPositive(s[1..], c);
      assert c in s <==> s[0] == c || c in s[1..];
    }
  }

  /** `string.Split(sep)`: the pieces between separators, empty pieces included. */
  function Split(s: string, sep: char): (parts: seq<string>)
    ensures |parts| == Count(s, sep) + 1
    ensures forall i :: 0 <= i < |parts| ==> sep !in parts[i]
  {
    if s == [] then [""]
    else
      var rest := Split(s[1..], sep);
      if s[0] == sep then [""] + rest
      else [[s[0]] + rest[0]] + rest[1..]
  }

  /** `string.Join(sep, parts)`. */
  function Join(parts: seq<string>, sep: char): string
    requires parts != []
  {
    if |parts| == 1 then parts[0] else parts[0] + [sep] + Join(parts[1..], sep)
  }

  /** Splitting loses nothing: joining the pieces with the separator gives the text back. */
  lemma {:induction false} JoinSplit(s: string, sep: char)
    ensures Join(Split(s, sep), sep) == s
  {
    if s != [] {
      var rest := Split(s[1..], sep);
      JoinSplit(s[1..], sep);
      if s[0] == sep {
        assert Split(s, sep)[1..] == rest;
        assert s == [sep] + s[1..];
      } else {
        var parts := Split(s, sep);
        if |rest| == 1 {
          assert parts == [[s[0]] + rest[0]];
        } else {
          assert parts[1..] == rest[1..];
          assert Join(rest, sep) == rest[0] + [sep] + Join(rest[1..], sep);
        }
      }
    }
  }

  /** Text without the separator is one piece. */
  lemma {:induction false} SplitWithoutSeparator(s: string, sep: char)
    requires sep !in s
    ensures Split(s, sep) == [s]
  {
    if s != [] {
      SplitWithoutSeparator(s[1..], sep);
      assert [s[0]] + s[1..] == s;
    }
  }

  /** Text with exactly one separator splits into the piece before it and the piece after it. */
  lemma {:induction false} SplitAroundSeparator(a: string, b: string, sep: char)
    requires sep !in a && sep !in b
    ensures Split(a + [sep] + b, sep) == [a, b]
  {
    var s := a + [sep] + b;
    if a == [] {
      assert s[1..] == b;
      SplitWithoutSeparator(b, sep);
    } else {
      assert s[0] == a[0];
      assert s[1..] == a[1..] + [sep] + b;
      SplitAroundSeparator(a[1..], b, sep);
      assert [a[0]] + a[1..] == a;
    }
  }

  /** The value of a decimal digit. */
  function DigitValue(c: char): nat
    requires IsDigit(c)
  {
    c as int - '0' as int
  }

  /** The digit for a value below ten. */
  function DigitChar(d: nat): (c: char)
    requires d < 10
    ensures IsDigit(c) && DigitValue(c) == d
  {
    ('0' as int + d) as char
  }

  /** The value of a string of decimal digits, read most significant digit first. */
  function DigitsValue(s: string): nat
    requires AllDigits(s)
  {
    if s == [] then 0 else DigitsValue(s[..|s| - 1]) * 10 + DigitValue(s[|s| - 1])
  }

  /** `int.ToString()` of a non-negative value: its shortest decimal digits, with no leading zero. */
  function NatToString(n: nat): (s: string)
    ensures s != [] && AllDigits(s)
    ensures DigitsValue(s) == n
    ensures n > 0 ==> s[0] != '0'
    ensures |s| == 1 || s[0] != '0'
  {
    if n < 10 then [DigitChar(n)]
    else
      var s := NatToString(n / 10) + [DigitChar(n % 10)];
      assert s[..|s| - 1] == NatToString(n / 10);
      s
  }

  /**
   * `int.TryParse(s, out n)` with the default number style and the current culture's
   * signs, taken to be '+' and '-': white space at either end, an optional sign, at least one digit, and a
   * value inside the 32-bit range.
   */
  function TryParseInt(s: string): (r: Option<int>)
    ensures r.Some? ==> Int32Min <= r.value <= Int32Max
  {
    var t := Trim(s, ParseSpace);
    var signed := t != [] && (t[0] == '-' || t[0] == '+');
    var digits := if signed then t[1..] else t;
    if digits == [] || !AllDigits(digits) then None
    else
      var n: int := DigitsValue(digits);
      var v := if t[0] == '-' then -n else n;
      if Int32Min <= v <= Int32Max then Some(v) else None
  }

  /** A plain digit string parses to its value when that fits in 32 bits, and fails when it does not. */
  lemma ParseDigits(s: string)
    requires s != [] && AllDigits(s)
    ensures DigitsValue(s) <= Int32Max ==> TryParseInt(s) == Some(DigitsValue(s))
    ensures DigitsValue(s) > Int32Max ==> TryParseInt(s) == None
  {
    forall i | 0 <= i < |s| ensures !IsParseSpace(s[i]) {
      assert IsDigit(s[i]);
    }
    TrimNoWhite(s, ParseSpace);
    assert Trim(s, ParseSpace) == s;
    assert IsDigit(s[0]);
  }

  /** The text a quantity box shows parses back to the same quantity. */
  lemma ParseShownInt(n: int)
    requires 0 <= n <= Int32Max
    ensures TryParseInt(NatToString(n)) == Some(n)
  {
    ParseDigits(NatToString(n));
  }
}
