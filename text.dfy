/**
 * The pieces of Rust's string handling the scene parser and the config
 * conversions rely on: `str::split` on one character, removal of one
 * character, `str::trim`, and `str::parse` for unsigned and 32-bit signed
 * integers.
 */
module Text {
  import opened Wrappers

  /** The pieces glued back together with `sep` between neighbours. */
  function Join(pieces: seq<string>, sep: char): string
    requires |pieces| >= 1
  {
    if |pieces| == 1 then pieces[0] else pieces[0] + [sep] + Join(pieces[1..], sep)
  }

  /**
   * `s.split(sep)`: the maximal runs between separators, including empty ones
   * at either end; always at least one piece, and no piece holds `sep`.
   */
  function Split(s: string, sep: char): (r: seq<string>)
    ensures |r| >= 1
    ensures forall i :: 0 <= i < |r| ==> sep !in r[i]
    decreases |s|
  {
    if |s| == 0 then [""]
    else
      var rest := Split(s[1..], sep);
      if s[0] == sep then [""] + rest
      else [[s[0]] + rest[0]] + rest[1..]
  }

  /** Splitting then joining gives the string back. */
  lemma {:induction false} SplitJoin(s: string, sep: char)
    ensures Join(Split(s, sep), sep) == s
    decreases |s|
  {
    if |s| > 0 {
      var rest := Split(s[1..], sep);
      SplitJoin(s[1..], sep);
      if s[0] == sep {
        assert Split(s, sep) == [""] + rest;
        assert ([""] + rest)[1..] == rest;
        assert s == [sep] + s[1..];
      } else {
        var r := Split(s, sep);
        assert r == [[s[0]] + rest[0]] + rest[1..];
        if |rest| == 1 {
          assert s == [s[0]] + rest[0];
        } else {
          assert r[1..] == rest[1..];
          assert Join(rest, sep) == rest[0] + [sep] + Join(rest[1..], sep);
          assert s == [s[0]] + s[1..];
        }
      }
    }
  }

  /** A string without the separator is a single piece. */
  lemma {:induction false} SplitWithoutSeparator(a: string, sep: char)
    requires sep !in a
    ensures Split(a, sep) == [a]
    decreases |a|
  {
    if |a| > 0 {
      SplitWithoutSeparator(a[1..], sep);
      assert a == [a[0]] + a[1..];
    }
  }

  /** A leading separator-free run followed by a separator comes off as the first piece. */
  lemma {:induction false} SplitAfterPiece(a: string, sep: char, b: string)
    requires sep !in a
    ensures Split(a + [sep] + b, sep) == [a] + Split(b, sep)
    decreases |a|
  {
    var s := a + [sep] + b;
    if |a| == 0 {
      assert s[1..] == b;
    } else {
      assert s[1..] == a[1..] + [sep] + b;
      SplitAfterPiece(a[1..], sep, b);
      assert a == [a[0]] + a[1..];
    }
  }

  /** Joining separator-free pieces then splitting gives the pieces back. */
  lemma {:induction false} JoinSplit(pieces: seq<string>, sep: char)
    requires |pieces| >= 1
    requires forall i :: 0 <= i < |pieces| ==> sep !in pieces[i]
    ensures Split(Join(pieces, sep), sep) == pieces
  {
    if |pieces| == 1 {
      SplitWithoutSeparator(pieces[0], sep);
    } else {
      JoinSplit(pieces[1..], sep);
      SplitAfterPiece(pieces[0], sep, Join(pieces[1..], sep));
      assert pieces == [pieces[0]] + pieces[1..];
    }
  }

  /** Separator-free pieces, joined and followed by a separator, come off first, whatever follows. */
  lemma {:induction false} SplitAfterPieces(pieces: seq<string>, sep: char, rest: string)
    requires |pieces| >= 1
    requires forall i :: 0 <= i < |pieces| ==> sep !in pieces[i]
    ensures Split(Join(pieces, sep) + [sep] + rest, sep) == pieces + Split(rest, sep)
  {
    if |pieces| == 1 {
      SplitAfterPiece(pieces[0], sep, rest);
    } else {
      var s := Join(pieces[1..], sep) + [sep] + rest;
      calc {
        Split(Join(pieces, sep) + [sep] + rest, sep);
        { assert Join(pieces, sep) + [sep] + rest == pieces[0] + [sep] + s; }
        Split(pieces[0] + [sep] + s, sep);
        { SplitAfterPiece(pieces[0], sep, s); }
        [pieces[0]] + Split(s, sep);
        { SplitAfterPieces(pieces[1..], sep, rest); }
        [pieces[0]] + (pieces[1..] + Split(rest, sep));
        { assert pieces == [pieces[0]] + pieces[1..]; }
        pieces + Split(rest, sep);
      }
    }
  }

  /** `s` with every occurrence of `c` dropped, the rest kept in order. */
  function RemoveChar(s: string, c: char): (r: string)
    ensures c !in r
    ensures forall x :: x != c ==> (x in r <==> x in s)
    ensures multiset(r) == multiset(s)[c := 0]
    ensures |r| <= |s|
  {
    if |s| == 0 then ""
    else
      var rest := RemoveChar(s[1..], c);
      assert forall x :: x in s <==> x == s[0] || x in s[1..];
      assert s == [s[0]] + s[1..];
      if s[0] == c then rest else [s[0]] + rest
  }

  /** Removal distributes over concatenation: the characters that stay keep their order. */
  lemma {:induction false} RemoveCharConcat(a: string, b: string, c: char)
    ensures RemoveChar(a + b, c) == RemoveChar(a, c) + RemoveChar(b, c)
  {
    if |a| > 0 {
      assert (a + b)[1..] == a[1..] + b;
      RemoveCharConcat(a[1..], b, c);
    } else {
      assert a + b == b;
    }
  }

  /** Removing a character that does not occur changes nothing. */
  lemma {:induction false} RemoveAbsentChar(s: string, c: char)
    requires c !in s
    ensures RemoveChar(s, c) == s
  {
    if |s| > 0 {
      RemoveAbsentChar(s[1..], c);
      assert s == [s[0]] + s[1..];
    }
  }

  /** Rust's `char::is_whitespace`: the Unicode White_Space property. */
  predicate IsWhitespace(c: char) {
    || '\t' <= c <= '\r'
    || c == ' '
    || c == '\U{85}'
    || c == '\U{A0}'
    || c == '\U{1680}'
    || '\U{2000}' <= c <= '\U{200A}'
    || c == '\U{2028}'
    || c == '\U{2029}'
    || c == '\U{202F}'
    || c == '\U{205F}'
    || c == '\U{3000}'
  }

  /** `trim_start`: the suffix left after dropping leading whitespace. */
  function TrimStart(s: string): (r: string)
    ensures |r| <= |s| && r == s[|s| - |r|..]
    ensures forall i :: 0 <= i < |s| - |r| ==> IsWhitespace(s[i])
    ensures r == [] || !IsWhitespace(r[0])
  {
    if |s| > 0 && IsWhitespace(s[0]) then TrimStart(s[1..]) else s
  }

  /** `trim_end`: the prefix left after dropping trailing whitespace. */
  function TrimEnd(s: string): (r: string)
    ensures |r| <= |s| && r == s[..|r|]
    ensures forall i :: |r| <= i < |s| ==> IsWhitespace(s[i])
    ensures r == [] || !IsWhitespace(r[|r| - 1])
  {
    if |s| > 0 && IsWhitespace(s[|s| - 1]) then TrimEnd(s[..|s| - 1]) else s
  }

  function Trim(s: string): string {
    TrimEnd(TrimStart(s))
  }

  /** A string that neither starts nor ends with whitespace is its own trim. */
  lemma TrimUnpadded(s: string)
    requires s == [] || (!IsWhitespace(s[0]) && !IsWhitespace(s[|s| - 1]))
    ensures Trim(s) == s
  {
    assert TrimStart(s) == s;
  }

  predicate IsDigit(c: char) {
    '0' <= c <= '9'
  }

  predicate AllDigits(s: string) {
    forall i :: 0 <= i < |s| ==> IsDigit(s[i])
  }

  function DigitValue(c: char): nat
    requires IsDigit(c)
  {
    c as int - '0' as int
  }

  /** The number a string of decimal digits denotes, most significant first. */
  function DigitsValue(s: string): nat
    requires AllDigits(s)
  {
    if |s| == 0 then 0 else DigitsValue(s[..|s| - 1]) * 10 + DigitValue(s[|s| - 1])
  }

  /** The decimal numeral of `n`, without sign or leading zeros. */
  function Decimal(n: nat): (r: string)
    ensures |r| >= 1 && AllDigits(r)
  {
    var digit := ['0' + (n % 10) as char];
    if n < 10 then digit else Decimal(n / 10) + digit
  }

  /** The numeral of `n` denotes `n`. */
  lemma {:induction false} DecimalValue(n: nat)
    ensures DigitsValue(Decimal(n)) == n
  {
    if n >= 10 {
      DecimalValue(n / 10);
      var r := Decimal(n);
      assert r[..|r| - 1] == Decimal(n / 10);
    }
  }

  /** The largest `usize` on a 64-bit target. */
  const UsizeMax: nat := 0xFFFF_FFFF_FFFF_FFFF

  const I32Min: int := -0x8000_0000
  const I32Max: int := 0x7FFF_FFFF

  /**
   * `str::parse` for an unsigned integer type whose largest value is `max`: an
   * optional `+` and then at least one decimal digit and nothing else, denoting
   * a value no larger than `max`. None is the parse error.
   */
  function ParseUnsigned(s: string, max: nat): (r: Option<nat>)
    ensures r.Some? ==> r.value <= max
    ensures r.Some? ==> |s| >= 1 && s != "+"
    ensures r.Some? ==> forall i :: (if s[0] == '+' then 1 else 0) <= i < |s| ==> IsDigit(s[i])
    ensures var d := Unsigned(s);
      r.Some? <==> |d| >= 1 && AllDigits(d) && DigitsValue(d) <= max
    ensures r.Some? ==> r.value == DigitsValue(Unsigned(s))
  {
    if |s| == 0 then None
    else
      var digits := Unsigned(s);
      if |digits| == 0 || !AllDigits(digits) then None
      else if DigitsValue(digits) > max then None
      else Some(DigitsValue(digits))
  }

  /** The digits of an unsigned numeral: the text after a leading `+`, if there is one. */
  function Unsigned(s: string): string {
    if |s| >= 1 && s[0] == '+' then s[1..] else s
  }

  /** Whether a numeral starts with `-`. */
  predicate Negative(s: string) {
    |s| >= 1 && s[0] == '-'
  }

  /** The digits of a signed numeral: the text after its sign, if it has one. */
  function Magnitude(s: string): string {
    if Negative(s) then s[1..] else Unsigned(s)
  }

  /** Every value up to `max`, written in decimal, parses back to itself. */
  lemma ParseUnsignedDecimal(n: nat, max: nat)
    requires n <= max
    ensures ParseUnsigned(Decimal(n), max) == Some(n)
  {
    DecimalValue(n);
  }

  /** A value above `max` is an overflow error. */
  lemma ParseUnsignedOverflow(n: nat, max: nat)
    requires n > max
    ensures ParseUnsigned(Decimal(n), max) == None
  {
    DecimalValue(n);
  }

  /**
   * `str::parse::<i32>`: an optional sign and then at least one decimal digit
   * and nothing else, denoting a value in the 32-bit signed range.
   */
  function ParseI32(s: string): (r: Option<int>)
    ensures r.Some? ==> I32Min <= r.value <= I32Max
    ensures r.Some? && r.value < 0 ==> |s| >= 2 && s[0] == '-'
    ensures var d := Magnitude(s);
      r.Some? <==> |d| >= 1 && AllDigits(d) && DigitsValue(d) <= (if Negative(s) then -I32Min else I32Max)
    ensures r.Some? ==> r.value == if Negative(s) then -(DigitsValue(Magnitude(s)) as int) else DigitsValue(Magnitude(s))
  {
    if Negative(s) then
      var digits := s[1..];
      if |digits| == 0 || !AllDigits(digits) then None
      else if DigitsValue(digits) > -I32Min then None
      else
        var magnitude: int := DigitsValue(digits);
        Some(-magnitude)
    else
      match ParseUnsigned(s, I32Max)
      case None => None
      case Some(v) => Some(v)
  }

  /** The numeral of a 32-bit value, with a leading `-` when negative. */
  function I32Text(n: int): string {
    if n < 0 then "-" + Decimal(-n) else Decimal(n)
  }

  /** Every 32-bit value, written out, parses back to itself. */
  lemma ParseI32Text(n: int)
    requires I32Min <= n <= I32Max
    ensures ParseI32(I32Text(n)) == Some(n)
  {
    if n < 0 {
      DecimalValue(-n);
      assert I32Text(n)[1..] == Decimal(-n);
    } else {
      ParseUnsignedDecimal(n, I32Max);
    }
  }
}
