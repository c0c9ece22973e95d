/**
 * The three pieces of Python's text handling that the check endpoint relies
 * on: `str.split(sep)` with a one-character separator, `int(text)` on a
 * decimal literal, and `str(n)` for an integer.
 */
module PyText {
  import opened Wrappers

  // ---------------------------------------------------------------------
  // str.split(sep)
  // ---------------------------------------------------------------------

  /** `s.split(sep)`: the pieces of `s` between occurrences of `sep`.
      There is always at least one piece, and no piece contains `sep`. */
  function Split(s: string, sep: char): (parts: seq<string>)
    ensures |parts| >= 1
    ensures forall i :: 0 <= i < |parts| ==> sep !in parts[i]
    decreases |s|
  {
    if |s| == 0 then [""]
    else
      var rest := Split(s[1..], sep);
      if s[0] == sep then [""] + rest
      else [[s[0]] + rest[0]] + rest[1..]
  }

  /** `sep.join(parts)`, the inverse of Split. */
  function Join(parts: seq<string>, sep: char): string
    requires |parts| >= 1
  {
    if |parts| == 1 then parts[0] else parts[0] + [sep] + Join(parts[1..], sep)
  }

  /** Number of occurrences of `c` in `s`. */
  function Count(s: string, c: char): nat
  {
    if |s| == 0 then 0 else (if s[0] == c then 1 else 0) + Count(s[1..], c)
  }

  /** The position of the first `c` in `s`, or `|s|` when there is none. */
  function FirstIndex(s: string, c: char): (k: nat)
    ensures k <= |s|
    ensures forall i :: 0 <= i < k ==> s[i] != c
    ensures k < |s| ==> s[k] == c
  {
    if |s| == 0 then 0 else if s[0] == c then 0 else 1 + FirstIndex(s[1..], c)
  }

  /** `c` does not occur in `s` exactly when its first index is the end. */
  lemma FirstIndexAbsent(s: string, c: char)
    ensures FirstIndex(s, c) == |s| <==> c !in s
  {
    var k := FirstIndex(s, c);
    if k < |s| {
      assert s[k] == c;
    } else {
      assert forall i :: 0 <= i < |s| ==> s[i] != c;
    }
  }

  /** Joining the pieces gives back the original text. */
  lemma {:induction false} SplitJoin(s: string, sep: char)
    ensures Join(Split(s, sep), sep) == s
    decreases |s|
  {
    if |s| > 0 {
      var rest := Split(s[1..], sep);
      SplitJoin(s[1..], sep);
      if s[0] == sep {
        assert Split(s, sep)[1..] == rest;
      } else {
        var parts := Split(s, sep);
        if |rest| == 1 {
          assert parts == [[s[0]] + rest[0]];
        } else {
          assert parts[1..] == rest[1..];
        }
        assert s == [s[0]] + s[1..];
      }
    }
  }

  /** Splitting a join of separator-free pieces gives back the pieces. */
  lemma {:induction false} JoinSplit(parts: seq<string>, sep: char)
    requires |parts| >= 1
    requires forall i :: 0 <= i < |parts| ==> sep !in parts[i]
    ensures Split(Join(parts, sep), sep) == parts
    decreases parts
  {
    if |parts| == 1 {
      SplitNoSep(parts[0], sep);
    } else {
      JoinSplit(parts[1..], sep);
      SplitConcat(parts[0], Join(parts[1..], sep), sep);
      assert parts == [parts[0]] + parts[1..];
    }
  }

  /** A text without the separator is one piece. */
  lemma {:induction false} SplitNoSep(s: string, sep: char)
    requires sep !in s
    ensures Split(s, sep) == [s]
    decreases |s|
  {
    if |s| > 0 {
      SplitNoSep(s[1..], sep);
      assert s == [s[0]] + s[1..];
    }
  }

  /** A separator-free prefix followed by the separator starts a new piece. */
  lemma {:induction false} SplitConcat(a: string, b: string, sep: char)
    requires sep !in a
    ensures Split(a + [sep] + b, sep) == [a] + Split(b, sep)
    decreases |a|
  {
    var s := a + [sep] + b;
    if |a| == 0 {
      assert s[1..] == b;
    } else {
      assert s[1..] == a[1..] + [sep] + b;
      SplitConcat(a[1..], b, sep);
      assert a == [a[0]] + a[1..];
    }
  }

  /** There is one more piece than there are separators. */
  lemma {:induction false} SplitCount(s: string, sep: char)
    ensures |Split(s, sep)| == Count(s, sep) + 1
    decreases |s|
  {
    if |s| > 0 {
      SplitCount(s[1..], sep);
    }
  }

  /** The first piece is the text before the first separator; when there is
      a separator, the remaining pieces are those of the text after it. */
  lemma {:induction false} SplitFirst(s: string, sep: char)
    ensures Split(s, sep)[0] == s[..FirstIndex(s, sep)]
    ensures |Split(s, sep)| > 1 <==> FirstIndex(s, sep) < |s|
    ensures FirstIndex(s, sep) < |s| ==>
              Split(s, sep)[1..] == Split(s[FirstIndex(s, sep) + 1..], sep)
    decreases |s|
  {
    if |s| > 0 && s[0] != sep {
      SplitFirst(s[1..], sep);
      assert s[..FirstIndex(s, sep)] == [s[0]] + s[1..][..FirstIndex(s[1..], sep)];
      if FirstIndex(s, sep) < |s| {
        assert s[FirstIndex(s, sep) + 1..] == s[1..][FirstIndex(s[1..], sep) + 1..];
      }
    }
  }

  // ---------------------------------------------------------------------
  // int(text) and str(n)
  // ---------------------------------------------------------------------

  /** CPython's default limit on the number of decimal digits that `int()`
      reads and `str()` writes (`sys.get_int_max_str_digits()`); beyond it
      both raise ValueError. */
  const MaxStrDigits: nat := 4300

  predicate IsDigit(c: char) { '0' <= c <= '9' }

  predicate AllDigits(d: string) { forall i :: 0 <= i < |d| ==> IsDigit(d[i]) }

  predicate HasSign(s: string) { |s| > 0 && (s[0] == '+' || s[0] == '-') }

  /** The text after an optional leading sign. */
  function Unsigned(s: string): string
  {
    if HasSign(s) then s[1..] else s
  }

  /** A decimal integer literal as `int()` accepts it here: an optional sign
      followed by one to MaxStrDigits ASCII digits. */
  predicate IsIntLiteral(s: string)
  {
    var d := Unsigned(s);
    0 < |d| <= MaxStrDigits && AllDigits(d)
  }

  function DigitValue(c: char): nat
    requires IsDigit(c)
  {
    (c as int) - ('0' as int)
  }

  function DigitChar(n: nat): (c: char)
    requires n < 10
    ensures IsDigit(c) && DigitValue(c) == n
  {
    (('0' as int) + n) as char
  }

  /** The value of a non-empty run of decimal digits (leading zeros allowed),
      or None when `d` is empty or holds anything but a digit. */
  function ParseDigits(d: string): (r: Option<nat>)
    ensures r.Some? <==> |d| > 0 && AllDigits(d)
  {
    if |d| == 0 || !IsDigit(d[|d| - 1]) then None
    else if |d| == 1 then Some(DigitValue(d[0]))
    else match ParseDigits(d[..|d| - 1])
      case None => None
      case Some(v) => Some(10 * v + DigitValue(d[|d| - 1]))
  }

  /** `int(s)`: the integer a literal denotes, or None where Python raises
      ValueError. */
  function ParseInt(s: string): (r: Option<int>)
    ensures r.Some? <==> IsIntLiteral(s)
  {
    var d := Unsigned(s);
    if |d| > MaxStrDigits then None
    else match ParseDigits(d)
      case None => None
      case Some(v) => Some(if HasSign(s) && s[0] == '-' then -(v as int) else v as int)
  }

  /** A leading zero does not change the value of a digit run. */
  lemma {:induction false} LeadingZero(d: string)
    requires |d| > 0
    ensures ParseDigits("0" + d) == ParseDigits(d)
  {
    var z := "0" + d;
    if IsDigit(d[|d| - 1]) {
      assert z[..|z| - 1] == "0" + d[..|d| - 1];
      if |d| > 1 {
        LeadingZero(d[..|d| - 1]);
      }
    }
  }

  /** `int()` ignores a leading zero on a run of digits that stays within
      the digit limit. */
  lemma ParseIntLeadingZero(d: string)
    requires AllDigits(d) && 0 < |d| < MaxStrDigits
    ensures ParseInt("0" + d) == ParseInt(d)
  {
    assert !HasSign(d) by {
      assert IsDigit(d[0]);
    }
    assert Unsigned("0" + d) == "0" + d;
    LeadingZero(d);
  }

  /** A `+` sign does not change the value; a `-` sign negates it, so
      "-0" is 0. */
  lemma ParseIntSign(d: string)
    requires AllDigits(d)
    ensures ParseInt("+" + d) == ParseInt(d)
    ensures ParseInt("-" + d) == (match ParseInt(d)
                                  case None => None
                                  case Some(v) => Some(-v))
  {
    assert ("+" + d)[1..] == d;
    assert ("-" + d)[1..] == d;
    assert !HasSign(d) by {
      if |d| > 0 {
        assert IsDigit(d[0]);
      }
    }
  }

  /** Decimal digits of `n`, without leading zeros. */
  function NatToString(n: nat): (s: string)
    ensures |s| > 0 && AllDigits(s)
    ensures |s| > 1 ==> s[0] != '0'
  {
    if n < 10 then [DigitChar(n)] else NatToString(n / 10) + [DigitChar(n % 10)]
  }

  function Abs(n: int): nat { if n < 0 then -n else n }

  /** The number of decimal digits of `n`, sign not counted. */
  function DigitCount(n: int): nat { |NatToString(Abs(n))| }

  /** The decimal text of `n`: a `-` exactly for negative numbers (never a
      `+`, never "-0"), then digits without leading zeros. */
  function IntToString(n: int): (s: string)
    ensures |s| > 0 && (s[0] == '-' <==> n < 0)
    ensures var d := if n < 0 then s[1..] else s;
      && |d| == DigitCount(n) && AllDigits(d)
      && (|d| > 1 ==> d[0] != '0')
      && (n < 0 ==> d != "0")
  {
    if n < 0 then
      var s := "-" + NatToString(-n);
      assert s[1..] == NatToString(-n);
      s
    else NatToString(n)
  }

  /** `str(n)`, or None where Python raises ValueError for a number of more
      than MaxStrDigits digits. */
  function DecimalText(n: int): (r: Option<string>)
    ensures r.Some? <==> DigitCount(n) <= MaxStrDigits
    ensures r.Some? ==> r.value == IntToString(n)
    ensures r.Some? ==> ParseInt(r.value) == Some(n)
  {
    if DigitCount(n) > MaxStrDigits then None
    else
      ParseIntToString(n);
      Some(IntToString(n))
  }

  lemma {:induction false} ParseNatToString(n: nat)
    ensures ParseDigits(NatToString(n)) == Some(n)
  {
    if n >= 10 {
      ParseNatToString(n / 10);
      var s := NatToString(n);
      assert s[..|s| - 1] == NatToString(n / 10);
    }
  }

  /** `int(str(n)) == n` for every integer, negative or not, within the
      digit limit. */
  lemma ParseIntToString(n: int)
    requires DigitCount(n) <= MaxStrDigits
    ensures ParseInt(IntToString(n)) == Some(n)
  {
    var s := IntToString(n);
    if n < 0 {
      var d := NatToString(-n);
      ParseNatToString(-n);
      assert s == "-" + d;
      assert Unsigned(s) == d;
    } else {
      ParseNatToString(n);
      assert s == NatToString(n);
      assert IsDigit(s[0]);
      assert Unsigned(s) == s;
    }
  }
}
