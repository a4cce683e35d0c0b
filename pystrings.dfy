/** The Python string built-ins the engine relies on: `str.split`, `str.split(sep, 1)`,
    `str.lower`, `str(int)` and `int(str)`. */
module PyStrings {
  import opened Outcomes

  /** `s.split(sep)`: every occurrence of `sep` cuts, empty pieces are kept. */
  function Split(s: string, sep: char): (parts: seq<string>)
    ensures |parts| >= 1
    decreases |s|
  {
    if s == [] then [""]
    else
      var rest := Split(s[1..], sep);
      if s[0] == sep then [""] + rest
      else [[s[0]] + rest[0]] + rest[1..]
  }

  /** `sep.join(parts)`. */
  function Join(parts: seq<string>, sep: char): string
    decreases |parts|
  {
    if parts == [] then ""
    else if |parts| == 1 then parts[0]
    else parts[0] + [sep] + Join(parts[1..], sep)
  }

  /** Joining the pieces of a split gives the string back, and no piece holds the separator. */
  lemma {:induction false} JoinSplit(s: string, sep: char)
    ensures Join(Split(s, sep), sep) == s
    ensures forall i :: 0 <= i < |Split(s, sep)| ==> sep !in Split(s, sep)[i]
    decreases |s|
  {
    if s != [] {
      JoinSplit(s[1..], sep);
      var rest := Split(s[1..], sep);
      if s[0] == sep {
        assert Split(s, sep) == [""] + rest;
        assert ([""] + rest)[1..] == rest;
      } else {
        var parts := Split(s, sep);
        assert parts == [[s[0]] + rest[0]] + rest[1..];
        if |rest| == 1 {
          assert s == [s[0]] + s[1..];
        } else {
          assert parts[1..] == rest[1..];
          assert Join(rest, sep) == rest[0] + [sep] + Join(rest[1..], sep);
          assert s == [s[0]] + s[1..];
        }
        forall i | 0 <= i < |parts| ensures sep !in parts[i] {
          if i > 0 {
            assert parts[i] == rest[i];
          }
        }
      }
    }
  }

  /** Splitting a string that starts with a separator-free piece `p` yields `p` glued to the
      first piece of the rest. */
  lemma {:induction false} SplitAfterPiece(p: string, t: string, sep: char)
    requires sep !in p
    ensures Split(p + t, sep) == [p + Split(t, sep)[0]] + Split(t, sep)[1..]
    decreases |p|
  {
    if p != [] {
      assert (p + t)[1..] == p[1..] + t;
      SplitAfterPiece(p[1..], t, sep);
      assert [p[0]] + (p[1..] + Split(t, sep)[0]) == p + Split(t, sep)[0];
    } else {
      var parts := Split(t, sep);
      assert p + t == t && p + parts[0] == parts[0];
      assert parts == [parts[0]] + parts[1..];
    }
  }

  /** Splitting what `Join` produced from separator-free pieces gives the pieces back. */
  lemma {:induction false} SplitJoin(parts: seq<string>, sep: char)
    requires |parts| >= 1
    requires forall i :: 0 <= i < |parts| ==> sep !in parts[i]
    ensures Split(Join(parts, sep), sep) == parts
    decreases |parts|
  {
    if |parts| == 1 {
      SplitAfterPiece(parts[0], [], sep);
      assert parts[0] + [] == parts[0];
    } else {
      var j := Join(parts[1..], sep);
      SplitJoin(parts[1..], sep);
      assert Join(parts, sep) == parts[0] + ([sep] + j);
      SplitAfterPiece(parts[0], [sep] + j, sep);
      assert ([sep] + j)[1..] == j;
      assert Split([sep] + j, sep) == [""] + parts[1..];
      assert parts[0] + "" == parts[0];
    }
  }

  /** A string without the separator splits into itself alone. */
  lemma SplitNoSeparator(s: string, sep: char)
    requires sep !in s
    ensures Split(s, sep) == [s]
  {
    SplitAfterPiece(s, [], sep);
    assert s + [] == s && s + "" == s;
  }

  /** Splitting cuts at the first separator: the piece before it comes first. */
  lemma SplitAtFirst(a: string, b: string, sep: char)
    requires sep !in a
    ensures Split(a + [sep] + b, sep) == [a] + Split(b, sep)
  {
    assert a + [sep] + b == a + ([sep] + b);
    SplitAfterPiece(a, [sep] + b, sep);
    assert ([sep] + b)[1..] == b;
    assert a + "" == a;
  }

  /** Index of the first `c` in `s`, or `|s|` when there is none. */
  function IndexOf(s: string, c: char): (i: nat)
    ensures i <= |s|
    ensures i < |s| ==> s[i] == c
    ensures c !in s[..i]
  {
    if s == [] then 0
    else if s[0] == c then 0
    else
      var i := 1 + IndexOf(s[1..], c);
      assert s[..i] == [s[0]] + s[1..][..i - 1];
      i
  }

  /** `s.split(sep, 1)`: one cut at the first separator, or the whole string when there is none. */
  function SplitOnce(s: string, sep: char): (parts: seq<string>)
    ensures 1 <= |parts| <= 2
    ensures sep !in parts[0]
    ensures |parts| == 1 <==> sep !in s
    ensures |parts| == 1 ==> parts[0] == s
    ensures |parts| == 2 ==> parts[0] + [sep] + parts[1] == s
  {
    var i := IndexOf(s, sep);
    if i == |s| then
      assert s[..i] == s;
      [s]
    else
      assert s == s[..i] + [sep] + s[i + 1..];
      [s[..i], s[i + 1..]]
  }

  /** The part before the first cut of `split(sep, 1)` is the first piece of `split(sep)`. */
  lemma {:induction false} SplitOnceHead(s: string, sep: char)
    ensures SplitOnce(s, sep)[0] == Split(s, sep)[0]
  {
    var parts := SplitOnce(s, sep);
    if |parts| == 1 {
      SplitAfterPiece(s, [], sep);
      assert s + [] == s;
    } else {
      assert s == parts[0] + ([sep] + parts[1]);
      SplitAfterPiece(parts[0], [sep] + parts[1], sep);
      assert ([sep] + parts[1])[1..] == parts[1];
      assert parts[0] + "" == parts[0];
    }
  }

  /** ASCII case folding of `str.lower()`. */
  function LowerChar(c: char): char {
    if 'A' <= c <= 'Z' then (c as int + 32) as char else c
  }

  predicate NoCapitals(s: string) {
    forall i :: 0 <= i < |s| ==> !('A' <= s[i] <= 'Z')
  }

  /** `s.lower()` on ASCII letters: no capital is left, and a string without capitals is
      returned as it is, so lowering twice is lowering once. */
  function Lower(s: string): (r: string)
    ensures |r| == |s|
    ensures forall i :: 0 <= i < |s| ==> r[i] == LowerChar(s[i])
    ensures NoCapitals(r)
    ensures NoCapitals(s) ==> r == s
  {
    seq(|s|, i requires 0 <= i < |s| => LowerChar(s[i]))
  }

  predicate IsDigit(c: char) {
    '0' <= c <= '9'
  }

  function DigitChar(d: nat): (c: char)
    requires d < 10
    ensures IsDigit(c)
  {
    ('0' as int + d) as char
  }

  function DigitValue(c: char): (d: nat)
    requires IsDigit(c)
    ensures d < 10
  {
    c as int - '0' as int
  }

  /** Decimal digits of a natural number, most significant first, without leading zeros. */
  function NatToDecimal(n: nat): (s: string)
    ensures |s| >= 1
    ensures forall i :: 0 <= i < |s| ==> IsDigit(s[i])
  {
    if n < 10 then [DigitChar(n)]
    else NatToDecimal(n / 10) + [DigitChar(n % 10)]
  }

  /** `str(n)` for a Python int. */
  function IntToDecimal(n: int): string {
    if n < 0 then "-" + NatToDecimal(-n) else NatToDecimal(n)
  }

  predicate AllDigits(s: string) {
    forall i :: 0 <= i < |s| ==> IsDigit(s[i])
  }

  /** The number a string of decimal digits denotes. */
  function DigitsValue(s: string): nat
    requires AllDigits(s)
    decreases |s|
  {
    if s == [] then 0
    else DigitsValue(s[..|s| - 1]) * 10 + DigitValue(s[|s| - 1])
  }

  /** Reading back the digits of `n` gives `n`. */
  lemma {:induction false} DecimalDigitsRoundTrip(n: nat)
    ensures DigitsValue(NatToDecimal(n)) == n
  {
    if n >= 10 {
      DecimalDigitsRoundTrip(n / 10);
      var s := NatToDecimal(n);
      assert s[..|s| - 1] == NatToDecimal(n / 10);
    }
  }

  /** The whitespace `int()` strips (the ASCII part of Python's definition). */
  predicate IsSpace(c: char) {
    c == ' ' || 9 <= c as int <= 13 || 28 <= c as int <= 31
  }

  function StripLeft(s: string): (r: string)
    ensures |r| <= |s|
  {
    if s != [] && IsSpace(s[0]) then StripLeft(s[1..]) else s
  }

  function StripRight(s: string): (r: string)
    ensures |r| <= |s|
  {
    if s != [] && IsSpace(s[|s| - 1]) then StripRight(s[..|s| - 1]) else s
  }

  function Strip(s: string): string {
    StripRight(StripLeft(s))
  }

  /** A run of digits in which single underscores may separate digits, as `int()` accepts. */
  predicate ValidDigitRun(s: string) {
    && |s| >= 1
    && IsDigit(s[0])
    && IsDigit(s[|s| - 1])
    && (forall i :: 0 <= i < |s| ==> IsDigit(s[i]) || s[i] == '_')
    && (forall i :: 0 <= i < |s| - 1 ==> !(s[i] == '_' && s[i + 1] == '_'))
  }

  function DropUnderscores(s: string): (r: string)
    requires forall i :: 0 <= i < |s| ==> IsDigit(s[i]) || s[i] == '_'
    ensures AllDigits(r)
  {
    if s == [] then []
    else if s[0] == '_' then DropUnderscores(s[1..])
    else [s[0]] + DropUnderscores(s[1..])
  }

  /** `int(s)` for a string: surrounding whitespace, an optional sign, then decimal digits
      optionally grouped by underscores; anything else raises ValueError. */
  function ParseInt(s: string): Result<int> {
    var t := Strip(s);
    var negative := |t| > 0 && t[0] == '-';
    var body := if |t| > 0 && (t[0] == '-' || t[0] == '+') then t[1..] else t;
    if ValidDigitRun(body) then
      var v: int := DigitsValue(DropUnderscores(body));
      Ok(if negative then -v else v)
    else Err(IntParseError(s))
  }

  /** `int(str(n)) == n`: an integer written out in decimal reads back as itself. */
  lemma IntRoundTrip(n: int)
    ensures ParseInt(IntToDecimal(n)) == Ok(n)
  {
    var m: nat := if n < 0 then -n else n;
    DecimalIsStripped(n);
    NoUnderscores(NatToDecimal(m));
    DecimalDigitsRoundTrip(m);
    ParseSignedDigits(IntToDecimal(n), n < 0, NatToDecimal(m));
  }

  /** `str(50)` is `"50"`. */
  lemma DecimalFifty()
    ensures IntToDecimal(50) == "50"
  {
    assert NatToDecimal(50) == NatToDecimal(5) + [DigitChar(0)];
  }

  /** `str(n)` has no surrounding whitespace, and is a minus sign exactly for a negative `n`
      followed by the digits of its magnitude. */
  lemma DecimalIsStripped(n: int)
    ensures Strip(IntToDecimal(n)) == IntToDecimal(n)
    ensures var s := IntToDecimal(n);
            |s| > 0 && (s[0] == '-' <==> n < 0) && (if n < 0 then s[1..] else s) == NatToDecimal(if n < 0 then -n else n)
  {
    var s := IntToDecimal(n);
    var digits := NatToDecimal(if n < 0 then -n else n);
    if n < 0 {
      assert s == "-" + digits && s[1..] == digits;
    }
    assert IsDigit(s[|s| - 1]) && (IsDigit(s[0]) || s[0] == '-');
    assert StripLeft(s) == s;
    assert StripRight(s) == s;
  }

  /** `int()` of a stripped, optionally negated run of plain digits. */
  lemma ParseSignedDigits(s: string, negative: bool, digits: string)
    requires Strip(s) == s && |s| > 0 && (s[0] == '-' <==> negative)
    requires (if negative then s[1..] else s) == digits
    requires AllDigits(digits) && |digits| >= 1 && DropUnderscores(digits) == digits
    ensures ParseInt(s) == Ok(if negative then -(DigitsValue(digits) as int) else DigitsValue(digits) as int)
  {
    assert ValidDigitRun(digits);
  }

  lemma {:induction false} NoUnderscores(s: string)
    requires AllDigits(s)
    ensures DropUnderscores(s) == s
  {
    if s != [] {
      NoUnderscores(s[1..]);
    }
  }
}
