/** The string helpers the core relies on: prefix stripping (Go's strings.TrimPrefix),
    decimal rendering of integers (the %d verb and the time layout's zero-padded fields),
    and the splitting of newline-terminated text back into its lines. */
module Strings {

  predicate HasPrefix(s: string, p: string) {
    |p| <= |s| && s[..|p|] == p
  }

  /** Removes a leading `p` when `s` starts with it; otherwise `s` is returned unchanged. */
  function TrimPrefix(s: string, p: string): (r: string)
    ensures HasPrefix(s, p) ==> p + r == s
    ensures !HasPrefix(s, p) ==> r == s
  {
    if HasPrefix(s, p) then s[|p|..] else s
  }

  /** `sub` occurs somewhere inside `s`. */
  predicate Contains(s: string, sub: string) {
    exists i | 0 <= i <= |s| :: OccursAt(s, sub, i)
  }

  /** `sub` occurs in `s` starting at index `i`. */
  predicate OccursAt(s: string, sub: string, i: int) {
    0 <= i && i + |sub| <= |s| && s[i..i + |sub|] == sub
  }

  lemma ContainsPieces(a: string, b: string, c: string)
    ensures Contains(a + b + c, b)
  {
    var s := a + b + c;
    assert s[|a|..|a| + |b|] == b;
    assert OccursAt(s, b, |a|);
  }

  // ---------------------------------------------------------------------------
  // Decimal digits

  predicate IsDigit(c: char) {
    '0' <= c <= '9'
  }

  predicate AllDigits(s: string) {
    forall i :: 0 <= i < |s| ==> IsDigit(s[i])
  }

  function DigitChar(d: nat): (c: char)
    requires d < 10
    ensures IsDigit(c) && DigitValue(c) == d
  {
    (('0' as int) + d) as char
  }

  function DigitValue(c: char): nat
    requires IsDigit(c)
  {
    (c as int) - ('0' as int)
  }

  function Pow10(k: nat): (p: nat)
    ensures p >= 1
  {
    if k == 0 then 1 else 10 * Pow10(k - 1)
  }

  /** The shortest decimal rendering of `n` (no leading zeros; "0" for zero). */
  function Digits(n: nat): (s: string)
    ensures 1 <= |s|
    decreases n
  {
    if n < 10 then [DigitChar(n)] else Digits(n / 10) + [DigitChar(n % 10)]
  }

  /** The value of a string of decimal digits, most significant first. */
  function ParseDigits(s: string): nat
    requires AllDigits(s)
    decreases |s|
  {
    if s == [] then 0 else ParseDigits(s[..|s| - 1]) * 10 + DigitValue(s[|s| - 1])
  }

  /** A decimal rendering consists of digits, and reading it back gives the number that
      was rendered. */
  lemma {:induction false} ParseDigitsOfDigits(n: nat)
    ensures AllDigits(Digits(n))
    ensures ParseDigits(Digits(n)) == n
    decreases n
  {
    if n >= 10 {
      var s := Digits(n);
      ParseDigitsOfDigits(n / 10);
      assert s == Digits(n / 10) + [DigitChar(n % 10)];
      assert AllDigits(s) by {
        forall i | 0 <= i < |s| ensures IsDigit(s[i]) {
          if i < |s| - 1 { assert s[i] == Digits(n / 10)[i]; }
        }
      }
      assert s[..|s| - 1] == Digits(n / 10);
    }
  }

  /** A number below 10^w needs at most w digits (w >= 1). */
  lemma {:induction false} DigitsLength(n: nat, w: nat)
    requires 1 <= w && n < Pow10(w)
    ensures |Digits(n)| <= w
    decreases n
  {
    if n >= 10 {
      assert Pow10(1) == 10;
      DigitsLength(n / 10, w - 1);
    }
  }

  /** The value of a concatenation of digit strings: the left part is shifted by the
      length of the right one. */
  lemma {:induction false} ParseDigitsConcat(a: string, b: string)
    requires AllDigits(a) && AllDigits(b)
    ensures AllDigits(a + b)
    ensures ParseDigits(a + b) == ParseDigits(a) * Pow10(|b|) + ParseDigits(b)
    decreases |b|
  {
    assert AllDigits(a + b) by {
      forall i | 0 <= i < |a + b| ensures IsDigit((a + b)[i]) {
        if i < |a| { assert (a + b)[i] == a[i]; } else { assert (a + b)[i] == b[i - |a|]; }
      }
    }
    if b == [] {
      assert a + b == a;
    } else {
      var b' := b[..|b| - 1];
      assert (a + b)[..|a + b| - 1] == a + b';
      assert AllDigits(b');
      ParseDigitsConcat(a, b');
      var d := DigitValue(b[|b| - 1]);
      assert ParseDigits(a + b) == ParseDigits(a + b') * 10 + d;
      assert ParseDigits(b) == ParseDigits(b') * 10 + d;
      ShiftDigit(ParseDigits(a), Pow10(|b'|), ParseDigits(b'), d);
    }
  }

  lemma ShiftDigit(x: nat, p: nat, y: nat, d: nat)
    ensures (x * p + y) * 10 + d == x * (10 * p) + (y * 10 + d)
  {
  }

  function Zeros(k: nat): (s: string)
    ensures |s| == k
  {
    if k == 0 then "" else Zeros(k - 1) + "0"
  }

  /** A run of zeros consists of digits and reads as zero. */
  lemma {:induction false} ParseZeros(k: nat)
    ensures AllDigits(Zeros(k))
    ensures ParseDigits(Zeros(k)) == 0
  {
    if k > 0 {
      assert Zeros(k)[..k - 1] == Zeros(k - 1);
      ParseZeros(k - 1);
    }
  }

  /** `s` left-padded with '0' to at least `width` characters. */
  function PadLeft(s: string, width: nat): string {
    if |s| >= width then s else Zeros(width - |s|) + s
  }

  /** Decimal rendering of `x` in at least `width` digits with a leading '-' for negative
      values: the rule Go's time package applies to every numeric field of a layout. */
  function AppendInt(x: int, width: nat): string {
    if x < 0 then "-" + PadLeft(Digits(-x), width) else PadLeft(Digits(x), width)
  }

  /** Leading zeros change neither the digit property nor the value. */
  lemma ZerosPrefix(k: nat, s: string)
    requires AllDigits(s)
    ensures AllDigits(Zeros(k) + s)
    ensures ParseDigits(Zeros(k) + s) == ParseDigits(s)
  {
    ParseZeros(k);
    ParseDigitsConcat(Zeros(k), s);
  }

  /** Padding a digit string keeps it a digit string of the same value, at least `width` long. */
  lemma PadLeftValue(s: string, width: nat)
    requires AllDigits(s)
    ensures |PadLeft(s, width)| == if |s| >= width then |s| else width
    ensures AllDigits(PadLeft(s, width))
    ensures ParseDigits(PadLeft(s, width)) == ParseDigits(s)
  {
    if |s| < width {
      ZerosPrefix(width - |s|, s);
    }
  }

  /** A value that fits in `width` digits renders as exactly `width` digits that read back
      as the value. */
  lemma FixedWidth(x: int, width: nat)
    requires 1 <= width && 0 <= x < Pow10(width)
    ensures |AppendInt(x, width)| == width
    ensures AllDigits(AppendInt(x, width))
    ensures ParseDigits(AppendInt(x, width)) == x
  {
    DigitsLength(x, width);
    ParseDigitsOfDigits(x);
    PadLeftValue(Digits(x), width);
    assert AppendInt(x, width) == PadLeft(Digits(x), width);
  }

  /** A one-digit value in a two-digit field gets one leading zero. */
  lemma OneDigitField(d: nat)
    requires d < 10
    ensures AppendInt(d, 2) == "0" + [DigitChar(d)]
  {
    assert Zeros(1) == "0";
  }

  /** The signed decimal rendering used by %d and by protobuf for unknown enum numbers. */
  function IntToString(x: int): string {
    AppendInt(x, 0)
  }

  /** Inverse of IntToString on its image: an optional '-' followed by digits. */
  function ParseInt(s: string): (r: int)
    requires s != [] && (s[0] == '-' ==> |s| > 1 && AllDigits(s[1..])) && (s[0] != '-' ==> AllDigits(s))
  {
    if s[0] == '-' then 0 - ParseDigits(s[1..]) else ParseDigits(s)
  }

  lemma IntToStringRoundTrip(x: int)
    ensures var s := IntToString(x);
      s != [] && (s[0] == '-' <==> x < 0) &&
      (s[0] == '-' ==> |s| > 1 && AllDigits(s[1..])) &&
      (s[0] != '-' ==> AllDigits(s) && IsDigit(s[0])) &&
      ParseInt(s) == x
  {
    var s := IntToString(x);
    if x < 0 {
      ParseDigitsOfDigits(-x);
      assert s[1..] == Digits(-x);
    } else {
      ParseDigitsOfDigits(x);
      assert s == Digits(x);
    }
  }

  // ---------------------------------------------------------------------------
  // Newline-terminated text

  /** Concatenation of a sequence of strings. */
  function Concat(ss: seq<string>): string {
    if ss == [] then "" else ss[0] + Concat(ss[1..])
  }

  /** Index of the first '\n' in `s`, or |s| when there is none. */
  function LineEnd(s: string): (k: nat)
    ensures k <= |s|
    ensures forall j :: 0 <= j < k ==> s[j] != '\n'
    ensures k < |s| ==> s[k] == '\n'
  {
    if s == [] || s[0] == '\n' then 0 else 1 + LineEnd(s[1..])
  }

  /** Splits text into its lines; the '\n' ending each line is dropped, and a final
      newline does not produce an empty trailing line. */
  function Lines(s: string): seq<string>
    decreases |s|
  {
    if s == [] then []
    else
      var k := LineEnd(s);
      if k == |s| then [s] else [s[..k]] + Lines(s[k + 1..])
  }

  lemma LinesCons(line: string, rest: string)
    requires '\n' !in line
    ensures Lines(line + "\n" + rest) == [line] + Lines(rest)
  {
    var s := line + "\n" + rest;
    var k := LineEnd(s);
    assert s[|line|] == '\n';
    assert k == |line|;
    assert s[..k] == line;
    assert s[k + 1..] == rest;
  }

  /** Writing each line followed by '\n' and splitting the text gives back the lines,
      provided no line contains a newline itself. */
  lemma {:induction false} LinesOfTerminated(lines: seq<string>)
    requires forall i :: 0 <= i < |lines| ==> '\n' !in lines[i]
    ensures Lines(Concat(seq(|lines|, i requires 0 <= i < |lines| => lines[i] + "\n"))) == lines
  {
    var terminated := seq(|lines|, i requires 0 <= i < |lines| => lines[i] + "\n");
    if lines != [] {
      var tail := seq(|lines| - 1, i requires 0 <= i < |lines| - 1 => lines[1..][i] + "\n");
      assert terminated[1..] == tail;
      LinesOfTerminated(lines[1..]);
      assert Concat(terminated) == lines[0] + "\n" + Concat(tail);
      LinesCons(lines[0], Concat(tail));
      assert lines == [lines[0]] + lines[1..];
    }
  }
}
