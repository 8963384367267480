/** Text helpers the push client needs: the decimal rendering JavaScript's
    template literals give a status code, and the '/'-separated segments of a
    URL, with their inverses. */
module Strings {

  predicate IsDigit(c: char) {
    '0' <= c <= '9'
  }

  function Digit(d: nat): (c: char)
    requires d < 10
    ensures IsDigit(c) && c as int - '0' as int == d
  {
    ('0' as int + d) as char
  }

  /** How `${n}` renders a non-negative integer: its decimal digits, no leading zeros. */
  function DecimalText(n: nat): (r: string)
    ensures |r| >= 1
    ensures forall i :: 0 <= i < |r| ==> IsDigit(r[i])
    ensures |r| > 1 ==> r[0] != '0'
    decreases n
  {
    if n < 10 then [Digit(n)] else DecimalText(n / 10) + [Digit(n % 10)]
  }

  /** The number a string of decimal digits denotes. */
  function DecimalValue(s: string): nat
    requires forall i :: 0 <= i < |s| ==> IsDigit(s[i])
    decreases |s|
  {
    if s == [] then 0
    else
      assert IsDigit(s[|s| - 1]);
      DecimalValue(s[..|s| - 1]) * 10 + (s[|s| - 1] as int - '0' as int)
  }

  /** The rendering of a status code can be read back: it loses nothing. */
  lemma {:induction false} DecimalRoundTrip(n: nat)
    ensures DecimalValue(DecimalText(n)) == n
    decreases n
  {
    if n >= 10 {
      var t := DecimalText(n);
      assert t[..|t| - 1] == DecimalText(n / 10);
      DecimalRoundTrip(n / 10);
    }
  }

  /** Rendering is injective, so distinct status codes give distinct texts. */
  lemma DecimalTextInjective(m: nat, n: nat)
    requires DecimalText(m) == DecimalText(n)
    ensures m == n
  {
    DecimalRoundTrip(m);
    DecimalRoundTrip(n);
  }

  /** The length of the run of digits that `s` starts with. */
  function LeadingDigits(s: string): (n: nat)
    ensures n <= |s|
    decreases |s|
  {
    if s == [] || !IsDigit(s[0]) then 0 else 1 + LeadingDigits(s[1..])
  }

  lemma {:induction false} LeadingDigitsOfNumber(t: string, u: string)
    requires forall i :: 0 <= i < |t| ==> IsDigit(t[i])
    requires u != [] && !IsDigit(u[0])
    ensures LeadingDigits(t + u) == |t|
    decreases |t|
  {
    if t != [] {
      assert (t + u)[1..] == t[1..] + u;
      LeadingDigitsOfNumber(t[1..], u);
    }
  }

  /** The pieces of `s` between occurrences of `sep`, as String.prototype.split does. */
  function Split(s: string, sep: char): (r: seq<string>)
    ensures |r| >= 1
    ensures forall k :: 0 <= k < |r| ==> sep !in r[k]
    decreases |s|
  {
    if s == [] then [""]
    else if s[0] == sep then [""] + Split(s[1..], sep)
    else
      var rest := Split(s[1..], sep);
      [[s[0]] + rest[0]] + rest[1..]
  }

  lemma {:induction false} SplitNoSeparator(s: string, sep: char)
    requires sep !in s
    ensures Split(s, sep) == [s]
    decreases |s|
  {
    if s != [] {
      assert s[0] != sep && sep !in s[1..];
      SplitNoSeparator(s[1..], sep);
      assert [s[0]] + s[1..] == s;
    }
  }

  lemma {:induction false} SplitAfterPiece(p: string, t: string, sep: char)
    requires sep !in p
    ensures Split(p + [sep] + t, sep) == [p] + Split(t, sep)
    decreases |p|
  {
    if p == [] {
      assert p + [sep] + t == [sep] + t;
      assert ([sep] + t)[1..] == t;
    } else {
      var s := p + [sep] + t;
      assert s[0] == p[0];
      assert s[1..] == p[1..] + [sep] + t;
      SplitAfterPiece(p[1..], t, sep);
      assert [p[0]] + p[1..] == p;
    }
  }

  /** Nine pieces without separators, joined, split back into themselves. */
  lemma SplitNine(a0: string, a1: string, a2: string, a3: string, a4: string,
                  a5: string, a6: string, a7: string, a8: string)
    requires '/' !in a0 && '/' !in a1 && '/' !in a2 && '/' !in a3 && '/' !in a4
    requires '/' !in a5 && '/' !in a6 && '/' !in a7 && '/' !in a8
    ensures Split(a0 + "/" + (a1 + "/" + (a2 + "/" + (a3 + "/" + (a4 + "/" +
      (a5 + "/" + (a6 + "/" + (a7 + "/" + a8))))))), '/') == [a0, a1, a2, a3, a4, a5, a6, a7, a8]
  {
    var t7 := a7 + "/" + a8;
    var t6 := a6 + "/" + t7;
    var t5 := a5 + "/" + t6;
    var t4 := a4 + "/" + t5;
    var t3 := a3 + "/" + t4;
    var t2 := a2 + "/" + t3;
    var t1 := a1 + "/" + t2;
    SplitNoSeparator(a8, '/');
    SplitAfterPiece(a7, a8, '/');
    SplitAfterPiece(a6, t7, '/');
    SplitAfterPiece(a5, t6, '/');
    SplitAfterPiece(a4, t5, '/');
    SplitAfterPiece(a3, t4, '/');
    SplitAfterPiece(a2, t3, '/');
    SplitAfterPiece(a1, t2, '/');
    SplitAfterPiece(a0, t1, '/');
  }
}
