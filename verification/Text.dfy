/** Strings as the operator handles them: dash-separated names, rendered lines,
    and the decimal conversions of Go's strconv. */
module Text {

  datatype Option<+T> = None | Some(value: T)

  predicate HasPrefix(s: string, prefix: string)
  {
    |prefix| <= |s| && s[..|prefix|] == prefix
  }

  // ----- Names: the part before the last dash, and the part after it -----

  datatype Cut = Cut(head: string, tail: string)

  function SplitLast(s: string): (r: Option<Cut>)
  {
    if |s| == 0 then None
    else if s[|s| - 1] == '-' then Some(Cut(s[..|s| - 1], ""))
    else
      match SplitLast(s[..|s| - 1])
      case None => None
      case Some(c) => Some(Cut(c.head, c.tail + [s[|s| - 1]]))
  }

  lemma {:induction false} SplitLastJoins(head: string, tail: string)
    requires '-' !in tail
    ensures SplitLast(head + "-" + tail) == Some(Cut(head, tail))
  {
    var s := head + "-" + tail;
    if tail == "" {
      assert s == head + "-";
      assert s[..|s| - 1] == head;
    } else {
      var front := tail[..|tail| - 1];
      assert s[..|s| - 1] == head + "-" + front;
      SplitLastJoins(head, front);
      assert tail == front + [s[|s| - 1]];
      assert s[|s| - 1] == tail[|tail| - 1];
      assert s[|s| - 1] in tail;
    }
  }

  lemma {:induction false} SplitLastSound(s: string)
    ensures SplitLast(s).Some? ==> s == SplitLast(s).value.head + "-" + SplitLast(s).value.tail
  {
    if |s| != 0 && s[|s| - 1] != '-' {
      SplitLastSound(s[..|s| - 1]);
      assert s == s[..|s| - 1] + [s[|s| - 1]];
      if SplitLast(s).Some? {
        var c := SplitLast(s[..|s| - 1]).value;
        assert c.head + "-" + (c.tail + [s[|s| - 1]]) == (c.head + "-" + c.tail) + [s[|s| - 1]];
      }
    }
  }

  // ----- Rendered text: every line is preceded by a newline -----

  predicate OneLine(s: string)
  {
    '\n' !in s
  }

  function Unlines(lines: seq<string>): string
  {
    if lines == [] then "" else "\n" + lines[0] + Unlines(lines[1..])
  }

  /** Length of the first line of `s`. */
  function LineLength(s: string): (n: nat)
    ensures n <= |s|
  {
    if s == "" || s[0] == '\n' then 0 else 1 + LineLength(s[1..])
  }

  /** Reads a line: "\n" + line + rest, where the rest is empty or starts another line. */
  function ReadLine(s: string): (r: Cut)
    ensures s != "" ==> |r.tail| < |s|
    ensures |r.tail| <= |s|
  {
    if s == "" then Cut("", "")
    else
      var n := LineLength(s[1..]);
      Cut(s[1..1 + n], s[1 + n..])
  }

  predicate AtLineStart(s: string)
  {
    s == "" || s[0] == '\n'
  }

  lemma {:induction false} LineLengthIs(line: string, rest: string)
    requires OneLine(line) && AtLineStart(rest)
    ensures LineLength(line + rest) == |line|
  {
    if line == "" {
      assert line + rest == rest;
    } else {
      assert line[0] in line;
      assert (line + rest)[1..] == line[1..] + rest;
      LineLengthIs(line[1..], rest);
    }
  }

  lemma ReadLineReads(line: string, rest: string)
    requires OneLine(line) && AtLineStart(rest)
    ensures ReadLine("\n" + line + rest) == Cut(line, rest)
  {
    var s := "\n" + line + rest;
    assert s[1..] == line + rest;
    LineLengthIs(line, rest);
    assert s[1..1 + |line|] == line;
    assert s[1 + |line|..] == rest;
  }

  lemma {:induction false} LineIsOneLine(s: string)
    ensures OneLine(s[..LineLength(s)])
  {
    if s != "" && s[0] != '\n' {
      LineIsOneLine(s[1..]);
      assert s[..LineLength(s)] == [s[0]] + s[1..][..LineLength(s[1..])];
    }
  }

  lemma ReadLineIsOneLine(s: string)
    ensures OneLine(ReadLine(s).head)
  {
    if s != "" {
      LineIsOneLine(s[1..]);
      assert s[1..1 + LineLength(s[1..])] == s[1..][..LineLength(s[1..])];
    }
  }

  lemma ConcatCancels(a: string, x: string, y: string)
    requires a + x == a + y
    ensures x == y
  {
    assert (a + x)[|a|..] == x;
    assert (a + y)[|a|..] == y;
  }

  // ----- Decimal conversions (strconv.Itoa, strconv.Atoi on a 64-bit int) -----

  const MAX_INT: int := 0x7fff_ffff_ffff_ffff
  const MIN_INT: int := -0x8000_0000_0000_0000

  predicate IsDigit(c: char)
  {
    '0' <= c <= '9'
  }

  function Digit(d: nat): (c: char)
    requires d < 10
    ensures IsDigit(c) && DigitValue(c) == d
  {
    '0' + (d as char)
  }

  function DigitValue(c: char): (d: nat)
    requires IsDigit(c)
    ensures d < 10
  {
    (c as int) - ('0' as int)
  }

  predicate AllDigits(s: string)
  {
    forall i :: 0 <= i < |s| ==> IsDigit(s[i])
  }

  function Decimal(n: nat): (s: string)
    ensures |s| > 0 && AllDigits(s)
  {
    if n < 10 then [Digit(n)] else Decimal(n / 10) + [Digit(n % 10)]
  }

  function DecimalValue(s: string): nat
    requires AllDigits(s)
  {
    if s == "" then 0
    else 10 * DecimalValue(s[..|s| - 1]) + DigitValue(s[|s| - 1])
  }

  function Itoa(n: int): string
  {
    if n < 0 then "-" + Decimal(-n) else Decimal(n)
  }

  /** An optional sign, at least one digit, and a value that fits 64 bits. */
  function Atoi(s: string): Option<int>
  {
    var signed := s != "" && (s[0] == '-' || s[0] == '+');
    var digits := if signed then s[1..] else s;
    if digits == "" || !AllDigits(digits) then None
    else
      var v: int := DecimalValue(digits);
      var n := if signed && s[0] == '-' then 0 - v else v;
      if MIN_INT <= n <= MAX_INT then Some(n) else None
  }

  /** No plus sign, no leading zero, no minus zero. */
  predicate Canonical(s: string)
  {
    var digits := if s != "" && s[0] == '-' then s[1..] else s;
    && digits != "" && AllDigits(digits)
    && (digits[0] == '0' ==> s == "0")
  }

  lemma {:induction false} DecimalRoundTrip(n: nat)
    ensures DecimalValue(Decimal(n)) == n
    ensures Decimal(n)[0] == '0' ==> n == 0
  {
    if n < 10 {
      assert [Digit(n)][..0] == "";
    } else {
      DecimalRoundTrip(n / 10);
      var front := Decimal(n / 10);
      assert Decimal(n)[..|Decimal(n)| - 1] == front;
      assert Decimal(n)[0] == front[0];
    }
  }

  lemma {:induction false} DecimalOfValue(s: string)
    requires s != "" && AllDigits(s)
    requires s[0] == '0' ==> s == "0"
    ensures Decimal(DecimalValue(s)) == s
    ensures s[0] != '0' ==> DecimalValue(s) > 0
  {
    var front, last := s[..|s| - 1], s[|s| - 1];
    assert s == front + [last];
    if front == "" {
      assert DecimalValue(front) == 0;
      DigitOf(last);
    } else {
      assert front[0] == s[0];
      DecimalOfValue(front);
      DigitOf(last);
      var v := DecimalValue(front);
      assert v > 0;
      assert (10 * v + DigitValue(last)) / 10 == v && (10 * v + DigitValue(last)) % 10 == DigitValue(last);
    }
  }

  lemma DigitOf(c: char)
    requires IsDigit(c)
    ensures Digit(DigitValue(c)) == c
    ensures DigitValue(c) == 0 <==> c == '0'
  {
  }

  /** Reading back a printed integer gives the integer. */
  lemma AtoiItoa(n: int)
    requires MIN_INT <= n <= MAX_INT
    ensures Atoi(Itoa(n)) == Some(n)
  {
    if n < 0 {
      DecimalRoundTrip(-n);
      assert Itoa(n)[1..] == Decimal(-n);
    } else {
      DecimalRoundTrip(n);
      assert IsDigit(Itoa(n)[0]);
    }
  }

  lemma CanonicalPrints(s: string)
    requires Atoi(s).Some? && Canonical(s)
    ensures Itoa(Atoi(s).value) == s
  {
    var signed := s[0] == '-' || s[0] == '+';
    var digits := if signed then s[1..] else s;
    if s == "0" {
      assert s[..0] == "";
    } else {
      DecimalOfValue(digits);
      assert s == (if signed then "-" else "") + digits;
    }
  }

  lemma PrintedIsCanonical(n: int)
    ensures Canonical(Itoa(n))
  {
    if n < 0 {
      DecimalRoundTrip(-n);
      assert Itoa(n)[1..] == Decimal(-n);
    } else {
      DecimalRoundTrip(n);
      assert IsDigit(Itoa(n)[0]);
      if Itoa(n)[0] == '0' { assert n == 0 && Itoa(n) == [Digit(0)]; }
    }
  }

  /** Printing a parsed integer gives the text back exactly for the canonical texts. */
  lemma ItoaAtoi(s: string)
    requires Atoi(s).Some?
    ensures Itoa(Atoi(s).value) == s <==> Canonical(s)
  {
    if Canonical(s) { CanonicalPrints(s); }
    PrintedIsCanonical(Atoi(s).value);
  }
}
