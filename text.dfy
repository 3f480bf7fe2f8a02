/**
 * Plain-text building blocks of the emitted Go files: a file is a sequence
 * of lines each ended by a newline, and a model id is printed in decimal.
 * Each rendering has a reader beside it that takes the text apart again.
 */
module GoText {

  /** No line break inside: one line of an emitted file. */
  predicate OneLine(l: string)
  {
    '\n' !in l
  }

  predicate AllOneLine(ls: seq<string>)
  {
    forall k :: 0 <= k < |ls| ==> OneLine(ls[k])
  }

  lemma AllOneLineAppend(a: seq<string>, b: seq<string>)
    ensures AllOneLine(a + b) <==> AllOneLine(a) && AllOneLine(b)
  {
    if AllOneLine(a) && AllOneLine(b) {
      forall k | 0 <= k < |a + b|
        ensures OneLine((a + b)[k])
      {
        if k >= |a| {
          assert (a + b)[k] == b[k - |a|];
        }
      }
    }
    if AllOneLine(a + b) {
      forall k | 0 <= k < |a|
        ensures OneLine(a[k])
      {
        assert (a + b)[k] == a[k];
      }
      forall k | 0 <= k < |b|
        ensures OneLine(b[k])
      {
        assert (a + b)[|a| + k] == b[k];
      }
    }
  }

  /** The lines, each followed by a newline: what one `WriteString(line + "\n")` per line builds. */
  function Unlines(ls: seq<string>): (s: string)
    ensures |s| >= |ls|
  {
    if |ls| == 0 then [] else ls[0] + "\n" + Unlines(ls[1..])
  }

  lemma {:induction false} UnlinesAppend(a: seq<string>, b: seq<string>)
    ensures Unlines(a + b) == Unlines(a) + Unlines(b)
  {
    if |a| > 0 {
      assert (a + b)[1..] == a[1..] + b;
      UnlinesAppend(a[1..], b);
    } else {
      assert a + b == b;
    }
  }

  lemma UnlinesSnoc(ls: seq<string>, l: string)
    ensures Unlines(ls + [l]) == Unlines(ls) + (l + "\n")
  {
    UnlinesAppend(ls, [l]);
    assert Unlines([l]) == l + "\n" + Unlines([]);
  }

  /** Two lines, each followed by a newline. */
  lemma UnlinesPair(a: string, b: string)
    ensures Unlines([a, b]) == a + "\n" + (b + "\n")
  {
    assert [a, b][1..] == [b];
    assert [b][1..] == [];
    assert Unlines([b]) == b + "\n" + [];
    assert b + "\n" + [] == b + "\n";
  }

  /** The index of the first newline of `s`, or |s| when there is none. */
  function LineEnd(s: string): (i: nat)
    ensures i <= |s|
    ensures forall k :: 0 <= k < i ==> s[k] != '\n'
    ensures i < |s| ==> s[i] == '\n'
  {
    if |s| == 0 || s[0] == '\n' then 0 else 1 + LineEnd(s[1..])
  }

  /** A reader's view of a text file: the lines it holds, a last unterminated line included. */
  function SplitLines(s: string): seq<string>
    decreases |s|
  {
    if |s| == 0 then []
    else
      var i := LineEnd(s);
      if i == |s| then [s] else [s[..i]] + SplitLines(s[i + 1..])
  }

  /** Reading back lines that were written one per line gives exactly those lines. */
  lemma {:induction false} SplitUnlines(ls: seq<string>)
    requires AllOneLine(ls)
    ensures SplitLines(Unlines(ls)) == ls
  {
    if |ls| > 0 {
      var s := Unlines(ls);
      var l := ls[0];
      assert s == l + "\n" + Unlines(ls[1..]);
      assert forall k :: 0 <= k < |l| ==> s[k] == l[k];
      assert s[|l|] == '\n';
      var i := LineEnd(s);
      assert i == |l|;
      assert s[..i] == l;
      assert s[i + 1..] == Unlines(ls[1..]);
      SplitUnlines(ls[1..]);
    }
  }

  // ------------------------------------------------------------ decimal numbers

  predicate IsDigit(c: char)
  {
    '0' <= c <= '9'
  }

  predicate AllDigits(s: string)
  {
    forall k :: 0 <= k < |s| ==> IsDigit(s[k])
  }

  function DigitChar(d: nat): (c: char)
    requires d < 10
    ensures IsDigit(c) && c as int - '0' as int == d
  {
    ('0' as int + d) as char
  }

  /** The base-10 rendering of a natural number, without leading zeros. */
  function Decimal(n: nat): (s: string)
    ensures |s| >= 1 && AllDigits(s)
    ensures s[0] == '0' ==> n == 0
    decreases n
  {
    if n < 10 then [DigitChar(n)] else Decimal(n / 10) + [DigitChar(n % 10)]
  }

  /** The number a string of decimal digits denotes. */
  function ParseDecimal(s: string): nat
    requires AllDigits(s)
  {
    if |s| == 0 then 0 else 10 * ParseDecimal(s[..|s| - 1]) + (s[|s| - 1] as int - '0' as int)
  }

  lemma {:induction false} DecimalRoundTrip(n: nat)
    ensures ParseDecimal(Decimal(n)) == n
    decreases n
  {
    if n >= 10 {
      var s := Decimal(n);
      assert s[..|s| - 1] == Decimal(n / 10);
      DecimalRoundTrip(n / 10);
    }
  }

  /** Where the run of digits that ends `s` begins. */
  function DigitRunStart(s: string): (k: nat)
    ensures k <= |s| && AllDigits(s[k..])
    ensures k > 0 ==> !IsDigit(s[k - 1])
  {
    if |s| == 0 || !IsDigit(s[|s| - 1]) then |s|
    else
      var k := DigitRunStart(s[..|s| - 1]);
      assert s[k..] == s[..|s| - 1][k..] + [s[|s| - 1]];
      k
  }

  /** After a non-digit, the trailing digit run is exactly the digits that were appended. */
  lemma {:induction false} DigitRunAfter(a: string, d: string)
    requires |a| > 0 && !IsDigit(a[|a| - 1]) && AllDigits(d)
    ensures DigitRunStart(a + d) == |a|
    decreases |d|
  {
    if |d| > 0 {
      var s := a + d;
      assert s[..|s| - 1] == a + d[..|d| - 1];
      DigitRunAfter(a, d[..|d| - 1]);
    } else {
      assert a + d == a;
    }
  }

  // ------------------------------------------------------------ blocks of lines

  /** The blocks one after the other. */
  function Concat(bs: seq<seq<string>>): (ls: seq<string>)
  {
    if |bs| == 0 then [] else bs[0] + Concat(bs[1..])
  }

  lemma {:induction false} ConcatSnoc(bs: seq<seq<string>>, b: seq<string>)
    ensures Concat(bs + [b]) == Concat(bs) + b
  {
    if |bs| == 0 {
      assert bs + [b] == [b];
    } else {
      assert (bs + [b])[1..] == bs[1..] + [b];
      ConcatSnoc(bs[1..], b);
    }
  }
}
