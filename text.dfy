/** String building blocks the views use: `Array.prototype.join`, splitting a
    text at a separator character, the decimal form `${n}` of an integer count,
    and the capitalisation of a word. */
module Text {

  /** `parts.join(sep)`: the empty list gives "", otherwise the parts with
      `sep` between each neighbouring pair. */
  function Join(parts: seq<string>, sep: string): string {
    if |parts| == 0 then ""
    else if |parts| == 1 then parts[0]
    else parts[0] + sep + Join(parts[1..], sep)
  }

  /** `s.split(c)` for a one-character separator: always at least one piece,
      and no piece contains `c`. */
  function Split(s: string, c: char): (pieces: seq<string>)
    ensures |pieces| >= 1
    ensures forall i :: 0 <= i < |pieces| ==> c !in pieces[i]
  {
    if |s| == 0 then [""]
    else if s[0] == c then [""] + Split(s[1..], c)
    else
      var rest := Split(s[1..], c);
      [[s[0]] + rest[0]] + rest[1..]
  }

  /** Splitting a text that starts with a separator-free piece `a` followed by
      the separator gives `a` first, then the pieces of the remainder. */
  lemma {:induction false} SplitAfterPiece(a: string, c: char, b: string)
    requires c !in a
    ensures Split(a + [c] + b, c) == [a] + Split(b, c)
  {
    if |a| == 0 {
      assert a + [c] + b == [c] + b;
      assert ([c] + b)[1..] == b;
    } else {
      SplitAfterPiece(a[1..], c, b);
      assert (a + [c] + b)[1..] == a[1..] + [c] + b;
      assert [a[0]] + a[1..] == a;
    }
  }

  /** A separator-free text is a single piece. */
  lemma {:induction false} SplitWithoutSeparator(a: string, c: char)
    requires c !in a
    ensures Split(a, c) == [a]
  {
    if |a| > 0 {
      SplitWithoutSeparator(a[1..], c);
      assert [a[0]] + a[1..] == a;
    }
  }

  /** Joining lines with a one-character separator that none of them contains
      can be undone: splitting at that character gives back the very lines. */
  lemma {:induction false} SplitJoin(lines: seq<string>, c: char)
    requires |lines| >= 1
    requires forall i :: 0 <= i < |lines| ==> c !in lines[i]
    ensures Split(Join(lines, [c]), c) == lines
  {
    if |lines| == 1 {
      SplitWithoutSeparator(lines[0], c);
    } else {
      SplitJoin(lines[1..], c);
      SplitAfterPiece(lines[0], c, Join(lines[1..], [c]));
      assert [lines[0]] + lines[1..] == lines;
    }
  }

  /** Joining two non-empty lists is joining each and putting the separator
      between the results. */
  lemma {:induction false} JoinAppend(a: seq<string>, b: seq<string>, sep: string)
    requires |a| >= 1 && |b| >= 1
    ensures Join(a + b, sep) == Join(a, sep) + sep + Join(b, sep)
  {
    if |a| == 1 {
      assert (a + b)[1..] == b;
    } else {
      JoinAppend(a[1..], b, sep);
      assert (a + b)[1..] == a[1..] + b;
    }
  }

  /** A character that occurs neither in any part nor in the separator does not
      occur in the joined text. */
  lemma {:induction false} JoinAvoids(parts: seq<string>, sep: string, c: char)
    requires c !in sep
    requires forall i :: 0 <= i < |parts| ==> c !in parts[i]
    ensures c !in Join(parts, sep)
  {
    if |parts| > 1 {
      JoinAvoids(parts[1..], sep, c);
    }
  }

  lemma SeqAssoc<T>(a: seq<T>, b: seq<T>, c: seq<T>)
    ensures a + (b + c) == (a + b) + c
  {
  }

  /** `s` around its entry `k`. */
  lemma SplitAround<T>(s: seq<T>, k: nat)
    requires k < |s|
    ensures s == (s[..k] + [s[k]]) + s[k + 1..]
  {
  }

  /** Each part followed by the separator, concatenated. */
  function Terminated(parts: seq<string>, sep: string): string {
    if |parts| == 0 then "" else Terminated(parts[..|parts| - 1], sep) + parts[|parts| - 1] + sep
  }

  lemma TerminatedSnoc(a: seq<string>, x: string, sep: string)
    ensures Terminated(a + [x], sep) == Terminated(a, sep) + x + sep
  {
    assert (a + [x])[..|a|] == a;
  }

  lemma {:induction false} TerminatedAppend(a: seq<string>, b: seq<string>, sep: string)
    ensures Terminated(a + b, sep) == Terminated(a, sep) + Terminated(b, sep)
  {
    if |b| == 0 {
      assert a + b == a;
    } else {
      var init, last := b[..|b| - 1], b[|b| - 1];
      var x, y := Terminated(a, sep), Terminated(init, sep);
      TerminatedAppend(a, init, sep);
      assert a + b == (a + init) + [last];
      TerminatedSnoc(a + init, last, sep);
      assert Terminated(a + b, sep) == (x + y) + last + sep;
      TerminatedSnoc(init, last, sep);
      assert init + [last] == b;
      assert Terminated(b, sep) == y + last + sep;
      SeqAssoc(x, y, last);
      SeqAssoc(x, y + last, sep);
    }
  }

  /** Joining is terminating every part but the last. */
  lemma {:induction false} JoinIsTerminated(a: seq<string>, x: string, sep: string)
    ensures Join(a + [x], sep) == Terminated(a, sep) + x
  {
    if |a| == 0 {
      assert a + [x] == [x];
    } else {
      var t := Terminated(a[1..], sep);
      JoinIsTerminated(a[1..], x, sep);
      assert (a + [x])[1..] == a[1..] + [x];
      assert Join(a + [x], sep) == a[0] + sep + (t + x);
      TerminatedAppend([a[0]], a[1..], sep);
      TerminatedSnoc([], a[0], sep);
      assert [] + [a[0]] == [a[0]];
      assert [a[0]] + a[1..] == a;
      assert Terminated(a, sep) == (a[0] + sep) + t;
      SeqAssoc(a[0] + sep, t, x);
    }
  }

  /** Terminating a non-empty list is joining it and adding one separator. */
  lemma TerminatedIsJoin(a: seq<string>, sep: string)
    requires |a| >= 1
    ensures Terminated(a, sep) == Join(a, sep) + sep
  {
    JoinIsTerminated(a[..|a| - 1], a[|a| - 1], sep);
    assert a[..|a| - 1] + [a[|a| - 1]] == a;
  }

  predicate StartsWith(line: string, c: char) {
    |line| > 0 && line[0] == c
  }

  /** The lines whose first character is `c`, in their original order. */
  function StartingWith(lines: seq<string>, c: char): (r: seq<string>)
    ensures forall i :: 0 <= i < |r| ==> StartsWith(r[i], c) && r[i] in lines
  {
    if |lines| == 0 then []
    else (if StartsWith(lines[0], c) then [lines[0]] else []) + StartingWith(lines[1..], c)
  }

  lemma {:induction false} StartingWithAppend(a: seq<string>, b: seq<string>, c: char)
    ensures StartingWith(a + b, c) == StartingWith(a, c) + StartingWith(b, c)
  {
    if |a| == 0 {
      assert a + b == b;
    } else {
      var first := if StartsWith(a[0], c) then [a[0]] else [];
      var x, y := StartingWith(a[1..], c), StartingWith(b, c);
      assert (a + b)[0] == a[0];
      assert (a + b)[1..] == a[1..] + b;
      StartingWithAppend(a[1..], b, c);
      assert StartingWith(a + b, c) == first + (x + y);
      assert StartingWith(a, c) == first + x;
      SeqAssoc(first, x, y);
    }
  }

  lemma {:induction false} StartingWithNone(lines: seq<string>, c: char)
    requires forall i :: 0 <= i < |lines| ==> !StartsWith(lines[i], c)
    ensures StartingWith(lines, c) == []
  {
    if |lines| > 0 {
      StartingWithNone(lines[1..], c);
    }
  }

  lemma {:induction false} StartingWithAll(lines: seq<string>, c: char)
    requires forall i :: 0 <= i < |lines| ==> StartsWith(lines[i], c)
    ensures StartingWith(lines, c) == lines
  {
    if |lines| > 0 {
      StartingWithAll(lines[1..], c);
      assert [lines[0]] + lines[1..] == lines;
    }
  }

  /** A list in which exactly line `k` starts with `c` yields that line. */
  lemma StartingWithOne(lines: seq<string>, k: nat, c: char)
    requires k < |lines| && StartsWith(lines[k], c)
    requires forall i :: 0 <= i < |lines| && i != k ==> !StartsWith(lines[i], c)
    ensures StartingWith(lines, c) == [lines[k]]
  {
    assert lines == lines[..k] + [lines[k]] + lines[k + 1..];
    StartingWithAppend(lines[..k] + [lines[k]], lines[k + 1..], c);
    StartingWithAppend(lines[..k], [lines[k]], c);
    StartingWithNone(lines[..k], c);
    StartingWithNone(lines[k + 1..], c);
    assert StartingWith([lines[k]], c) == [lines[k]] by {
      assert [lines[k]][1..] == [];
    }
  }

  predicate IsDigit(ch: char) {
    '0' <= ch <= '9'
  }

  function DigitChar(d: nat): (ch: char)
    requires d < 10
    ensures IsDigit(ch) && ch as int - '0' as int == d
  {
    ['0', '1', '2', '3', '4', '5', '6', '7', '8', '9'][d]
  }

  /** The decimal digits of `n`, most significant first, without leading zeros. */
  function NatToDecimal(n: nat): (s: string)
    ensures |s| >= 1
    ensures forall i :: 0 <= i < |s| ==> IsDigit(s[i])
  {
    if n < 10 then [DigitChar(n)]
    else NatToDecimal(n / 10) + [DigitChar(n % 10)]
  }

  /** `${n}` for an integer-valued JavaScript number: a minus sign for
      negative values, then the digits. */
  function IntToDecimal(n: int): (s: string)
    ensures |s| >= 1
    ensures forall i :: 0 <= i < |s| ==> IsDigit(s[i]) || (i == 0 && n < 0 && s[i] == '-')
  {
    if n < 0 then "-" + NatToDecimal(-n) else NatToDecimal(n)
  }

  /** The value of a string of decimal digits. */
  function DigitsValue(s: string): int
    requires forall i :: 0 <= i < |s| ==> IsDigit(s[i])
  {
    if |s| == 0 then 0
    else DigitsValue(s[..|s| - 1]) * 10 + (s[|s| - 1] as int - '0' as int)
  }

  /** The value of an optionally signed decimal numeral. */
  function DecimalValue(s: string): int
    requires |s| >= 1
    requires forall i :: 0 <= i < |s| ==> IsDigit(s[i]) || (i == 0 && s[i] == '-')
  {
    if s[0] == '-' then -DigitsValue(s[1..]) else DigitsValue(s)
  }

  lemma {:induction false} NatToDecimalRoundTrip(n: nat)
    ensures DigitsValue(NatToDecimal(n)) == n
  {
    if n >= 10 {
      NatToDecimalRoundTrip(n / 10);
      var s := NatToDecimal(n);
      assert s[..|s| - 1] == NatToDecimal(n / 10);
    }
  }

  /** Reading back the decimal form of an integer gives the integer: the
      numeral names its count unambiguously. */
  lemma IntToDecimalRoundTrip(n: int)
    ensures DecimalValue(IntToDecimal(n)) == n
  {
    if n < 0 {
      NatToDecimalRoundTrip(-n);
      assert IntToDecimal(n)[1..] == NatToDecimal(-n);
    } else {
      NatToDecimalRoundTrip(n);
    }
  }

  /** A numeral never contains a newline. */
  lemma DecimalHasNoNewline(n: int)
    ensures '\n' !in IntToDecimal(n)
  {
  }

  /** ASCII upper case of one character; other characters are unchanged. */
  function UpperChar(ch: char): char {
    if 'a' <= ch <= 'z' then (ch as int - 32) as char else ch
  }

  /** `s.charAt(0).toUpperCase() + s.slice(1)` on ASCII text. */
  function Capitalize(s: string): (r: string)
    ensures |r| == |s|
    ensures |s| > 0 ==> r[1..] == s[1..] && r[0] == UpperChar(s[0])
  {
    if |s| == 0 then "" else [UpperChar(s[0])] + s[1..]
  }
}
