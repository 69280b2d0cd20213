/** Decimal text: `padStart(2, '0')` and reading digits back, so that the
    formatted clock and calendar strings can be shown to encode their inputs. */
module Text {
  import opened Js

  predicate AllDigits(s: string) {
    forall i :: 0 <= i < |s| ==> '0' <= s[i] <= '9'
  }

  /** The number a string of decimal digits denotes (leading zeros allowed). */
  function ParseNat(s: string): nat
    requires AllDigits(s)
  {
    if s == [] then 0 else ParseNat(s[..|s| - 1]) * 10 + (s[|s| - 1] as int - '0' as int)
  }

  lemma DigitValue(d: nat)
    requires d < 10
    ensures DigitChar(d) as int - '0' as int == d
  {
  }

  /** Reading back the digits of n gives n. */
  lemma {:induction false} ParseNatToString(n: nat)
    ensures ParseNat(NatToString(n)) == n
    decreases n
  {
    var s := NatToString(n);
    if n < 10 {
      DigitValue(n);
      assert s[..0] == [];
    } else {
      ParseNatToString(n / 10);
      DigitValue(n % 10);
      assert s[..|s| - 1] == NatToString(n / 10);
    }
  }

  /** A leading zero does not change the value. */
  lemma {:induction false} ParseNatLeadingZero(s: string)
    requires AllDigits(s)
    ensures AllDigits("0" + s) && ParseNat("0" + s) == ParseNat(s)
    decreases |s|
  {
    if s != [] {
      assert ("0" + s)[..|"0" + s| - 1] == "0" + s[..|s| - 1];
      ParseNatLeadingZero(s[..|s| - 1]);
    } else {
      assert ("0")[..0] == [];
    }
  }

  /** Numbers below ten print with one digit, below a hundred with two, others with more. */
  lemma NatToStringLength(n: nat)
    ensures n < 10 <==> |NatToString(n)| == 1
    ensures 10 <= n < 100 <==> |NatToString(n)| == 2
  {
    if 10 <= n {
      assert |NatToString(n)| == |NatToString(n / 10)| + 1;
      if n < 100 {
        assert |NatToString(n / 10)| == 1;
      } else {
        NatToStringLength(n / 10);
      }
    }
  }

  /** `s.padStart(2, '0')` */
  function PadStart2(s: string): (r: string)
    ensures |s| >= 2 ==> r == s
    ensures |s| < 2 ==> |r| == 2 && r[2 - |s|..] == s
    ensures forall i :: 0 <= i < |r| - |s| ==> r[i] == '0'
  {
    if |s| >= 2 then s else if |s| == 1 then "0" + s else "00"
  }

  /** `String(n).padStart(2, '0')`, read back digit by digit, is n again; it has exactly
      two characters when n is below a hundred. */
  lemma {:induction false} Pad2RoundTrip(n: nat)
    ensures AllDigits(PadStart2(NatToString(n)))
    ensures ParseNat(PadStart2(NatToString(n))) == n
    ensures n < 100 <==> |PadStart2(NatToString(n))| == 2
  {
    var s := NatToString(n);
    NatToStringLength(n);
    ParseNatToString(n);
    if n < 10 {
      ParseNatLeadingZero(s);
    }
  }

  /** Two numbers, each padded to two digits, around a one-character separator: the
      shape of `mm:ss`, `HH:mm` and the `MM-dd` tail of a date. */
  function Padded2Pair(a: nat, sep: char, b: nat): string {
    PadStart2(NatToString(a)) + [sep] + PadStart2(NatToString(b))
  }

  /** When the second number is below a hundred, the separator sits third from the end,
      and the text on either side of it reads back as the two numbers; when both are
      below a hundred the text is exactly five characters. */
  lemma Padded2PairRoundTrip(a: nat, sep: char, b: nat)
    requires b < 100
    ensures var r := Padded2Pair(a, sep, b);
      |r| >= 5 && r[|r| - 3] == sep
      && AllDigits(r[..|r| - 3]) && ParseNat(r[..|r| - 3]) == a
      && AllDigits(r[|r| - 2..]) && ParseNat(r[|r| - 2..]) == b
      && (a < 100 <==> |r| == 5)
  {
    var r := Padded2Pair(a, sep, b);
    var left := PadStart2(NatToString(a));
    var right := PadStart2(NatToString(b));
    Pad2RoundTrip(a);
    Pad2RoundTrip(b);
    assert |right| == 2;
    assert r[..|r| - 3] == left;
    assert r[|r| - 2..] == right;
  }
}
