/**
 The label the screen shows for the remaining time: whole minutes, a colon, and
 the remaining seconds padded with zeros to two digits (`formatTime`).
 `ParseTime` reads such a label back; the lemmas below show that the two are
 inverse to each other.
 */
module TimeFormat {

  datatype Option<T> = None | Some(value: T)

  predicate IsDigit(c: char) {
    '0' <= c <= '9'
  }

  predicate AllDigits(s: string) {
    forall i :: 0 <= i < |s| ==> IsDigit(s[i])
  }

  /** A decimal numeral as JavaScript prints a non-negative integer: at least one digit, no leading zero. */
  predicate Canonical(s: string) {
    1 <= |s| && AllDigits(s) && (|s| > 1 ==> s[0] != '0')
  }

  function DigitChar(d: nat): (c: char)
    requires d < 10
    ensures IsDigit(c) && c as int == '0' as int + d
  {
    ('0' as int + d) as char
  }

  /** The value of a digit character; other characters have none and read as 0. */
  function DigitValue(c: char): (d: nat)
    ensures d < 10
    ensures IsDigit(c) ==> c as int == '0' as int + d
  {
    if IsDigit(c) then c as int - '0' as int else 0
  }

  /** The value of a string of decimal digits (meaningful when `AllDigits(s)`); the empty string reads as 0. */
  function ParseNat(s: string): nat
  {
    if s == [] then 0 else ParseNat(s[..|s| - 1]) * 10 + DigitValue(s[|s| - 1])
  }

  /** `n.toString()` for a non-negative integer `n`: at least one digit, the last one the units digit. */
  function NatToString(n: nat): (r: string)
    ensures |r| >= 1 && r[|r| - 1] == DigitChar(n % 10)
  {
    if n < 10 then [DigitChar(n)] else NatToString(n / 10) + [DigitChar(n % 10)]
  }

  /** `s.padStart(2, "0")`: prepend zeros until `s` is two characters long. */
  function PadStart2(s: string): (r: string)
    ensures |r| == if |s| >= 2 then |s| else 2
    ensures r[|r| - |s|..] == s
    ensures forall i :: 0 <= i < |r| - |s| ==> r[i] == '0'
  {
    if |s| >= 2 then s else if |s| == 1 then "0" + s else "00"
  }

  /** `formatTime(seconds)`: `Math.floor(seconds / 60)`, a colon, `seconds % 60` padded to two digits. */
  function FormatTime(seconds: nat): (t: string)
    ensures |t| >= 4
  {
    NatToString(seconds / 60) + ":" + PadStart2(NatToString(seconds % 60))
  }

  /** The two fields of the label read back as whole minutes and seconds below 60 that make up `seconds`. */
  lemma FormatTimeFields(seconds: nat)
    ensures var t := FormatTime(seconds);
      && |t| >= 4 && t[|t| - 3] == ':'
      && Canonical(t[..|t| - 3]) && |t[|t| - 2..]| == 2 && AllDigits(t[|t| - 2..])
      && ParseNat(t[|t| - 2..]) < 60
      && 60 * ParseNat(t[..|t| - 3]) + ParseNat(t[|t| - 2..]) == seconds
  {
    var m := NatToString(seconds / 60);
    var ss := PadStart2(NatToString(seconds % 60));
    var t := FormatTime(seconds);
    assert t[..|t| - 3] == m && t[|t| - 2..] == ss && t[|t| - 3] == ':' by {
      PaddedSecondsValue(seconds % 60);
      assert t == m + ":" + ss;
    }
    assert Canonical(m) && ParseNat(m) == seconds / 60 by {
      NatToStringCanonical(seconds / 60);
      ParseNatOfNatToString(seconds / 60);
    }
    assert |ss| == 2 && AllDigits(ss) && ParseNat(ss) == seconds % 60 by {
      PaddedSecondsValue(seconds % 60);
    }
  }

  /** Reads a label `M:SS` back: `M` one or more digits, `SS` exactly two digits below 60. */
  function ParseTime(t: string): Option<nat>
  {
    if |t| < 4 || t[|t| - 3] != ':' then None
    else
      var m, ss := t[..|t| - 3], t[|t| - 2..];
      if !AllDigits(m) || !AllDigits(ss) || ParseNat(ss) >= 60 then None
      else Some(60 * ParseNat(m) + ParseNat(ss))
  }

  /** The labels `formatTime` can produce: minutes without leading zeros. */
  predicate WellFormedTime(t: string) {
    |t| >= 4 && t[|t| - 3] == ':' && Canonical(t[..|t| - 3]) && ParseTime(t).Some?
  }

  /** The numeral has no leading zero, and starts with '0' only for zero itself. */
  lemma {:induction false} NatToStringCanonical(n: nat)
    ensures Canonical(NatToString(n))
    ensures NatToString(n)[0] == '0' <==> n == 0
    ensures |NatToString(n)| == 1 <==> n < 10
  {
    if n >= 10 {
      NatToStringCanonical(n / 10);
    }
  }

  lemma {:induction false} ParseNatOfNatToString(n: nat)
    ensures ParseNat(NatToString(n)) == n
  {
    var s := NatToString(n);
    if n < 10 {
      assert s[..0] == [];
    } else {
      ParseNatOfNatToString(n / 10);
      assert s[..|s| - 1] == NatToString(n / 10);
    }
  }

  lemma {:induction false} LeadingZeroIgnored(s: string)
    requires AllDigits(s)
    ensures AllDigits("0" + s) && ParseNat("0" + s) == ParseNat(s)
  {
    var z := "0" + s;
    if s == [] {
      assert z[..0] == [];
    } else {
      LeadingZeroIgnored(s[..|s| - 1]);
      assert z[..|z| - 1] == "0" + s[..|s| - 1];
    }
  }

  /** The padded seconds field reads back as the seconds value and has exactly two digits. */
  lemma PaddedSecondsValue(n: nat)
    requires n < 60
    ensures |PadStart2(NatToString(n))| == 2
    ensures AllDigits(PadStart2(NatToString(n)))
    ensures ParseNat(PadStart2(NatToString(n))) == n
  {
    var s := NatToString(n);
    ParseNatOfNatToString(n);
    NatToStringCanonical(n / 10);
    if n < 10 {
      assert PadStart2(s) == "0" + s;
      LeadingZeroIgnored(s);
    } else {
      assert n / 10 < 10;
      assert PadStart2(s) == s;
    }
  }

  lemma {:induction false} ParseNatPositive(s: string)
    requires Canonical(s) && s[0] != '0'
    ensures ParseNat(s) >= 1
  {
    if |s| > 1 {
      ParseNatPositive(s[..|s| - 1]);
    } else {
      assert s[..0] == [];
    }
  }

  lemma {:induction false} NatToStringOfParseNat(s: string)
    requires Canonical(s)
    ensures NatToString(ParseNat(s)) == s
  {
    var p := s[..|s| - 1];
    if |s| == 1 {
      assert p == [];
    } else {
      NatToStringOfParseNat(p);
      ParseNatPositive(p);
      var n := ParseNat(s);
      assert n / 10 == ParseNat(p) && n % 10 == DigitValue(s[|s| - 1]);
      assert s == p + [s[|s| - 1]];
    }
  }

  /** A two-digit seconds field is exactly what padding its value gives back. */
  lemma SecondsFieldCanonical(ss: string)
    requires |ss| == 2 && AllDigits(ss) && ParseNat(ss) < 60
    ensures PadStart2(NatToString(ParseNat(ss))) == ss
  {
    var tail := ss[1..];
    assert ss[..1][..0] == [];
    if ss[0] == '0' {
      assert ss == "0" + tail;
      LeadingZeroIgnored(tail);
      NatToStringOfParseNat(tail);
      assert PadStart2(tail) == "0" + tail;
    } else {
      NatToStringOfParseNat(ss);
    }
  }

  /** Reading the label back gives the number of seconds it was made from. */
  lemma FormatTimeRoundTrip(seconds: nat)
    ensures ParseTime(FormatTime(seconds)) == Some(seconds)
    ensures WellFormedTime(FormatTime(seconds))
  {
    FormatTimeFields(seconds);
  }

  /** Every well-formed label is the one `formatTime` gives for the value it reads as. */
  lemma FormatTimeOfParseTime(t: string)
    requires WellFormedTime(t)
    ensures FormatTime(ParseTime(t).value) == t
  {
    var m, ss := t[..|t| - 3], t[|t| - 2..];
    assert t == m + ":" + ss;
    assert ParseTime(t).value == 60 * ParseNat(m) + ParseNat(ss);
    FormatTimeOfFields(m, ss, ParseTime(t).value);
  }

  lemma FormatTimeOfFields(m: string, ss: string, n: nat)
    requires Canonical(m) && |ss| == 2 && AllDigits(ss) && ParseNat(ss) < 60
    requires n == 60 * ParseNat(m) + ParseNat(ss)
    ensures FormatTime(n) == m + ":" + ss
  {
    var q, r := ParseNat(m), ParseNat(ss);
    calc {
      FormatTime(n);
    == { FormatTimeOf(n, q, r); }
      NatToString(q) + ":" + PadStart2(NatToString(r));
    == { NatToStringOfParseNat(m); SecondsFieldCanonical(ss); }
      m + ":" + ss;
    }
  }

  lemma FormatTimeOf(n: nat, q: nat, r: nat)
    requires n == 60 * q + r && r < 60
    ensures FormatTime(n) == NatToString(q) + ":" + PadStart2(NatToString(r))
  {
    assert n / 60 == q && n % 60 == r;
  }

  /** `formatTime(seconds) == t` exactly when `t` is a well-formed label that reads back as `seconds`. */
  lemma FormatTimeExactly(seconds: nat, t: string)
    ensures FormatTime(seconds) == t <==> WellFormedTime(t) && ParseTime(t) == Some(seconds)
  {
    if WellFormedTime(t) && ParseTime(t) == Some(seconds) {
      FormatTimeOfParseTime(t);
    }
    if FormatTime(seconds) == t {
      FormatTimeRoundTrip(seconds);
    }
  }

  /** The label a fresh session starts with. */
  lemma FormatTimeAtStart()
    ensures FormatTime(60) == "1:00"
  {
    assert NatToString(1) == "1" && PadStart2(NatToString(0)) == "00";
  }

  /** The label one second into a session. */
  lemma FormatTimeAfterOneSecond()
    ensures FormatTime(59) == "0:59"
  {
    FormatTimeOf(59, 0, 59);
    var n := NatToString(59);
    assert n == "59" by {
      assert n == NatToString(5) + [DigitChar(9)];
    }
    assert PadStart2(n) == n;
    assert NatToString(0) == "0";
  }

  /** The label at the end of a session. */
  lemma FormatTimeAtEnd()
    ensures FormatTime(0) == "0:00"
  {
    assert NatToString(0) == "0" && PadStart2(NatToString(0)) == "00";
  }
}
