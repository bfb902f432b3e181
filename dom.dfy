/** `fmtMs` of web/lib/dom.js: a duration in milliseconds shown as m:ss. */
module Dom {

  predicate AllDigits(s: string) {
    forall i :: 0 <= i < |s| ==> '0' <= s[i] <= '9'
  }

  function Digit(d: nat): (c: char)
    requires d < 10
    ensures '0' <= c <= '9' && c as int - '0' as int == d
  {
    ('0' as int + d) as char
  }

  /** The tens and the last digit of `n` (division by 10, without `/`). */
  function Split10(n: nat): (qr: (nat, nat))
    ensures qr.0 * 10 + qr.1 == n && qr.1 < 10
  {
    if n < 10 then (0, n) else var (q, r) := Split10(n - 10); (q + 1, r)
  }

  /** `String(n)` for a non-negative integer: its decimal digits, most significant first. */
  function NatToDecimal(n: nat): (s: string)
    ensures |s| >= 1 && AllDigits(s)
    ensures n < 10 <==> |s| == 1
    decreases n
  {
    if n < 10 then [Digit(n)] else NatToDecimal(Split10(n).0) + [Digit(Split10(n).1)]
  }

  /** The number a string of decimal digits denotes; the partner of NatToDecimal. */
  function DecimalValue(s: string): nat
    requires AllDigits(s)
  {
    if s == [] then 0 else DecimalValue(s[..|s| - 1]) * 10 + (s[|s| - 1] as int - '0' as int)
  }

  lemma {:induction false} DecimalRoundTrip(n: nat)
    ensures DecimalValue(NatToDecimal(n)) == n
  {
    if n >= 10 {
      var s := NatToDecimal(n);
      assert s[..|s| - 1] == NatToDecimal(Split10(n).0);
      DecimalRoundTrip(Split10(n).0);
    }
  }

  /** `String(s).padStart(2, "0")` for a string of at most two characters. */
  function PadStart2(s: string): (r: string)
    requires 1 <= |s| <= 2
    ensures |r| == 2 && r[2 - |s|..] == s
    ensures |s| == 1 ==> r[0] == '0'
  {
    if |s| < 2 then "0" + s else s
  }

  /** The whole seconds `fmtMs` shows: `Math.max(0, Math.floor(ms / 1000))`. */
  function TotalSeconds(ms: int): (s: nat)
    ensures ms < 0 ==> s == 0
    ensures ms >= 0 ==> s * 1000 <= ms < s * 1000 + 1000
  {
    // Dafny's `/` by a positive divisor rounds down, as Math.floor of the quotient does.
    if ms / 1000 < 0 then 0 else ms / 1000
  }

  /** Whole minutes and leftover seconds of `s` seconds (division by 60, without `/`). */
  function Split60(s: nat): (qr: (nat, nat))
    ensures qr.0 * 60 + qr.1 == s && qr.1 < 60
  {
    if s < 60 then (0, s) else var (q, r) := Split60(s - 60); (q + 1, r)
  }

  /** `m:ss` for a whole number of seconds: minutes without an hour roll-over, then two-digit seconds. */
  function Clock(s: nat): (r: string)
    ensures |r| >= 4 && r[|r| - 3] == ':'
  {
    var (minutes, seconds) := Split60(s);
    NatToDecimal(minutes) + ":" + PadStart2(NatToDecimal(seconds))
  }

  /** `fmtMs`: the clock text of the whole seconds in `ms`. */
  function FmtMs(ms: int): (r: string)
    ensures |r| >= 4 && r[|r| - 3] == ':'
  {
    Clock(TotalSeconds(ms))
  }

  lemma NegativeShowsZero(ms: int)
    requires ms < 0
    ensures FmtMs(ms) == "0:00"
  {
  }

  /**
   * `r` reads back as `s` seconds: the part before the colon is the minutes
   * in decimal, the two characters after it are the seconds 0..59, and
   * together they make `s`.
   */
  predicate ReadsBackAs(r: string, s: nat) {
    |r| >= 4 && r[|r| - 3] == ':' && AllDigits(r[..|r| - 3]) && AllDigits(r[|r| - 2..]) &&
    DecimalValue(r[|r| - 2..]) < 60 &&
    DecimalValue(r[..|r| - 3]) * 60 + DecimalValue(r[|r| - 2..]) == s
  }

  /** The text of `fmtMs` reads back as the whole seconds of `ms`; so 3 600 000 ms reads as 60 minutes. */
  lemma FmtMsReadsBack(ms: int)
    ensures ReadsBackAs(FmtMs(ms), TotalSeconds(ms))
  {
    ClockReadsBack(TotalSeconds(ms));
  }

  /** The clock text of `s` seconds reads back as `s`. */
  lemma ClockReadsBack(s: nat)
    ensures ReadsBackAs(Clock(s), s)
  {
    var qr := Split60(s);
    var mm := NatToDecimal(qr.0);
    var ss := NatToDecimal(qr.1);
    AtMostTwoDigits(qr.1);
    DecimalRoundTrip(qr.0);
    DecimalRoundTrip(qr.1);
    PadKeepsValue(ss);
    JoinReadsBack(mm, PadStart2(ss), s);
  }

  /** Two digit strings joined by a colon read back as minutes and seconds. */
  lemma JoinReadsBack(mm: string, p: string, s: nat)
    requires |mm| >= 1 && |p| == 2 && AllDigits(mm) && AllDigits(p)
    requires DecimalValue(p) < 60 && DecimalValue(mm) * 60 + DecimalValue(p) == s
    ensures ReadsBackAs(mm + ":" + p, s)
  {
    var r := mm + ":" + p;
    assert r[..|r| - 3] == mm;
    assert r[|r| - 2..] == p;
  }

  /** A number below 100 has at most two decimal digits. */
  lemma AtMostTwoDigits(n: nat)
    requires n < 100
    ensures |NatToDecimal(n)| <= 2
  {
    if n >= 10 {
      assert NatToDecimal(n) == NatToDecimal(Split10(n).0) + [Digit(Split10(n).1)];
    }
  }

  /** Padding with a leading zero keeps the digits' value. */
  lemma PadKeepsValue(ss: string)
    requires 1 <= |ss| <= 2 && AllDigits(ss)
    ensures AllDigits(PadStart2(ss)) && DecimalValue(PadStart2(ss)) == DecimalValue(ss)
  {
    if |ss| == 1 {
      var p := PadStart2(ss);
      assert p == ['0', ss[0]];
      assert p[..1] == ['0'];
      assert ['0'][..0] == [];
      assert ss[..0] == [];
    }
  }
}
