/** The page's `formatTime(seconds)`: whole minutes and the remaining seconds,
    each rendered in decimal and left-padded with '0' to two characters,
    joined by ':'.  JavaScript's `Math.floor(seconds / 60)` is floor division
    and its `seconds % 60` keeps the sign of the dividend; both are written out
    so that the function is defined, as the source is, on every integer. */
module Clock {
  import opened Decimal
  import opened Wrappers

  /** `Math.floor(a / b)` for b > 0 (Dafny's division already rounds down then). */
  function FloorDiv(a: int, b: int): (q: int)
    requires b > 0
    ensures q * b <= a < q * b + b
  {
    a / b
  }

  /** Division rounding toward zero, the quotient JavaScript's % goes with. */
  function TruncDiv(a: int, b: int): int
    requires b > 0
  {
    if a >= 0 then a / b else -((-a) / b)
  }

  /** JavaScript's `a % b` for b > 0: a - b * trunc(a / b), so the remainder
      takes the dividend's sign. */
  function JsRem(a: int, b: int): (r: int)
    requires b > 0
    ensures a == b * TruncDiv(a, b) + r
    ensures -b < r < b
    ensures a >= 0 ==> 0 <= r
    ensures a <= 0 ==> r <= 0
  {
    if a >= 0 then a % b else -((-a) % b)
  }

  /** `s.padStart(width, fill)`: prefixes fill characters up to the width and
      never shortens s. */
  function PadStart(s: string, width: nat, fill: char): (r: string)
    ensures |r| == if |s| >= width then |s| else width
    ensures r[|r| - |s|..] == s
    ensures forall i :: 0 <= i < |r| - |s| ==> r[i] == fill
  {
    if |s| >= width then s else seq(width - |s|, _ => fill) + s
  }

  function Pad2(s: string): string {
    PadStart(s, 2, '0')
  }

  function MinutesText(seconds: int): string {
    Pad2(IntToString(FloorDiv(seconds, 60)))
  }

  function SecondsText(seconds: int): string {
    Pad2(IntToString(JsRem(seconds, 60)))
  }

  /** Index.tsx `formatTime`. */
  function FormatTime(seconds: int): (r: string)
    ensures |r| >= 5
    ensures |MinutesText(seconds)| < |r| && r[|MinutesText(seconds)|] == ':'
  {
    var m, s := MinutesText(seconds), SecondsText(seconds);
    assert |m| >= 2 && |s| >= 2;
    m + ":" + s
  }

  /** The position of the first c in s, or |s| when there is none. */
  function IndexOf(s: string, c: char): (i: nat)
    ensures i <= |s|
    ensures i < |s| ==> s[i] == c
    ensures forall j :: 0 <= j < i ==> s[j] != c
  {
    if s == [] then 0 else if s[0] == c then 0 else 1 + IndexOf(s[1..], c)
  }

  /** Reads "M:S" back into its minutes and seconds fields: both non-empty
      digit strings around the first ':'. */
  function ParseClock(text: string): Option<(nat, nat)> {
    var i := IndexOf(text, ':');
    if i == |text| then None
    else
      var m, s := text[..i], text[i + 1..];
      if m == [] || s == [] || !AllDigits(m) || !AllDigits(s) then None
      else Some((ParseNat(m), ParseNat(s)))
  }

  /** Padding a canonical numeral to two places keeps its value and its digits. */
  lemma Pad2NatToString(n: nat)
    ensures var p := Pad2(NatToString(n));
      AllDigits(p) && ParseNat(p) == n
    ensures n < 100 ==> |Pad2(NatToString(n))| == 2
    ensures n >= 100 ==> Pad2(NatToString(n)) == NatToString(n) && |NatToString(n)| >= 3
  {
    var s := NatToString(n);
    ParseNatToString(n);
    if |s| < 2 {
      assert Pad2(s) == "0" + s;
      ParseNatLeadingZero(s);
    } else {
      assert Pad2(s) == s;
    }
  }

  /** For a non-negative count, formatTime is pad2(s div 60) ":" pad2(s mod 60). */
  lemma FormatTimeNonNegative(seconds: nat)
    ensures FormatTime(seconds)
      == Pad2(NatToString(seconds / 60)) + ":" + Pad2(NatToString(seconds % 60))
  {
  }

  /** Below 6000 seconds the minutes fit in two digits. */
  lemma MinutesBelowHundred(seconds: nat)
    ensures seconds < 6000 <==> seconds / 60 < 100
  {
  }

  /** Two digit strings joined by ':' have their only ':' at the join. */
  lemma JoinedColon(m: string, s: string)
    requires AllDigits(m) && AllDigits(s)
    ensures var t := m + ":" + s;
      forall i :: 0 <= i < |t| ==> (t[i] == ':' <==> i == |m|)
  {
    var t := m + ":" + s;
    forall i | 0 <= i < |t|
      ensures t[i] == ':' <==> i == |m|
    {
      if i < |m| {
        assert t[i] == m[i];
      } else if i > |m| {
        assert t[i] == s[i - |m| - 1];
      }
    }
  }

  /** Field shapes: the seconds field is exactly two digits, the minutes field
      at least two, and at least three from 100 minutes (6000 s) on; the text
      holds one ':' and otherwise only digits. */
  lemma FormatTimeLayout(seconds: nat)
    ensures var m, s := MinutesText(seconds), SecondsText(seconds);
      && AllDigits(m) && AllDigits(s)
      && |s| == 2 && |m| >= 2
      && (seconds < 6000 <==> |m| == 2)
      && (seconds >= 6000 <==> |m| >= 3)
    ensures var t := FormatTime(seconds);
      forall i :: 0 <= i < |t| ==> (t[i] == ':' <==> i == |MinutesText(seconds)|)
  {
    var q, r := seconds / 60, seconds % 60;
    MinutesBelowHundred(seconds);
    FormatTimeNonNegative(seconds);
    Pad2NatToString(q);
    Pad2NatToString(r);
    JoinedColon(MinutesText(seconds), SecondsText(seconds));
  }

  /** Below 100 minutes the text is "MM:SS": five characters, ':' in the middle. */
  lemma FormatTimeFixedWidth(seconds: int)
    requires 0 <= seconds < 6000
    ensures |FormatTime(seconds)| == 5 && FormatTime(seconds)[2] == ':'
  {
    FormatTimeLayout(seconds);
  }

  /** ParseClock splits a joined pair of digit strings back into its halves. */
  lemma ParseJoined(m: string, s: string)
    requires m != [] && s != [] && AllDigits(m) && AllDigits(s)
    ensures ParseClock(m + ":" + s) == Some((ParseNat(m), ParseNat(s)))
  {
    var t := m + ":" + s;
    JoinedColon(m, s);
    assert IndexOf(t, ':') == |m| by {
      assert t[|m|] == ':';
    }
    assert t[..|m|] == m && t[|m| + 1..] == s;
  }

  /** The text reads back as minutes and seconds that give the input again. */
  lemma FormatTimeRoundTrip(seconds: nat)
    ensures ParseClock(FormatTime(seconds)) == Some((seconds / 60, seconds % 60))
    ensures var p := ParseClock(FormatTime(seconds)).value;
      p.1 < 60 && p.0 * 60 + p.1 == seconds
  {
    var q, r := seconds / 60, seconds % 60;
    FormatTimeNonNegative(seconds);
    Pad2NatToString(q);
    Pad2NatToString(r);
    ParseJoined(Pad2(NatToString(q)), Pad2(NatToString(r)));
  }

  /** An elapsed countdown reads "00:00". */
  lemma FormatTimeZero()
    ensures FormatTime(0) == "00:00"
  {
    assert IntToString(0) == "0";
    assert Pad2("0") == "00";
    assert MinutesText(0) == "00" && SecondsText(0) == "00";
  }

  /** Negative counts (never passed by the timer display) give a signed text:
      Math.floor rounds down and % keeps the sign. */
  lemma {:induction false} FormatTimeNegativeExample()
    ensures FormatTime(-61) == "-2:-1"
  {
    assert FloorDiv(-61, 60) == -2 && JsRem(-61, 60) == -1;
    assert NatToString(2) == "2" && NatToString(1) == "1";
  }
}
