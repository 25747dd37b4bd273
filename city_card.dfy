/**
 * One leaderboard card (src/components/CityCard.tsx): the badge colour
 * chosen from the city's rank and the `#<rank>` label.
 */
module CityCard {
  import opened Js

  const FirstColor := "bg-yellow-400 hover:bg-yellow-400"
  const SecondColor := "bg-slate-300 hover:bg-slate-300"
  const ThirdColor := "bg-amber-700 hover:bg-amber-700"
  const OtherColor := "bg-muted hover:bg-muted"

  /** `getBadgeColor`: ranks 1, 2 and 3 get their own colour, every other rank the muted one. */
  function GetBadgeColor(rank: int): (c: string)
    ensures c == FirstColor <==> rank == 1
    ensures c == SecondColor <==> rank == 2
    ensures c == ThirdColor <==> rank == 3
    ensures c == OtherColor <==> rank != 1 && rank != 2 && rank != 3
  {
    if rank == 1 then FirstColor
    else if rank == 2 then SecondColor
    else if rank == 3 then ThirdColor
    else OtherColor
  }

  predicate IsDigit(c: char) {
    '0' <= c <= '9'
  }

  function DigitChar(d: nat): (c: char)
    requires d < 10
    ensures IsDigit(c)
  {
    ('0' as int + d) as char
  }

  function DigitValue(c: char): (d: nat)
    requires IsDigit(c)
    ensures d < 10
  {
    c as int - '0' as int
  }

  /** Decimal rendering of a natural number, most significant digit first, no leading zeros. */
  function Decimal(n: nat): (s: string)
    ensures |s| >= 1
    ensures forall i :: 0 <= i < |s| ==> IsDigit(s[i])
    ensures |s| > 1 ==> s[0] != '0'
  {
    if n < 10 then [DigitChar(n)] else Decimal(n / 10) + [DigitChar(n % 10)]
  }

  /** The value of a string of decimal digits. */
  function DecimalValue(s: string): nat
    requires forall i :: 0 <= i < |s| ==> IsDigit(s[i])
  {
    if s == [] then 0 else DecimalValue(s[..|s| - 1]) * 10 + DigitValue(s[|s| - 1])
  }

  /** Reading back a decimal rendering gives the number it was made from. */
  lemma {:induction false} DecimalRoundTrip(n: nat)
    ensures DecimalValue(Decimal(n)) == n
  {
    if n >= 10 {
      var s := Decimal(n);
      assert s[..|s| - 1] == Decimal(n / 10);
      DecimalRoundTrip(n / 10);
    }
  }

  /** How a JavaScript number that holds an integer is turned into text in a template literal. */
  function IntToString(i: int): (s: string)
    ensures |s| >= 1
  {
    if i < 0 then "-" + Decimal(-i) else Decimal(i)
  }

  /** The badge label `#{rank}`. */
  function RankLabel(rank: int): (text: string)
    ensures |text| >= 2 && text[0] == '#'
    ensures text[1..] == IntToString(rank)
  {
    "#" + IntToString(rank)
  }

  /** Reads a rank back from a badge label; the inverse of `RankLabel`. */
  function ParseRankLabel(text: string): Option<int> {
    if |text| < 2 || text[0] != '#' then None
    else
      var body := text[1..];
      if body[0] == '-' then
        if |body| >= 2 && forall i :: 1 <= i < |body| ==> IsDigit(body[i])
        then Some(-(DecimalValue(body[1..]) as int)) else None
      else if forall i :: 0 <= i < |body| ==> IsDigit(body[i])
      then Some(DecimalValue(body)) else None
  }

  /** The label determines the rank: parsing it recovers exactly the rank shown. */
  lemma RankLabelRoundTrip(rank: int)
    ensures ParseRankLabel(RankLabel(rank)) == Some(rank)
  {
    var text := RankLabel(rank);
    if rank < 0 {
      DecimalRoundTrip(-rank);
      assert text[1..][1..] == Decimal(-rank);
    } else {
      DecimalRoundTrip(rank);
      assert text[1..] == Decimal(rank);
    }
  }

  /** Two cards show the same label only if they show the same rank. */
  lemma RankLabelInjective(r1: int, r2: int)
    requires RankLabel(r1) == RankLabel(r2)
    ensures r1 == r2
  {
    RankLabelRoundTrip(r1);
    RankLabelRoundTrip(r2);
  }
}
