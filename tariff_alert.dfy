/** The tariff-flag banner: a flag chosen from the calendar month alone (no
    external feed), its surcharge table, and which tips it shows. */
module TariffAlert {

  datatype Flag = Verde | Amarela | Vermelha1 | Vermelha2

  /** The flag's identifier as the banner names it. */
  function FlagName(f: Flag): string
  {
    match f
    case Verde => "verde"
    case Amarela => "amarela"
    case Vermelha1 => "vermelha-1"
    case Vermelha2 => "vermelha-2"
  }

  /** The flag for a 0-based month: December to February red level 2, March to May
      red level 1, June to August yellow, the rest green. */
  function FlagForMonth(month: int): Flag
  {
    if month >= 11 || month <= 1 then Vermelha2
    else if month >= 2 && month <= 4 then Vermelha1
    else if month >= 5 && month <= 7 then Amarela
    else Verde
  }

  /** The months of the year that get flag `f`. */
  function MonthsWith(f: Flag): (r: set<int>)
    ensures forall m :: m in r <==> 0 <= m < 12 && FlagForMonth(m) == f
  {
    set m | 0 <= m < 12 && FlagForMonth(m) == f
  }

  /** Each flag's months, and so each flag covers exactly three months. */
  lemma MonthsOfEachFlag()
    ensures MonthsWith(Vermelha2) == {11, 0, 1}
    ensures MonthsWith(Vermelha1) == {2, 3, 4}
    ensures MonthsWith(Amarela) == {5, 6, 7}
    ensures MonthsWith(Verde) == {8, 9, 10}
    ensures forall f :: |MonthsWith(f)| == 3
  {
    assert MonthsWith(Vermelha2) == {11, 0, 1};
    assert MonthsWith(Vermelha1) == {2, 3, 4};
    assert MonthsWith(Amarela) == {5, 6, 7};
    assert MonthsWith(Verde) == {8, 9, 10};
    forall f ensures |MonthsWith(f)| == 3 {
      match f
      case Verde => assert |{8, 9, 10}| == 3;
      case Amarela => assert |{5, 6, 7}| == 3;
      case Vermelha1 => assert |{2, 3, 4}| == 3;
      case Vermelha2 => assert |{11, 0, 1}| == 3;
    }
  }

  /** The surcharge per 100 kWh, in centavos. */
  function SurchargeCents(f: Flag): nat
  {
    match f
    case Verde => 0
    case Amarela => 299
    case Vermelha1 => 650
    case Vermelha2 => 979
  }

  /** The order of severity green < yellow < red 1 < red 2. */
  function Severity(f: Flag): nat
  {
    match f
    case Verde => 0
    case Amarela => 1
    case Vermelha1 => 2
    case Vermelha2 => 3
  }

  /** A more severe flag costs strictly more. */
  lemma SurchargeIncreasesWithSeverity(f: Flag, g: Flag)
    ensures Severity(f) < Severity(g) <==> SurchargeCents(f) < SurchargeCents(g)
  {
  }

  /** The saving tips are shown for every flag but green. */
  predicate ShowsSavingTips(f: Flag)
  {
    f != Verde
  }

  /** `part` occurs somewhere in `s`. */
  predicate Contains(s: string, part: string)
  {
    part <= s || (s != [] && Contains(s[1..], part))
  }

  lemma {:induction false} TooShortToContain(s: string, part: string)
    requires |s| < |part|
    ensures !Contains(s, part)
  {
    if s != [] { TooShortToContain(s[1..], part); }
  }

  /** The extra air-conditioning and shower tip: the flag's name contains "vermelha". */
  predicate ShowsAcShowerTip(f: Flag)
  {
    Contains(FlagName(f), "vermelha")
  }

  /** The extra tip is shown exactly for the two red levels, always together with
      the saving tips. */
  lemma AcShowerTipOnlyWhenRed(f: Flag)
    ensures ShowsAcShowerTip(f) <==> f == Vermelha1 || f == Vermelha2
    ensures ShowsAcShowerTip(f) ==> ShowsSavingTips(f)
  {
    match f
    case Vermelha1 => assert "vermelha" <= FlagName(f);
    case Vermelha2 => assert "vermelha" <= FlagName(f);
    case Verde => TooShortToContain(FlagName(f), "vermelha");
    case Amarela => TooShortToContain(FlagName(f), "vermelha");
  }
}
