/** The dashboard's derived figures: averages, the five-percent forecast, the
    two-point trend over the bills sorted by period, the chart series and the
    tip lists, all gated by the subscription tier. Everything here is a pure
    function of the bills, the onboarding answers and the tier. */
module Dashboard {
  import opened Records

  // ---------------------------------------------------------------------------
  // Tier gating

  /** Forecasts, personalised tips and the chart's forecast point are for paid tiers. */
  function HasAdvancedFeatures(plan: Plan): (r: bool)
    ensures r <==> plan == Pro || plan == Premium
  {
    plan != Free
  }

  // ---------------------------------------------------------------------------
  // Ordering of periods

  /** Code-point lexicographic order, which is how "YYYY-MM" periods compare. */
  predicate LexLe(a: string, b: string)
  {
    if a == [] then true
    else if b == [] then false
    else if a[0] != b[0] then a[0] < b[0]
    else LexLe(a[1..], b[1..])
  }

  lemma {:induction false} LexLeRefl(a: string)
    ensures LexLe(a, a)
  {
    if a != [] { LexLeRefl(a[1..]); }
  }

  lemma {:induction false} LexLeTotal(a: string, b: string)
    ensures LexLe(a, b) || LexLe(b, a)
  {
    if a != [] && b != [] && a[0] == b[0] { LexLeTotal(a[1..], b[1..]); }
  }

  lemma {:induction false} LexLeTrans(a: string, b: string, c: string)
    requires LexLe(a, b) && LexLe(b, c)
    ensures LexLe(a, c)
  {
    if a != [] && b != [] && c != [] && a[0] == b[0] && b[0] == c[0] {
      LexLeTrans(a[1..], b[1..], c[1..]);
    }
  }

  /** Bills in ascending order of period. */
  ghost predicate SortedByMonth(s: seq<Bill>)
  {
    forall i, j :: 0 <= i < j < |s| ==> LexLe(s[i].month, s[j].month)
  }

  /** Places `x` before the first bill whose period is not smaller, so that among
      equal periods the earlier input stays first (the sort is stable). */
  function InsertByMonth(x: Bill, t: seq<Bill>): (r: seq<Bill>)
    ensures |r| == |t| + 1
    ensures multiset(r) == multiset(t) + multiset{x}
  {
    if t == [] || LexLe(x.month, t[0].month) then [x] + t
    else
      assert t == [t[0]] + t[1..];
      [t[0]] + InsertByMonth(x, t[1..])
  }

  /** The copy of the bills sorted ascending by period (the input is not reordered:
      this is a new sequence). */
  function SortByMonth(s: seq<Bill>): (r: seq<Bill>)
    ensures |r| == |s|
    ensures multiset(r) == multiset(s)
  {
    if s == [] then []
    else
      assert s == [s[0]] + s[1..];
      InsertByMonth(s[0], SortByMonth(s[1..]))
  }

  lemma {:induction false} InsertKeepsSorted(x: Bill, t: seq<Bill>)
    requires SortedByMonth(t)
    ensures SortedByMonth(InsertByMonth(x, t))
  {
    if t == [] || LexLe(x.month, t[0].month) {
      var r := InsertByMonth(x, t);
      forall i, j | 0 <= i < j < |r| ensures LexLe(r[i].month, r[j].month) {
        if i == 0 {
          if j > 1 { LexLeTrans(x.month, t[0].month, t[j - 1].month); }
        }
      }
    } else {
      LexLeTotal(x.month, t[0].month);
      var rest := InsertByMonth(x, t[1..]);
      InsertKeepsSorted(x, t[1..]);
      var r := [t[0]] + rest;
      forall j | 0 < j < |r| ensures LexLe(t[0].month, r[j].month) {
        assert r[j] == rest[j - 1];
        assert rest[j - 1] in multiset(rest);
        if rest[j - 1] != x {
          assert rest[j - 1] in multiset(t[1..]);
          var k :| 0 <= k < |t[1..]| && t[1..][k] == rest[j - 1];
          assert t[k + 1] == rest[j - 1];
        }
      }
    }
  }

  /** The sorted copy is in ascending order of period. */
  lemma {:induction false} SortIsSorted(s: seq<Bill>)
    ensures SortedByMonth(SortByMonth(s))
  {
    if s != [] {
      SortIsSorted(s[1..]);
      InsertKeepsSorted(s[0], SortByMonth(s[1..]));
    }
  }

  /** The earliest (in input order) of the bills with the smallest period. */
  function MinFirst(s: seq<Bill>): Bill
    requires |s| > 0
  {
    if |s| == 1 then s[0]
    else
      var m := MinFirst(s[1..]);
      if LexLe(s[0].month, m.month) then s[0] else m
  }

  /** The latest (in input order) of the bills with the largest period. */
  function MaxLast(s: seq<Bill>): Bill
    requires |s| > 0
  {
    if |s| == 1 then s[0]
    else
      var m := MaxLast(s[1..]);
      if LexLe(s[0].month, m.month) then m else s[0]
  }

  lemma {:induction false} MinFirstIsLeast(s: seq<Bill>)
    requires |s| > 0
    ensures MinFirst(s) in s
    ensures forall j :: 0 <= j < |s| ==> LexLe(MinFirst(s).month, s[j].month)
  {
    if |s| == 1 {
      LexLeRefl(s[0].month);
    } else {
      MinFirstIsLeast(s[1..]);
      var m := MinFirst(s[1..]);
      LexLeTotal(s[0].month, m.month);
      LexLeRefl(s[0].month);
      forall j | 0 < j < |s| ensures LexLe(MinFirst(s).month, s[j].month) {
        assert s[j] == s[1..][j - 1];
        if LexLe(s[0].month, m.month) { LexLeTrans(s[0].month, m.month, s[j].month); }
      }
    }
  }

  lemma {:induction false} MaxLastIsGreatest(s: seq<Bill>)
    requires |s| > 0
    ensures MaxLast(s) in s
    ensures forall j :: 0 <= j < |s| ==> LexLe(s[j].month, MaxLast(s).month)
  {
    if |s| == 1 {
      LexLeRefl(s[0].month);
    } else {
      MaxLastIsGreatest(s[1..]);
      var m := MaxLast(s[1..]);
      LexLeTotal(s[0].month, m.month);
      LexLeRefl(s[0].month);
      forall j | 0 < j < |s| ensures LexLe(s[j].month, MaxLast(s).month) {
        assert s[j] == s[1..][j - 1];
        if !LexLe(s[0].month, m.month) { LexLeTrans(s[j].month, m.month, s[0].month); }
      }
    }
  }

  /** The first bill of the sorted copy is the earliest bill with the smallest period. */
  lemma {:induction false} SortFirst(s: seq<Bill>)
    requires |s| > 0
    ensures SortByMonth(s)[0] == MinFirst(s)
  {
    if |s| > 1 {
      SortFirst(s[1..]);
    }
  }

  lemma {:induction false} InsertLast(x: Bill, t: seq<Bill>)
    requires |t| > 0 && SortedByMonth(t)
    ensures InsertByMonth(x, t)[|t|] == if LexLe(x.month, t[|t| - 1].month) then t[|t| - 1] else x
  {
    if LexLe(x.month, t[0].month) {
      if |t| > 1 { LexLeTrans(x.month, t[0].month, t[|t| - 1].month); }
    } else if |t| > 1 {
      InsertLast(x, t[1..]);
    }
  }

  /** The last bill of the sorted copy is the latest bill with the largest period. */
  lemma {:induction false} SortLast(s: seq<Bill>)
    requires |s| > 0
    ensures SortByMonth(s)[|s| - 1] == MaxLast(s)
  {
    if |s| > 1 {
      SortLast(s[1..]);
      SortIsSorted(s[1..]);
      InsertLast(s[0], SortByMonth(s[1..]));
    }
  }

  // ---------------------------------------------------------------------------
  // Sums, averages and the forecast

  /** Which figure of a bill a statistic is about. */
  datatype Measure = Consumption | Amount

  function Read(b: Bill, m: Measure): real
  {
    match m
    case Consumption => b.consumption
    case Amount => b.value
  }

  /** The sum of one figure over all bills. */
  function Total(s: seq<Bill>, m: Measure): real
  {
    if s == [] then 0.0 else Read(s[0], m) + Total(s[1..], m)
  }

  lemma {:induction false} TotalAppend(a: seq<Bill>, b: seq<Bill>, m: Measure)
    ensures Total(a + b, m) == Total(a, m) + Total(b, m)
  {
    if a != [] {
      assert (a + b)[0] == a[0];
      assert (a + b)[1..] == a[1..] + b;
      TotalAppend(a[1..], b, m);
    } else {
      assert a + b == b;
    }
  }

  /** Taking the same bill out of two permutations of each other leaves two
      permutations of each other. */
  lemma RemoveMatchingHeads(a: seq<Bill>, b: seq<Bill>, i: nat)
    requires multiset(a) == multiset(b) && a != [] && i < |b| && b[i] == a[0]
    ensures multiset(a[1..]) == multiset(b[..i] + b[i + 1..])
  {
    var x := a[0];
    var left, right := b[..i], b[i + 1..];
    assert a == [x] + a[1..];
    assert b == left + [x] + right;
    var A, B := multiset(a[1..]), multiset(left + right);
    assert A + multiset{x} == multiset(a);
    assert B + multiset{x} == multiset(b);
    forall y ensures A[y] == B[y] {
      assert (A + multiset{x})[y] == (B + multiset{x})[y];
    }
  }

  /** A total is one bill's figure plus the total of the others. */
  lemma TotalRemoveAt(s: seq<Bill>, i: nat, m: Measure)
    requires i < |s|
    ensures Total(s, m) == Read(s[i], m) + Total(s[..i] + s[i + 1..], m)
  {
    var left, right := s[..i], s[i + 1..];
    assert s == left + [s[i]] + right;
    TotalAppend(left + [s[i]], right, m);
    TotalAppend(left, [s[i]], m);
    TotalAppend(left, right, m);
    assert [s[i]][1..] == [];
  }

  /** Reordering the bills does not change a total. */
  lemma {:induction false} TotalPermutation(a: seq<Bill>, b: seq<Bill>, m: Measure)
    requires multiset(a) == multiset(b)
    ensures Total(a, m) == Total(b, m)
  {
    if a == [] {
      assert |b| == |multiset(b)| == 0;
    } else {
      var x := a[0];
      assert x in multiset(b);
      var i :| 0 <= i < |b| && b[i] == x;
      var rest := b[..i] + b[i + 1..];
      RemoveMatchingHeads(a, b, i);
      TotalPermutation(a[1..], rest, m);
      TotalRemoveAt(b, i, m);
      assert Total(a, m) == Read(x, m) + Total(a[1..], m);
    }
  }

  /** The mean of one figure over all bills (the dashboard only asks for it when
      there is at least one bill). */
  function Average(s: seq<Bill>, m: Measure): (r: real)
    requires |s| > 0
    ensures r * (|s| as real) == Total(s, m)
  {
    Total(s, m) / (|s| as real)
  }

  /** The averages do not depend on the order of the bills. */
  lemma AverageIsOrderFree(a: seq<Bill>, b: seq<Bill>, m: Measure)
    requires |a| > 0 && multiset(a) == multiset(b)
    ensures |b| > 0 && Average(a, m) == Average(b, m)
  {
    assert |a| == |multiset(a)| == |multiset(b)| == |b|;
    TotalPermutation(a, b, m);
  }

  /** The next-month forecast: the average with a flat five-percent uplift. */
  function Predicted(s: seq<Bill>, m: Measure): (r: real)
    requires |s| > 0
    ensures r * (|s| as real) == 1.05 * Total(s, m)
  {
    Average(s, m) * 1.05
  }

  // ---------------------------------------------------------------------------
  // Trend

  datatype Trend = Up | Down

  /** "Up" when the last bill of the sorted copy has a strictly larger figure than
      the first one; otherwise (ties, a single bill) "down". */
  function TrendOf(s: seq<Bill>, m: Measure): Trend
    requires |s| > 0
  {
    var sorted := SortByMonth(s);
    if Read(sorted[|s| - 1], m) > Read(sorted[0], m) then Up else Down
  }

  /** The trend compares only the earliest smallest-period bill with the latest
      largest-period bill. */
  lemma TrendCompareEnds(s: seq<Bill>, m: Measure)
    requires |s| > 0
    ensures TrendOf(s, m) == Up <==> Read(MaxLast(s), m) > Read(MinFirst(s), m)
  {
    SortFirst(s);
    SortLast(s);
  }

  /** One bill never shows a rising trend. */
  lemma SingleBillTrendIsDown(b: Bill, m: Measure)
    ensures TrendOf([b], m) == Down
  {
  }

  lemma {:induction false} MinFirstIgnoresLaterPeriod(s: seq<Bill>, i: nat, b: Bill)
    requires 0 < |s| && i <= |s|
    requires !LexLe(b.month, MinFirst(s).month)
    ensures MinFirst(s[..i] + [b] + s[i..]) == MinFirst(s)
  {
    var t := s[..i] + [b] + s[i..];
    if i == 0 {
      assert t == [b] + s;
      assert t[1..] == s;
    } else if |s| == 1 {
      assert t == [s[0], b];
      assert t[1..] == [b];
      LexLeTotal(s[0].month, b.month);
    } else {
      var tail := s[1..];
      var t1 := tail[..i - 1] + [b] + tail[i - 1..];
      assert t == [s[0]] + t1;
      assert t[1..] == t1;
      var m1 := MinFirst(tail);
      if !LexLe(b.month, m1.month) {
        MinFirstIgnoresLaterPeriod(tail, i - 1, b);
      } else {
        // The smallest period of s is s[0]'s, strictly below b and everything in the tail.
        assert MinFirst(s) == s[0] by {
          if MinFirst(s) == m1 { assert false; }
        }
        MinFirstIsLeast(t1);
        InsertedMembers(tail, i - 1, b);
        var w := MinFirst(t1);
        if w == b {
          LexLeTotal(b.month, s[0].month);
        } else {
          MinFirstBelowMember(tail, w);
          LexLeTrans(s[0].month, m1.month, w.month);
        }
      }
    }
  }

  lemma {:induction false} MaxLastIgnoresEarlierPeriod(s: seq<Bill>, i: nat, b: Bill)
    requires 0 < |s| && i <= |s|
    requires !LexLe(MaxLast(s).month, b.month)
    ensures MaxLast(s[..i] + [b] + s[i..]) == MaxLast(s)
  {
    var t := s[..i] + [b] + s[i..];
    LexLeTotal(MaxLast(s).month, b.month);
    if i == 0 {
      assert t == [b] + s;
      assert t[1..] == s;
    } else if |s| == 1 {
      assert t == [s[0], b];
      assert t[1..] == [b];
    } else {
      var tail := s[1..];
      var t1 := tail[..i - 1] + [b] + tail[i - 1..];
      assert t == [s[0]] + t1;
      assert t[1..] == t1;
      var m1 := MaxLast(tail);
      if !LexLe(m1.month, b.month) {
        MaxLastIgnoresEarlierPeriod(tail, i - 1, b);
      } else {
        // The largest period of s is s[0]'s, strictly above b and everything in the tail.
        assert MaxLast(s) == s[0] && !LexLe(s[0].month, m1.month) by {
          if MaxLast(s) == m1 { assert false; }
        }
        MaxLastIsGreatest(t1);
        InsertedMembers(tail, i - 1, b);
        var w := MaxLast(t1);
        if w != b {
          MaxLastAboveMember(tail, w);
          if LexLe(s[0].month, w.month) { LexLeTrans(s[0].month, w.month, m1.month); }
        }
      }
    }
  }

  /** A bill of a list with one bill inserted is that bill or one of the list's. */
  lemma InsertedMembers(s: seq<Bill>, i: nat, b: Bill)
    requires i <= |s|
    ensures forall w :: w in s[..i] + [b] + s[i..] ==> w == b || w in s
  {
    assert s == s[..i] + s[i..];
  }

  lemma MinFirstBelowMember(s: seq<Bill>, w: Bill)
    requires w in s
    ensures LexLe(MinFirst(s).month, w.month)
  {
    MinFirstIsLeast(s);
    var k :| 0 <= k < |s| && s[k] == w;
  }

  lemma MaxLastAboveMember(s: seq<Bill>, w: Bill)
    requires w in s
    ensures LexLe(w.month, MaxLast(s).month)
  {
    MaxLastIsGreatest(s);
    var k :| 0 <= k < |s| && s[k] == w;
  }

  /** Adding a bill, anywhere in the list, whose period lies strictly between the
      first and the last period leaves both trends unchanged. */
  lemma TrendIgnoresMiddlePeriod(s: seq<Bill>, i: nat, b: Bill, m: Measure)
    requires 0 < |s| && i <= |s|
    requires !LexLe(b.month, MinFirst(s).month) && !LexLe(MaxLast(s).month, b.month)
    ensures TrendOf(s[..i] + [b] + s[i..], m) == TrendOf(s, m)
  {
    var t := s[..i] + [b] + s[i..];
    MinFirstIgnoresLaterPeriod(s, i, b);
    MaxLastIgnoresEarlierPeriod(s, i, b);
    TrendCompareEnds(s, m);
    TrendCompareEnds(t, m);
  }

  // ---------------------------------------------------------------------------
  // Chart series

  datatype ChartLabel = PeriodLabel(period: string) | ForecastLabel

  datatype ChartPoint = ChartPoint(when: ChartLabel, consumption: real, value: real, isPrediction: bool)

  function PointOf(b: Bill): ChartPoint
  {
    ChartPoint(PeriodLabel(b.month), b.consumption, b.value, false)
  }

  /** One point per bill in period order, then the forecast point for paid tiers only. */
  function ChartSeries(s: seq<Bill>, plan: Plan): (r: seq<ChartPoint>)
    requires |s| > 0
    ensures |r| == if HasAdvancedFeatures(plan) then |s| + 1 else |s|
    ensures forall i :: 0 <= i < |s| ==> r[i] == PointOf(SortByMonth(s)[i])
    ensures forall i :: 0 <= i < |s| ==> r[i].when.PeriodLabel? && !r[i].isPrediction
    ensures forall i, j :: 0 <= i < j < |s| ==> LexLe(r[i].when.period, r[j].when.period)
    ensures (exists i :: 0 <= i < |r| && r[i].isPrediction) <==> HasAdvancedFeatures(plan)
    ensures HasAdvancedFeatures(plan) ==>
      r[|s|] == ChartPoint(ForecastLabel, Predicted(s, Consumption), Predicted(s, Amount), true)
  {
    SortIsSorted(s);
    var sorted := SortByMonth(s);
    var points := seq(|sorted|, i requires 0 <= i < |sorted| => PointOf(sorted[i]));
    if HasAdvancedFeatures(plan) then
      var r := points + [ChartPoint(ForecastLabel, Predicted(s, Consumption), Predicted(s, Amount), true)];
      assert r[|s|].isPrediction;
      r
    else
      assert forall i :: 0 <= i < |points| ==> !points[i].isPrediction;
      points
  }

  // ---------------------------------------------------------------------------
  // Tips

  /** Tips keyed by the appliances of the onboarding answers, and the two generic ones. */
  datatype ApplianceTip = AcTip | ShowerTip | FridgeTip | WasherTip | UnplugTip | LedTip

  function ApplianceTipRank(t: ApplianceTip): nat
  {
    match t
    case AcTip => 0
    case ShowerTip => 1
    case FridgeTip => 2
    case WasherTip => 3
    case UnplugTip => 4
    case LedTip => 5
  }

  /** The answers list the appliance (no answers: it does not). */
  predicate Owns(quiz: Option<QuizData>, id: string)
  {
    quiz.Some? && id in quiz.value.appliances
  }

  predicate OwnsTippedAppliance(quiz: Option<QuizData>)
  {
    Owns(quiz, "ac") || Owns(quiz, "shower") || Owns(quiz, "fridge") || Owns(quiz, "washer")
  }

  ghost predicate AscendingTips(r: seq<ApplianceTip>)
  {
    forall i, j :: 0 <= i < j < |r| ==> ApplianceTipRank(r[i]) < ApplianceTipRank(r[j])
  }

  /** Pushing `t` onto `acc` when `c` holds, `t` ranking after everything already there. */
  function PushIf(acc: seq<ApplianceTip>, c: bool, t: ApplianceTip): (r: seq<ApplianceTip>)
    requires AscendingTips(acc)
    requires forall x :: x in acc ==> ApplianceTipRank(x) < ApplianceTipRank(t)
    ensures AscendingTips(r)
    ensures |r| == |acc| + (if c then 1 else 0)
    ensures forall x :: x in r <==> x in acc || (c && x == t)
  {
    if c then acc + [t] else acc
  }

  /** One tip per owned appliance among ac, shower, fridge and washer, in that order. */
  function ApplianceTips(quiz: Option<QuizData>): (r: seq<ApplianceTip>)
    ensures |r| <= 4
    ensures r == [] <==> !OwnsTippedAppliance(quiz)
    ensures AcTip in r <==> Owns(quiz, "ac")
    ensures ShowerTip in r <==> Owns(quiz, "shower")
    ensures FridgeTip in r <==> Owns(quiz, "fridge")
    ensures WasherTip in r <==> Owns(quiz, "washer")
    ensures UnplugTip !in r && LedTip !in r
    ensures AscendingTips(r)
  {
    var r := PushIf([], Owns(quiz, "ac"), AcTip);
    var r := PushIf(r, Owns(quiz, "shower"), ShowerTip);
    var r := PushIf(r, Owns(quiz, "fridge"), FridgeTip);
    PushIf(r, Owns(quiz, "washer"), WasherTip)
  }

  /** The appliance tips, or exactly the two generic tips when no tipped
      appliance is owned: never empty, at most four. */
  function Tips(quiz: Option<QuizData>): (r: seq<ApplianceTip>)
    ensures 1 <= |r| <= 4
    ensures AcTip in r <==> Owns(quiz, "ac")
    ensures ShowerTip in r <==> Owns(quiz, "shower")
    ensures FridgeTip in r <==> Owns(quiz, "fridge")
    ensures WasherTip in r <==> Owns(quiz, "washer")
    ensures UnplugTip in r <==> !OwnsTippedAppliance(quiz)
    ensures LedTip in r <==> !OwnsTippedAppliance(quiz)
    ensures forall i, j :: 0 <= i < j < |r| ==> ApplianceTipRank(r[i]) < ApplianceTipRank(r[j])
  {
    var specific := ApplianceTips(quiz);
    if specific == [] then [UnplugTip, LedTip]
    else
      assert AscendingTips(specific);
      specific
  }

  /** Tips for paid tiers, driven by the consumption statistics. */
  datatype PersonalTip = RisingUseTip | HighUseTip | PerCapitaTip

  function PersonalTipRank(t: PersonalTip): nat
  {
    match t
    case RisingUseTip => 0
    case HighUseTip => 1
    case PerCapitaTip => 2
  }

  const HighUseThreshold: real := 400.0
  const PerCapitaThreshold: real := 150.0

  /** The residents count is usable (JavaScript truthiness: non-zero) and the
      per-resident average consumption is above the threshold. */
  predicate HighPerCapita(s: seq<Bill>, quiz: Option<QuizData>)
    requires |s| > 0
  {
    quiz.Some? && quiz.value.residents != 0 &&
    Average(s, Consumption) / (quiz.value.residents as real) > PerCapitaThreshold
  }

  /** Empty for the free tier; otherwise, in this order, the rising-use tip iff the
      consumption trend is up, the high-use tip iff the average is above 400, and
      the per-capita tip iff the per-resident average is above 150. */
  function PersonalTips(s: seq<Bill>, quiz: Option<QuizData>, plan: Plan): (r: seq<PersonalTip>)
    requires |s| > 0
    ensures |r| <= 3
    ensures !HasAdvancedFeatures(plan) ==> r == []
    ensures RisingUseTip in r <==> HasAdvancedFeatures(plan) && TrendOf(s, Consumption) == Up
    ensures HighUseTip in r <==> HasAdvancedFeatures(plan) && Average(s, Consumption) > HighUseThreshold
    ensures PerCapitaTip in r <==> HasAdvancedFeatures(plan) && HighPerCapita(s, quiz)
    ensures forall i, j :: 0 <= i < j < |r| ==> PersonalTipRank(r[i]) < PersonalTipRank(r[j])
  {
    if !HasAdvancedFeatures(plan) then []
    else
      (if TrendOf(s, Consumption) == Up then [RisingUseTip] else []) +
      (if Average(s, Consumption) > HighUseThreshold then [HighUseTip] else []) +
      (if HighPerCapita(s, quiz) then [PerCapitaTip] else [])
  }

  // ---------------------------------------------------------------------------
  // The dashboard as a whole

  datatype Report = Report(
    avgConsumption: real, avgValue: real,
    predictedConsumption: real, predictedValue: real,
    consumptionTrend: Trend, valueTrend: Trend,
    chart: seq<ChartPoint>, tips: seq<ApplianceTip>, personalTips: seq<PersonalTip>)

  /** What the dashboard shows: nothing computed for no bills (the empty case is
      decided before any division), otherwise the full report. */
  function Render(s: seq<Bill>, quiz: Option<QuizData>, plan: Plan): (r: Option<Report>)
    ensures r.None? <==> s == []
  {
    if s == [] then None
    else Some(Report(
      Average(s, Consumption), Average(s, Amount),
      Predicted(s, Consumption), Predicted(s, Amount),
      TrendOf(s, Consumption), TrendOf(s, Amount),
      ChartSeries(s, plan), Tips(quiz), PersonalTips(s, quiz, plan)))
  }

  /** The report's plan-dependent parts: the forecast point and the personal tips
      appear only for the paid tiers, the appliance tips for every tier. */
  lemma RenderGating(s: seq<Bill>, quiz: Option<QuizData>, plan: Plan)
    requires s != []
    ensures |Render(s, quiz, plan).value.chart| == (if HasAdvancedFeatures(plan) then |s| + 1 else |s|)
    ensures !HasAdvancedFeatures(plan) ==> Render(s, quiz, plan).value.personalTips == []
    ensures 1 <= |Render(s, quiz, plan).value.tips| <= 4
  {
    var r := Render(s, quiz, plan).value;
    assert r.chart == ChartSeries(s, plan);
    assert r.personalTips == PersonalTips(s, quiz, plan);
    assert r.tips == Tips(quiz);
  }

  /** Two bills, January 300 kWh and March 400 kWh: average 350, rising, forecast 367.5. */
  lemma TwoBillScenario(a: Bill, b: Bill)
    requires a.month == "2024-01" && a.consumption == 300.0
    requires b.month == "2024-03" && b.consumption == 400.0
    ensures Average([a, b], Consumption) == 350.0
    ensures TrendOf([a, b], Consumption) == Up
    ensures Predicted([a, b], Consumption) == 367.5
  {
    assert [a, b][1..] == [b];
    assert [b][1..] == [];
    assert Total([b], Consumption) == 400.0;
    assert Total([a, b], Consumption) == 700.0;
    assert LexLe(a.month, b.month) by {
      assert a.month[..5] == b.month[..5] by { assert a.month[..5] == "2024-"; assert b.month[..5] == "2024-"; }
      assert a.month == "2024-" + "01";
      assert b.month == "2024-" + "03";
      LexLeCommonPrefix("2024-", "01", "03");
    }
    assert !LexLe(b.month, a.month) by {
      assert a.month == "2024-" + "01";
      assert b.month == "2024-" + "03";
      LexLeCommonPrefix("2024-", "03", "01");
    }
  }

  lemma {:induction false} LexLeCommonPrefix(p: string, a: string, b: string)
    ensures LexLe(p + a, p + b) == LexLe(a, b)
  {
    if p == [] { assert p + a == a && p + b == b; }
    if p != [] {
      assert (p + a)[0] == p[0] == (p + b)[0];
      assert (p + a)[1..] == p[1..] + a;
      assert (p + b)[1..] == p[1..] + b;
      LexLeCommonPrefix(p[1..], a, b);
    }
  }
}
