/** The three-step onboarding quiz: appliance toggling, the bounded step counter
    with its guards, and the answers it produces. */
module Quiz {
  import opened Records

  /** The values the house-size and residents radio groups offer. */
  const HouseSizeOptions: seq<string> := ["small", "medium", "large", "xlarge"]
  const ResidentOptions: seq<string> := ["1", "2", "3", "4", "5"]

  const FirstStep: int := 1
  const LastStep: int := 3

  // ---------------------------------------------------------------------------
  // Appliance selection

  /** The list without any occurrence of `x`, the rest in order. */
  function RemoveAll(s: seq<string>, x: string): (r: seq<string>)
    ensures |r| <= |s|
    ensures x in s ==> |r| < |s|
    ensures forall y :: y in r <==> y in s && y != x
  {
    if s == [] then []
    else if s[0] == x then RemoveAll(s[1..], x)
    else [s[0]] + RemoveAll(s[1..], x)
  }

  /** Clicking an appliance: a selected one is dropped, an unselected one is
      appended at the end. */
  function Toggle(s: seq<string>, x: string): (r: seq<string>)
    ensures x in r <==> x !in s
    ensures forall y :: y != x ==> (y in r <==> y in s)
    ensures x !in s ==> r == s + [x]
    ensures x in s ==> |r| < |s|
  {
    if x in s then RemoveAll(s, x) else s + [x]
  }

  lemma {:induction false} RemoveAbsent(s: seq<string>, x: string)
    requires x !in s
    ensures RemoveAll(s, x) == s
  {
    if s != [] {
      RemoveAbsent(s[1..], x);
      assert s == [s[0]] + s[1..];
    }
  }

  lemma {:induction false} RemoveAllAppend(a: seq<string>, b: seq<string>, x: string)
    ensures RemoveAll(a + b, x) == RemoveAll(a, x) + RemoveAll(b, x)
  {
    if a == [] {
      assert a + b == b;
    } else {
      assert (a + b)[0] == a[0];
      assert (a + b)[1..] == a[1..] + b;
      RemoveAllAppend(a[1..], b, x);
    }
  }

  /** Toggling an unselected appliance twice gives the original selection back. */
  lemma ToggleTwiceRestores(s: seq<string>, x: string)
    requires x !in s
    ensures Toggle(Toggle(s, x), x) == s
  {
    RemoveAllAppend(s, [x], x);
    RemoveAbsent(s, x);
    assert RemoveAll([x], x) == [];
  }

  ghost predicate Distinct(s: seq<string>)
  {
    forall i, j :: 0 <= i < j < |s| ==> s[i] != s[j]
  }

  lemma {:induction false} RemoveAllKeepsDistinct(s: seq<string>, x: string)
    requires Distinct(s)
    ensures Distinct(RemoveAll(s, x))
  {
    if s != [] {
      RemoveAllKeepsDistinct(s[1..], x);
      if s[0] != x {
        var rest := RemoveAll(s[1..], x);
        assert s[0] !in s[1..];
        assert s[0] !in rest;
        var r := [s[0]] + rest;
        forall i, j | 0 <= i < j < |r| ensures r[i] != r[j] {
          if i == 0 { assert r[j] == rest[j - 1]; assert rest[j - 1] in rest; }
        }
      }
    }
  }

  /** A selection without duplicates stays without duplicates. */
  lemma ToggleKeepsDistinct(s: seq<string>, x: string)
    requires Distinct(s)
    ensures Distinct(Toggle(s, x))
  {
    if x in s {
      RemoveAllKeepsDistinct(s, x);
    }
  }

  // ---------------------------------------------------------------------------
  // Residents

  predicate IsDigit(c: char)
  {
    '0' as int <= c as int <= '9' as int
  }

  /** The longest prefix of decimal digits. */
  function LeadingDigits(s: string): (r: string)
    ensures r <= s
    ensures forall i :: 0 <= i < |r| ==> IsDigit(r[i])
    ensures |r| < |s| ==> !IsDigit(s[|r|])
  {
    if s == [] || !IsDigit(s[0]) then [] else [s[0]] + LeadingDigits(s[1..])
  }

  function DecimalValue(ds: string): nat
    requires forall i :: 0 <= i < |ds| ==> IsDigit(ds[i])
  {
    if ds == [] then 0
    else
      assert IsDigit(ds[|ds| - 1]);
      10 * DecimalValue(ds[..|ds| - 1]) + (ds[|ds| - 1] as int - '0' as int)
  }

  /** The residents count: the integer its leading digits spell, or 1 when there
      are none (not a number) or the number is zero. */
  function ResidentsOf(s: string): (r: int)
    ensures r >= 1
    ensures |s| == 1 && IsDigit(s[0]) && s[0] != '0' ==> r == s[0] as int - '0' as int
  {
    var ds := LeadingDigits(s);
    assert |s| == 1 && IsDigit(s[0]) ==> ds == s && DecimalValue(ds) == s[0] as int - '0' as int by {
      if |s| == 1 && IsDigit(s[0]) {
        assert ds == s;
        assert ds[..|ds| - 1] == [];
      }
    }
    if ds == [] then 1
    else
      var n := DecimalValue(ds);
      if n == 0 then 1 else n
  }

  /** Each offered option gives its own number, so the count is within 1..5. */
  lemma ResidentOptionsGiveOneToFive(i: nat)
    requires i < |ResidentOptions|
    ensures ResidentsOf(ResidentOptions[i]) == i + 1
  {
    assert |ResidentOptions[i]| == 1 && ResidentOptions[i][0] == ('1' as int + i) as char;
  }

  // ---------------------------------------------------------------------------
  // The quiz screen

  /** "Next" is greyed out on the first step with nothing selected, and on the
      second step with no house size. */
  predicate NextDisabled(step: int, selected: seq<string>, houseSize: string)
  {
    (step == 1 && |selected| == 0) || (step == 2 && houseSize == "")
  }

  class QuizForm {
    var step: int
    var selectedAppliances: seq<string>
    var houseSize: string
    var residents: string

    /** The step stays within 1..3 and the radio fields hold offered values or nothing. */
    ghost predicate Valid()
      reads this
    {
      FirstStep <= step <= LastStep &&
      (houseSize == "" || houseSize in HouseSizeOptions) &&
      (residents == "" || residents in ResidentOptions)
    }

    constructor ()
      ensures Valid()
      ensures step == 1 && selectedAppliances == [] && houseSize == "" && residents == ""
    {
      step, selectedAppliances, houseSize, residents := 1, [], "", "";
    }

    method ToggleAppliance(id: string)
      requires Valid()
      modifies this
      ensures Valid()
      ensures selectedAppliances == Toggle(old(selectedAppliances), id)
      ensures step == old(step) && houseSize == old(houseSize) && residents == old(residents)
    {
      selectedAppliances := Toggle(selectedAppliances, id);
    }

    method ChooseHouseSize(v: string)
      requires Valid() && v in HouseSizeOptions
      modifies this
      ensures Valid()
      ensures houseSize == v
      ensures step == old(step) && selectedAppliances == old(selectedAppliances) && residents == old(residents)
    {
      houseSize := v;
    }

    method ChooseResidents(v: string)
      requires Valid() && v in ResidentOptions
      modifies this
      ensures Valid()
      ensures residents == v
      ensures step == old(step) && selectedAppliances == old(selectedAppliances) && houseSize == old(houseSize)
    {
      residents := v;
    }

    /** "Back" exists only past the first step. */
    method Back()
      requires Valid()
      modifies this
      ensures Valid()
      ensures step == if old(step) > FirstStep then old(step) - 1 else old(step)
      ensures selectedAppliances == old(selectedAppliances) && houseSize == old(houseSize) && residents == old(residents)
    {
      if step > FirstStep {
        step := step - 1;
      }
    }

    /** "Next" exists only before the last step and does nothing while greyed out. */
    method Next()
      requires Valid()
      modifies this
      ensures Valid()
      ensures step == if old(step) < LastStep && !NextDisabled(old(step), selectedAppliances, houseSize)
                      then old(step) + 1 else old(step)
      ensures selectedAppliances == old(selectedAppliances) && houseSize == old(houseSize) && residents == old(residents)
    {
      if step < LastStep && !NextDisabled(step, selectedAppliances, houseSize) {
        step := step + 1;
      }
    }

    /** "Start" exists on the last step and is greyed out until a residents
        option is chosen; it produces completed answers with the current
        selection, the chosen house size and the parsed residents count, which
        lies in 1..5. */
    method Finish() returns (data: Option<QuizData>)
      requires Valid()
      ensures data.Some? <==> step == LastStep && residents != ""
      ensures data.Some? ==>
        data.value.completed && data.value.appliances == selectedAppliances &&
        data.value.houseSize == houseSize && data.value.residents == ResidentsOf(residents) &&
        1 <= data.value.residents <= 5
    {
      if step == LastStep && residents != "" {
        var i :| 0 <= i < |ResidentOptions| && ResidentOptions[i] == residents;
        ResidentOptionsGiveOneToFive(i);
        data := Some(QuizData(true, selectedAppliances, houseSize, ResidentsOf(residents)));
      } else {
        data := None;
      }
    }
  }
}
