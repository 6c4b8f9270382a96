/**
 * The screen-level state record of `ui/screens/ActivityScreen.kt`, the older
 * `ActivityViewModel` that updates it one field at a time, and `formatNumber`,
 * which writes an `Int` with ',' between groups of three digits.
 */
module Screens {
  import opened Kotlin

  datatype ActivityUiState = ActivityUiState(steps: Int32 := 0, dailyGoal: Int32 := 5000)

  /** The record's defaults: no steps yet, a goal of 5000. */
  lemma DefaultState()
    ensures ActivityUiState().steps == 0 && ActivityUiState().dailyGoal == 5000
  {
  }

  class ActivityViewModel {
    var uiState: ActivityUiState

    constructor ()
      ensures uiState == ActivityUiState(steps := 4900, dailyGoal := 10000)
    {
      uiState := ActivityUiState(steps := 4900, dailyGoal := 10000);
    }

    /** `updateSteps`: replaces the step count and keeps the goal. */
    method UpdateSteps(steps: Int32)
      modifies this
      ensures uiState == old(uiState).(steps := steps)
      ensures uiState.steps == steps && uiState.dailyGoal == old(uiState).dailyGoal
    {
      uiState := uiState.(steps := steps);
    }

    /** `updateDailyGoal`: replaces the goal and keeps the step count. */
    method UpdateDailyGoal(goal: Int32)
      modifies this
      ensures uiState == old(uiState).(dailyGoal := goal)
      ensures uiState.dailyGoal == goal && uiState.steps == old(uiState).steps
    {
      uiState := uiState.(dailyGoal := goal);
    }
  }

  /** A view model whose state is `s`, built through the public updates. */
  method ViewModelAt(s: ActivityUiState) returns (vm: ActivityViewModel)
    ensures fresh(vm) && vm.uiState == s
  {
    vm := new ActivityViewModel();
    vm.UpdateSteps(s.steps);
    vm.UpdateDailyGoal(s.dailyGoal);
  }

  /**
   * From any state, applying an update twice leaves the same state as
   * applying it once, and the result then holds the argument.
   */
  method UpdatesAreIdempotent(start: ActivityUiState, steps: Int32, goal: Int32)
    returns (stepsOnce: ActivityUiState, stepsTwice: ActivityUiState,
             goalOnce: ActivityUiState, goalTwice: ActivityUiState)
    ensures stepsOnce == stepsTwice && stepsOnce == ActivityUiState(steps, start.dailyGoal)
    ensures goalOnce == goalTwice && goalOnce == ActivityUiState(start.steps, goal)
  {
    var a := ViewModelAt(start);
    var b := ViewModelAt(start);
    a.UpdateSteps(steps);
    b.UpdateSteps(steps);
    b.UpdateSteps(steps);
    stepsOnce, stepsTwice := a.uiState, b.uiState;
    var c := ViewModelAt(start);
    var d := ViewModelAt(start);
    c.UpdateDailyGoal(goal);
    d.UpdateDailyGoal(goal);
    d.UpdateDailyGoal(goal);
    goalOnce, goalTwice := c.uiState, d.uiState;
  }

  // ---------------------------------------------------------------------------
  // formatNumber
  // ---------------------------------------------------------------------------

  predicate IsDigit(c: char) {
    '0' <= c <= '9'
  }

  ghost predicate AllDigits(s: string) {
    forall i :: 0 <= i < |s| ==> IsDigit(s[i])
  }

  function Digit(d: int): (c: char)
    requires 0 <= d < 10
    ensures IsDigit(c)
  {
    (48 + d) as char
  }

  /** The plain decimal form of a non-negative number, as `toString` writes it. */
  function Decimal(n: nat): (s: string)
    ensures |s| >= 1 && IsDigit(s[0])
    decreases n
  {
    if n < 10 then [Digit(n)] else Decimal(n / 10) + [Digit(n % 10)]
  }

  /** A group of exactly three digits, zero-padded. */
  function Pad3(r: nat): (s: string)
    requires r < 1000
    ensures |s| == 3 && AllDigits(s)
  {
    [Digit(r / 100), Digit(r / 10 % 10), Digit(r % 10)]
  }

  /** The "#,###" pattern on a non-negative number. */
  function Grouped(n: nat): (s: string)
    ensures |s| >= 1 && IsDigit(s[0])
    ensures |s| <= 3 <==> n < 1000
    decreases n
  {
    if n < 1000 then DecimalDigits(n); Decimal(n) else Grouped(n / 1000) + "," + Pad3(n % 1000)
  }

  /** `formatNumber` with ',' as the grouping separator; negatives get a leading '-'. */
  function FormatNumber(number: Int32): (s: string)
    ensures |s| >= 1
    ensures s[0] == '-' <==> number < 0
    ensures number >= 0 ==> IsDigit(s[0]) && (|s| <= 3 <==> number < 1000)
  {
    if number < 0 then "-" + Grouped(-(number as int)) else Grouped(number)
  }

  /** The value of a string of decimal digits. */
  function DigitsValue(s: string): int {
    if s == [] then 0 else DigitsValue(s[..|s| - 1]) * 10 + (s[|s| - 1] as int - 48)
  }

  /** `s` with every ',' deleted. */
  function Uncomma(s: string): string {
    if s == [] then [] else (if s[0] == ',' then [] else [s[0]]) + Uncomma(s[1..])
  }

  /**
   * Digits grouped from the right: a first group of one to three digits, then
   * groups of exactly three, each after a ','.
   */
  ghost predicate GroupedForm(s: string) {
    && |s| % 4 != 0
    && (forall i :: 0 <= i < |s| ==> (s[i] == ',' <==> (|s| - i) % 4 == 0))
    && (forall i :: 0 <= i < |s| && s[i] != ',' ==> IsDigit(s[i]))
  }

  lemma {:induction false} DecimalDigits(n: nat)
    ensures AllDigits(Decimal(n)) && |Decimal(n)| >= 1
    ensures n < 1000 ==> |Decimal(n)| <= 3
    decreases n
  {
    if n >= 10 {
      DecimalDigits(n / 10);
    }
  }

  /** `Decimal` round-trips through `DigitsValue`. */
  lemma {:induction false} DecimalValue(n: nat)
    ensures DigitsValue(Decimal(n)) == n
    decreases n
  {
    if n >= 10 {
      DecimalValue(n / 10);
      var s := Decimal(n);
      assert s[..|s| - 1] == Decimal(n / 10);
    }
  }

  /** A positive number's decimal form has no leading zero. */
  lemma {:induction false} DecimalNoLeadingZero(n: nat)
    requires n > 0
    ensures Decimal(n)[0] != '0'
    decreases n
  {
    if n >= 10 {
      DecimalNoLeadingZero(n / 10);
    }
  }

  /** Splitting off the last three digits of a number of four or more digits. */
  lemma DecimalSplit(n: nat)
    requires n >= 1000
    ensures Decimal(n) == Decimal(n / 1000) + Pad3(n % 1000)
  {
    var q, r := n / 1000, n % 1000;
    assert n / 10 == 100 * q + r / 10;
    assert n / 100 == 10 * q + r / 100;
    assert n / 100 / 10 == q && n / 10 / 10 == n / 100;
    assert n / 100 % 10 == r / 100;
    assert n / 10 % 10 == r / 10 % 10;
    assert n % 10 == r % 10;
    calc {
      Decimal(n);
      Decimal(n / 10) + [Digit(n % 10)];
      Decimal(n / 100) + [Digit(n / 10 % 10)] + [Digit(n % 10)];
      Decimal(q) + [Digit(n / 100 % 10)] + [Digit(n / 10 % 10)] + [Digit(n % 10)];
      Decimal(q) + Pad3(r);
    }
  }

  lemma {:induction false} UncommaAppend(a: string, b: string)
    ensures Uncomma(a + b) == Uncomma(a) + Uncomma(b)
    decreases |a|
  {
    if a == [] {
      assert a + b == b;
    } else {
      assert (a + b)[1..] == a[1..] + b;
      UncommaAppend(a[1..], b);
    }
  }

  lemma {:induction false} UncommaDigits(s: string)
    requires AllDigits(s)
    ensures Uncomma(s) == s
    decreases |s|
  {
    if s != [] {
      UncommaDigits(s[1..]);
    }
  }

  /** Deleting the separators gives back the plain decimal form. */
  lemma {:induction false} GroupedUncomma(n: nat)
    ensures Uncomma(Grouped(n)) == Decimal(n)
    decreases n
  {
    if n < 1000 {
      DecimalDigits(n);
      UncommaDigits(Decimal(n));
    } else {
      var g, p := Grouped(n / 1000), Pad3(n % 1000);
      GroupedUncomma(n / 1000);
      UncommaAppend(g + ",", p);
      UncommaAppend(g, ",");
      UncommaDigits(p);
      DecimalSplit(n);
    }
  }

  /** One more group of three digits after a ',' keeps the grouped form. */
  lemma GroupedFormExtend(g: string, p: string)
    requires GroupedForm(g) && |p| == 3 && AllDigits(p)
    ensures GroupedForm(g + "," + p)
  {
  }

  /** The separators stand exactly every fourth place from the right. */
  lemma {:induction false} GroupedShape(n: nat)
    ensures GroupedForm(Grouped(n))
    decreases n
  {
    if n < 1000 {
      DecimalDigits(n);
    } else {
      GroupedShape(n / 1000);
      GroupedFormExtend(Grouped(n / 1000), Pad3(n % 1000));
    }
  }

  /**
   * For a non-negative number, `formatNumber` writes its digits grouped in
   * threes from the right, and deleting the commas gives the decimal form.
   */
  lemma FormatNumberNonNegative(number: Int32)
    requires number >= 0
    ensures GroupedForm(FormatNumber(number))
    ensures Uncomma(FormatNumber(number)) == Decimal(number)
    ensures DigitsValue(Uncomma(FormatNumber(number))) == number
  {
    GroupedShape(number);
    GroupedUncomma(number);
    DecimalValue(number);
  }

  /** A negative number is its magnitude, grouped, after a '-'. */
  lemma FormatNumberNegative(number: Int32)
    requires number < 0
    ensures var s := FormatNumber(number);
      |s| > 1 && s[0] == '-' && GroupedForm(s[1..]) && Uncomma(s[1..]) == Decimal(-(number as int))
  {
    var s := FormatNumber(number);
    var magnitude: nat := -(number as int);
    assert s[1..] == Grouped(magnitude);
    GroupedShape(magnitude);
    GroupedUncomma(magnitude);
  }
}
