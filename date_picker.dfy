/**
 * The birth-date picker: the day, month and year it starts from (read back
 * from its `value` string), the days it offers for a month, the years it
 * offers, the `yyyy-mm-dd` string it confirms and the `dd/mm/yyyy` text it shows.
 */
module DatePicker {
  import opened JsString

  /** `selectedDate`: the three numbers the picker holds, each possibly NaN. */
  datatype PickerDate = PickerDate(day: Num, month: Num, year: Num)

  /** The element `i` of an array of strings as `parseInt` or a template
      string sees it: a missing element is `undefined`, spelt "undefined". */
  function Part(parts: seq<string>, i: nat): (p: string)
    ensures i < |parts| ==> p == parts[i]
  {
    if i < |parts| then parts[i] else "undefined"
  }

  /** The date the picker starts from: the parts of a non-empty `value`,
      read with `parseInt`, and 1 January 2000 for an empty one. */
  function InitialDate(value: string): PickerDate {
    if value == "" then PickerDate(Int(1), Int(1), Int(2000))
    else
      var parts := Split(value, '-');
      PickerDate(ParseInt(Part(parts, 2)), ParseInt(Part(parts, 1)), ParseInt(Part(parts, 0)))
  }

  /** A number as `padStart(2, '0')` renders it after `toString()`. */
  function TwoDigits(x: Num): string {
    PadStart(NumToString(x), 2, '0')
  }

  /** `handleDateConfirm`'s `yyyy-mm-dd` string. */
  function FormatDate(d: PickerDate): (s: string)
    ensures s != ""
  {
    NumToString(d.year) + "-" + TwoDigits(d.month) + "-" + TwoDigits(d.day)
  }

  /** `formatDisplayDate`: `dd/mm/yyyy` from the parts of a `yyyy-mm-dd` string. */
  function FormatDisplayDate(s: string): string {
    if s == "" then ""
    else
      var parts := Split(s, '-');
      Part(parts, 2) + "/" + Part(parts, 1) + "/" + Part(parts, 0)
  }

  /** The text of the selector: the formatted value, or the placeholder when there is none. */
  function SelectorText(value: string, placeholder: string): (t: string)
    ensures value == "" ==> t == placeholder
    ensures value != "" ==> t == FormatDisplayDate(value)
  {
    if value != "" then FormatDisplayDate(value) else placeholder
  }

  /** The pieces of a formatted non-negative date. */
  lemma NoDashInPadded(n: nat)
    ensures '-' !in PadStart(NatToString(n), 2, '0')
  {
    var s := NatToString(n);
    var r := PadStart(s, 2, '0');
    forall i | 0 <= i < |r|
      ensures r[i] != '-'
    {
      if i >= |r| - |s| {
        assert r[i] == r[|r| - |s|..][i - (|r| - |s|)];
      }
    }
  }

  lemma JoinThree(a: string, b: string, c: string)
    ensures Join([a, b, c], '-') == a + "-" + b + "-" + c
  {
    var parts := [a, b, c];
    assert parts[1..] == [b, c];
    assert parts[1..][1..] == [c];
    assert Join([b, c], '-') == b + "-" + c;
  }

  /** A confirmed date of non-negative numbers splits at its dashes into
      the year, the month and the day. */
  lemma {:induction false} SplitOfFormat(day: nat, month: nat, year: nat)
    ensures Split(FormatDate(PickerDate(Int(day), Int(month), Int(year))), '-')
         == [NatToString(year), TwoDigits(Int(month)), TwoDigits(Int(day))]
  {
    var y := NatToString(year);
    var m := TwoDigits(Int(month));
    var d := TwoDigits(Int(day));
    NoDashInPadded(month);
    NoDashInPadded(day);
    assert '-' !in y by {
      forall i | 0 <= i < |y| ensures y[i] != '-' { assert IsDigit(y[i]); }
    }
    var parts := [y, m, d];
    JoinThree(y, m, d);
    SplitJoin(parts, '-');
  }

  /** `parseInt` reads a two-digit rendering of a non-negative number back. */
  lemma ParseTwoDigits(n: nat)
    ensures ParseInt(TwoDigits(Int(n))) == Int(n)
  {
    assert NumToString(Int(n)) == NatToString(n);
    ParsePadded(n, 2);
  }

  /** Confirming a date of non-negative numbers and opening the picker on the
      result restores the same day, month and year. */
  lemma {:induction false} InitialDateOfFormat(day: nat, month: nat, year: nat)
    ensures InitialDate(FormatDate(PickerDate(Int(day), Int(month), Int(year))))
         == PickerDate(Int(day), Int(month), Int(year))
  {
    var s := FormatDate(PickerDate(Int(day), Int(month), Int(year)));
    var parts := Split(s, '-');
    SplitOfFormat(day, month, year);
    assert InitialDate(s) == PickerDate(ParseInt(parts[2]), ParseInt(parts[1]), ParseInt(parts[0]));
    ParseTwoDigits(day);
    ParseTwoDigits(month);
    ParseIntToString(year);
  }

  /** A value parsed back from a confirmed date is shown as `dd/mm/yyyy`. */
  lemma {:induction false} DisplayOfFormat(day: nat, month: nat, year: nat)
    ensures FormatDisplayDate(FormatDate(PickerDate(Int(day), Int(month), Int(year))))
         == TwoDigits(Int(day)) + "/" + TwoDigits(Int(month)) + "/" + NatToString(year)
  {
    SplitOfFormat(day, month, year);
  }

  /** A value with no dash at all is shown with "undefined" for the day and the month. */
  lemma DisplayOfDashless(s: string)
    requires s != "" && '-' !in s
    ensures FormatDisplayDate(s) == "undefined/undefined/" + s
  {
    SplitWhole(s, '-');
  }

  // `new Date(year, month, 0).getDate()`, following MakeDay and MakeDate of
  // section 21.4.1 of ECMA-262.

  predicate IsLeap(y: int) {
    (y % 4 == 0 && y % 100 != 0) || y % 400 == 0
  }

  /** The length of month `m` (1 to 12) of the proleptic Gregorian year `y`. */
  function MonthLength(y: int, m: int): (n: int)
    requires 1 <= m <= 12
    ensures 28 <= n <= 31
    ensures m == 2 ==> (n == 29 <==> IsLeap(y))
  {
    if m == 2 then (if IsLeap(y) then 29 else 28)
    else if m == 4 || m == 6 || m == 9 || m == 11 then 30
    else 31
  }

  /** The year the `Date` constructor uses: years 0 to 99 mean 1900 to 1999. */
  function FullYear(y: int): int {
    if 0 <= y <= 99 then 1900 + y else y
  }

  /** `getDate()` of day 0 of month index `month` (0-based) of `year`: the last
      day of the month before, after folding the month index into the year. */
  function DaysInMonth(month: Num, year: Num): (r: Num)
    ensures r.NaN? <==> month.NaN? || year.NaN?
    ensures r.Int? ==> 28 <= r.value <= 31
  {
    if month.NaN? || year.NaN? then NaN
    else
      var ym := FullYear(year.value) + month.value / 12;
      var mn := month.value % 12;
      if mn == 0 then Int(31) else Int(MonthLength(ym, mn))
  }

  /** For months 1 to 12 the picker offers the Gregorian length of that month. */
  lemma DaysInMonthGregorian(month: int, year: int)
    requires 1 <= month <= 12
    ensures DaysInMonth(Int(month), Int(year)) == Int(MonthLength(FullYear(year), month))
  {
  }

  /** Month 13 and month 0 fold into the neighbouring years. */
  lemma DaysInMonthFolds(year: int)
    requires year < -1 || year > 100
    ensures DaysInMonth(Int(13), Int(year)) == DaysInMonth(Int(1), Int(year + 1))
    ensures DaysInMonth(Int(0), Int(year)) == DaysInMonth(Int(12), Int(year - 1))
  {
  }

  /** A two-digit year is read as a year of the 1900s: February of year 0 is
      February 1900, which has 28 days, while February 2000 has 29. */
  lemma TwoDigitYears()
    ensures DaysInMonth(Int(2), Int(0)) == Int(28)
    ensures DaysInMonth(Int(2), Int(2000)) == Int(29)
    ensures DaysInMonth(Int(2), Int(96)) == Int(29)
  {
  }

  /** `Array.from({ length: n }, (_, i) => i + 1)`: the days 1 to n, none for NaN. */
  function DayOptions(n: Num): (days: seq<int>)
    ensures n.NaN? ==> days == []
    ensures n.Int? && n.value >= 0 ==> |days| == n.value
    ensures forall i :: 0 <= i < |days| ==> days[i] == i + 1
  {
    if n.NaN? || n.value <= 0 then [] else OneTo(n.value)
  }

  function OneTo(n: nat): (r: seq<int>)
    ensures |r| == n
    ensures forall i :: 0 <= i < n ==> r[i] == i + 1
  {
    if n == 0 then [] else OneTo(n - 1) + [n]
  }

  /** `years.reverse()`. */
  function Reversed(s: seq<int>): (r: seq<int>)
    ensures |r| == |s|
    ensures forall i :: 0 <= i < |s| ==> r[i] == s[|s| - 1 - i]
  {
    if s == [] then [] else [s[|s| - 1]] + Reversed(s[..|s| - 1])
  }

  /** `generateYears`: every year from 80 to 15 years before `currentYear`, latest first. */
  method GenerateYears(currentYear: int) returns (years: seq<int>)
    ensures |years| == 66
    ensures forall i :: 0 <= i < |years| ==> years[i] == currentYear - 15 - i
    ensures forall y :: y in years <==> currentYear - 80 <= y <= currentYear - 15
  {
    var ascending: seq<int> := [];
    var year := currentYear - 80;
    while year <= currentYear - 15
      invariant currentYear - 80 <= year <= currentYear - 14
      invariant |ascending| == year - (currentYear - 80)
      invariant forall i :: 0 <= i < |ascending| ==> ascending[i] == currentYear - 80 + i
    {
      ascending := ascending + [year];
      year := year + 1;
    }
    years := Reversed(ascending);
    forall y | currentYear - 80 <= y <= currentYear - 15
      ensures y in years
    {
      assert years[currentYear - 15 - y] == y;
    }
  }

  /** The picker's own state; `value` is owned by the caller and only read at creation. */
  class Picker {
    var selected: PickerDate
    var modalVisible: bool

    constructor (value: string)
      ensures selected == InitialDate(value) && !modalVisible
    {
      selected := InitialDate(value);
      modalVisible := false;
    }

    /** Pressing the selector. */
    method Open()
      modifies this
      ensures modalVisible && selected == old(selected)
    {
      modalVisible := true;
    }

    /** The close button, the cancel button or the back gesture: nothing is confirmed. */
    method Cancel()
      modifies this
      ensures !modalVisible && selected == old(selected)
    {
      modalVisible := false;
    }

    /** Pressing one of the offered days. */
    method PickDay(day: int)
      requires day in DayOptions(DaysInMonth(selected.month, selected.year))
      modifies this
      ensures selected == old(selected).(day := Int(day)) && modalVisible == old(modalVisible)
    {
      selected := selected.(day := Int(day));
    }

    /** Pressing the month at `index` of the twelve month names. */
    method PickMonth(index: nat)
      requires index < 12
      modifies this
      ensures selected == old(selected).(month := Int(index + 1)) && modalVisible == old(modalVisible)
    {
      selected := selected.(month := Int(index + 1));
    }

    /** Pressing one of the offered years. */
    method PickYear(year: int)
      modifies this
      ensures selected == old(selected).(year := Int(year)) && modalVisible == old(modalVisible)
    {
      selected := selected.(year := Int(year));
    }

    /** `handleDateConfirm`: the string handed to `onValueChange`; the modal closes. */
    method Confirm() returns (formatted: string)
      modifies this
      ensures formatted == FormatDate(selected) && selected == old(selected) && !modalVisible
    {
      formatted := FormatDate(selected);
      modalVisible := false;
    }
  }

  /** Changing the month keeps the chosen day even when the new month is
      shorter: 31 January becomes 31 February on confirmation. */
  lemma DayIsNotClamped()
    ensures DaysInMonth(Int(2), Int(2001)) == Int(28)
    ensures FormatDate(PickerDate(Int(31), Int(2), Int(2001))) == "2001-02-31"
  {
    assert !IsLeap(2001);
    assert NatToString(20) == "20";
    assert NatToString(200) == "200";
    assert NatToString(2001) == "2001";
    assert TwoDigits(Int(2)) == "02";
    assert NatToString(31) == "31";
    assert TwoDigits(Int(31)) == "31";
  }
}
