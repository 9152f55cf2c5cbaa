/**
 * The data types of the time tracker and the pure builders over them:
 * the default categories, an empty day, fresh application data, and the
 * `YYYY-MM-DD` date key.
 *
 * All values have value semantics. In the program, `initializeAppData`
 * hands out the shared `DEFAULT_CATEGORIES` array itself, so a later
 * `push` or `Object.assign` on the cached categories also alters the
 * defaults; that aliasing is deliberately not reproduced here.
 */
module Types {
  import opened Wrappers

  /** A colored label; `darkColor` is optional in the stored document. */
  datatype Category = Category(id: string, name: string, color: string, darkColor: Option<string>)

  /** One hour slot of a day; `categoryId` is `string | null`. */
  datatype TimeBlock = TimeBlock(hour: int, categoryId: Option<string>)

  /** One calendar date and its blocks. */
  datatype Day = Day(date: string, blocks: seq<TimeBlock>)

  /** The whole persisted document: categories in display order, days by date key. */
  datatype AppData = AppData(categories: seq<Category>, days: map<string, Day>)

  /** JavaScript truthiness of a `string | null` reference: null and "" are both falsy. */
  predicate Assigned(categoryId: Option<string>)
  {
    categoryId.Some? && categoryId.value != ""
  }

  predicate DistinctIds(categories: seq<Category>)
  {
    forall i, j :: 0 <= i < j < |categories| ==> categories[i].id != categories[j].id
  }

  /** Block `i` is the block of hour `i`. */
  predicate HourIndexed(blocks: seq<TimeBlock>)
  {
    forall i :: 0 <= i < |blocks| ==> blocks[i].hour == i
  }

  /** `DEFAULT_CATEGORIES`: the six built-in categories. */
  function DefaultCategories(): (r: seq<Category>)
    ensures |r| == 6 && DistinctIds(r)
    ensures forall i :: 0 <= i < |r| ==> r[i].darkColor.Some?
  {
    [ Category("rest", "Rest", "#D4C5F9", Some("#9B8FD9")),
      Category("work", "Work", "#ADD5F7", Some("#7EB7E8")),
      Category("movement", "Movement", "#F5E6D3", Some("#D9C29F")),
      Category("connection", "Connection", "#F7D4E0", Some("#E89FAF")),
      Category("learning", "Learning", "#D4F7E3", Some("#9FD9B8")),
      Category("creative", "Creative", "#F7F0D4", Some("#D9CE9F")) ]
  }

  /** `initializeEmptyDay`: 24 unassigned blocks, block `i` for hour `i`. */
  function InitializeEmptyDay(date: string): (day: Day)
    ensures day.date == date && |day.blocks| == 24 && HourIndexed(day.blocks)
    ensures forall i :: 0 <= i < |day.blocks| ==> day.blocks[i].categoryId == None
  {
    Day(date, seq(24, hour => TimeBlock(hour, None)))
  }

  /** The hours of an empty day are exactly 0..23, each held by one block. */
  lemma EmptyDayHours(date: string, hour: int)
    ensures (exists i :: 0 <= i < 24 && InitializeEmptyDay(date).blocks[i].hour == hour) <==> 0 <= hour < 24
    ensures forall i, j :: 0 <= i < j < 24 ==> InitializeEmptyDay(date).blocks[i].hour != InitializeEmptyDay(date).blocks[j].hour
  {
    var blocks := InitializeEmptyDay(date).blocks;
    if 0 <= hour < 24 {
      assert blocks[hour].hour == hour;
    }
  }

  /** `initializeAppData`: the default categories and no days. */
  function InitializeAppData(): (data: AppData)
    ensures data.categories == DefaultCategories() && data.days == map[]
  {
    AppData(DefaultCategories(), map[])
  }

  // ---------------------------------------------------------------------
  // Decimal strings: `String(n)`, `padStart(2, '0')`, `formatDate`.
  // ---------------------------------------------------------------------

  predicate IsDigit(c: char)
  {
    '0' <= c <= '9'
  }

  predicate AllDigits(s: string)
  {
    forall i :: 0 <= i < |s| ==> IsDigit(s[i])
  }

  function DigitValue(c: char): nat
    requires IsDigit(c)
  {
    c as int - '0' as int
  }

  function DigitChar(d: nat): (c: char)
    requires d < 10
    ensures IsDigit(c) && DigitValue(c) == d
  {
    ('0' as int + d) as char
  }

  function Pow10(k: nat): (p: nat)
    ensures p >= 1
  {
    if k == 0 then 1 else 10 * Pow10(k - 1)
  }

  /** `String(n)` for a non-negative integer: decimal digits, no leading zero. */
  function NatToString(n: nat): (s: string)
    ensures 1 <= |s| && AllDigits(s)
    ensures |s| > 1 ==> s[0] != '0'
    decreases n
  {
    if n < 10 then [DigitChar(n)] else NatToString(n / 10) + [DigitChar(n % 10)]
  }

  /** `String(n)` for any integer. */
  function IntToString(n: int): string
  {
    if n < 0 then "-" + NatToString(-n) else NatToString(n)
  }

  /** The number a string of decimal digits denotes. */
  function DecimalValue(s: string): nat
    requires AllDigits(s)
  {
    if |s| == 0 then 0 else DecimalValue(s[..|s| - 1]) * 10 + DigitValue(s[|s| - 1])
  }

  /** Reading back the digits of `String(n)` gives `n`. */
  lemma {:induction false} DecimalValueOfString(n: nat)
    ensures DecimalValue(NatToString(n)) == n
  {
    if n >= 10 {
      var s := NatToString(n);
      assert s[..|s| - 1] == NatToString(n / 10);
      DecimalValueOfString(n / 10);
    }
  }

  /** `String(n)` has `k` digits when `10^(k-1) <= n < 10^k` (or `k == 1` and `n < 10`). */
  lemma {:induction false} NatToStringLength(n: nat, k: nat)
    requires 1 <= k && n < Pow10(k) && (k == 1 || Pow10(k - 1) <= n)
    ensures |NatToString(n)| == k
  {
    if k > 1 {
      assert n >= 10;
      NatToStringLength(n / 10, k - 1);
    }
  }

  /** `padStart(2, '0')`: left-pad with '0' up to length 2; longer strings are kept. */
  function PadStart2(s: string): (r: string)
    ensures |r| == if |s| < 2 then 2 else |s|
    ensures r[|r| - |s|..] == s
    ensures forall i :: 0 <= i < |r| - |s| ==> r[i] == '0'
  {
    if |s| >= 2 then s else if |s| == 1 then "0" + s else "00"
  }

  /** `String(n).padStart(2, '0')`. */
  function Pad2(n: int): string
  {
    PadStart2(IntToString(n))
  }

  /** For a non-negative `n`, a "0" is prepended exactly when `n < 10`; otherwise the digits are kept. */
  lemma Pad2Digits(n: nat)
    ensures n < 10 ==> Pad2(n) == "0" + NatToString(n)
    ensures n >= 10 ==> Pad2(n) == NatToString(n)
    ensures (Pad2(n) == "0" + NatToString(n)) <==> n < 10
  {
    if n >= 10 {
      assert NatToString(n) == NatToString(n / 10) + [DigitChar(n % 10)];
    }
  }

  /** A two-digit field reads back as the number it was made from. */
  lemma Pad2RoundTrip(n: int)
    requires 0 <= n < 100
    ensures |Pad2(n)| == 2 && AllDigits(Pad2(n)) && DecimalValue(Pad2(n)) == n
  {
    DecimalValueOfString(n);
    if n < 10 {
      var s := Pad2(n);
      assert s == "0" + NatToString(n);
      assert s[..1] == "0";
    } else {
      NatToStringLength(n, 2);
    }
  }

  /** `formatDate`: year, 1-based month and day joined as `YYYY-MM-DD`. */
  function FormatDate(year: int, month0: int, day: int): string
  {
    IntToString(year) + "-" + Pad2(month0 + 1) + "-" + Pad2(day)
  }

  /** For a four-digit year and an in-range month and day, the key is ten characters and each field reads back. */
  lemma FormatDateRoundTrip(year: int, month0: int, day: int)
    requires 1000 <= year <= 9999 && 0 <= month0 <= 11 && 1 <= day <= 31
    ensures var s := FormatDate(year, month0, day);
      && |s| == 10 && s[4] == '-' && s[7] == '-'
      && AllDigits(s[..4]) && DecimalValue(s[..4]) == year
      && AllDigits(s[5..7]) && DecimalValue(s[5..7]) == month0 + 1
      && AllDigits(s[8..]) && DecimalValue(s[8..]) == day
  {
    assert Pow10(3) == 1000 && Pow10(4) == 10000;
    NatToStringLength(year, 4);
    DecimalValueOfString(year);
    Pad2RoundTrip(month0 + 1);
    Pad2RoundTrip(day);
    DashedFields(IntToString(year), Pad2(month0 + 1), Pad2(day));
  }

  /** Where the fields of `y-m-d` sit when `y` has four characters and `m`, `d` two. */
  lemma DashedFields(y: string, m: string, d: string)
    requires |y| == 4 && |m| == 2 && |d| == 2
    ensures var s := y + "-" + m + "-" + d;
      |s| == 10 && s[4] == '-' && s[7] == '-' && s[..4] == y && s[5..7] == m && s[8..] == d
  {
  }
}
