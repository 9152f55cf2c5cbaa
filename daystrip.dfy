/**
 * The day strip's view of a day: twelve two-hour groups, each showing the
 * category of its first hour, a `HH:00 - HH:00` label, and a press that
 * reports the group's start hour with the selected category.
 *
 * Only the grouping loop, the label and the press handler are modelled;
 * the rendering is not.
 */
module DayStrip {
  import opened Wrappers
  import opened Types
  import opened Store

  /** One element of `twoHourBlocks`. */
  datatype TwoHourBlock = TwoHourBlock(
    startHour: int,
    endHour: int,
    blocks: seq<Option<TimeBlock>>,
    categoryId: Option<string>)

  /** `day.blocks[h]`: `undefined` past the end of the array. */
  function BlockAt(day: Day, h: nat): (b: Option<TimeBlock>)
    ensures b.Some? <==> h < |day.blocks|
    ensures b.Some? ==> b.value == day.blocks[h]
  {
    if h < |day.blocks| then Some(day.blocks[h]) else None
  }

  /** `blocks[0]?.categoryId || null`: a missing block and a falsy id both give null. */
  function LeadCategory(first: Option<TimeBlock>): (r: Option<string>)
    ensures r.Some? <==> first.Some? && Assigned(first.value.categoryId)
    ensures r.Some? ==> r == first.value.categoryId && r.value != ""
  {
    if first.Some? && Assigned(first.value.categoryId) then first.value.categoryId else None
  }

  /** The grouping loop: twelve groups of two consecutive hours. */
  method GroupTwoHours(day: Day) returns (groups: seq<TwoHourBlock>)
    ensures |groups| == 12
    ensures forall i :: 0 <= i < 12 ==> groups[i].startHour == 2 * i && groups[i].endHour == 2 * i + 1
    ensures forall i :: 0 <= i < 12 ==> groups[i].blocks == [BlockAt(day, 2 * i), BlockAt(day, 2 * i + 1)]
    ensures forall i :: 0 <= i < 12 ==> groups[i].categoryId == LeadCategory(BlockAt(day, 2 * i))
    ensures forall i, j :: 0 <= i < j < 12 ==> groups[i].startHour < groups[j].startHour
    ensures forall h :: 0 <= h < 24 && h % 2 == 0 ==> groups[h / 2].startHour == h
  {
    groups := [];
    for i := 0 to 12
      invariant |groups| == i
      invariant forall k :: 0 <= k < i ==> groups[k].startHour == 2 * k && groups[k].endHour == 2 * k + 1
      invariant forall k :: 0 <= k < i ==> groups[k].blocks == [BlockAt(day, 2 * k), BlockAt(day, 2 * k + 1)]
      invariant forall k :: 0 <= k < i ==> groups[k].categoryId == LeadCategory(BlockAt(day, 2 * k))
    {
      var startHour := i * 2;
      var endHour := (i * 2 + 1) % 24;
      var blocks := [BlockAt(day, startHour), BlockAt(day, startHour + 1)];
      groups := groups + [TwoHourBlock(startHour, endHour, blocks, LeadCategory(blocks[0]))];
    }
  }

  /** The colour of group `i` does not depend on block `2i + 1`. */
  lemma OddHourIgnored(day: Day, i: nat, b: TimeBlock)
    requires 2 * i + 1 < |day.blocks|
    ensures LeadCategory(BlockAt(day.(blocks := day.blocks[2 * i + 1 := b]), 2 * i)) == LeadCategory(BlockAt(day, 2 * i))
  {
  }

  /** `isSelected`: a selection is set and equals the group's category. */
  predicate IsSelected(categoryId: Option<string>, selected: Option<string>)
  {
    selected.Some? && categoryId == selected
  }

  /** A group is highlighted exactly when its first block carries the selected category and that category is not empty. */
  lemma SelectedMeansLeadBlock(day: Day, i: nat, selected: Option<string>)
    ensures IsSelected(LeadCategory(BlockAt(day, 2 * i)), selected)
      <==> Assigned(selected) && 2 * i < |day.blocks| && day.blocks[2 * i].categoryId == selected
  {
  }

  /** The label under a group: `String(start).padStart(2, '0') + ":00 - " + ... + ":00"`. */
  function TimeLabel(startHour: nat): string
  {
    Pad2(startHour) + ":00 - " + Pad2((startHour + 2) % 24) + ":00"
  }

  /** Every label of an hour below 100 is 13 characters whose two hour fields read back as the hours. */
  lemma TimeLabelShape(startHour: nat)
    requires startHour < 100
    ensures var s := TimeLabel(startHour);
      && |s| == 13 && s[2..8] == ":00 - " && s[10..] == ":00"
      && AllDigits(s[..2]) && DecimalValue(s[..2]) == startHour
      && AllDigits(s[8..10]) && DecimalValue(s[8..10]) == (startHour + 2) % 24
  {
    Pad2RoundTrip(startHour);
    Pad2RoundTrip((startHour + 2) % 24);
    LabelFields(Pad2(startHour), Pad2((startHour + 2) % 24));
  }

  /** Where the fields of `a:00 - b:00` sit when `a` and `b` have two characters. */
  lemma LabelFields(a: string, b: string)
    requires |a| == 2 && |b| == 2
    ensures var s := a + ":00 - " + b + ":00";
      |s| == 13 && s[..2] == a && s[2..8] == ":00 - " && s[8..10] == b && s[10..] == ":00"
  {
  }

  /** The last group wraps around midnight. */
  lemma LastLabel()
    ensures TimeLabel(22) == "22:00 - 00:00"
  {
    assert DigitChar(2) == '2' && DigitChar(0) == '0';
    assert NatToString(2) == "2";
    assert NatToString(22) == NatToString(2) + "2";
    assert Pad2(22) == "22";
    assert NatToString(0) == "0";
    assert Pad2(0) == "00";
    assert (22 + 2) % 24 == 0;
  }

  /** `handleBlockPress`: the group's start hour and `selectedCategory || null`. */
  function PressReport(startHour: int, selected: Option<string>): (r: (int, Option<string>))
    ensures r.0 == startHour
    ensures r.1.Some? <==> Assigned(selected)
    ensures r.1.Some? ==> r.1 == selected
  {
    (startHour, if Assigned(selected) then selected else None)
  }

  /**
   * Pressing group `i` and passing the report on to `updateBlock` writes
   * block `2i` only: its partner hour `2i + 1`, like every other block,
   * keeps its value.
   */
  lemma PressWritesStartHour(data: AppData, date: string, i: nat, selected: Option<string>)
    requires WellFormed(data) && i < 12
    ensures var report := PressReport(2 * i, selected);
      var before := WithDay(data, date).days[date];
      var after := SetBlock(data, date, report.0, report.1).days[date];
      && after.blocks[2 * i] == TimeBlock(2 * i, report.1)
      && after.blocks[2 * i + 1] == before.blocks[2 * i + 1]
      && forall h :: 0 <= h < 24 && h != 2 * i ==> after.blocks[h] == before.blocks[h]
  {
    var report := PressReport(2 * i, selected);
    SetBlockWellFormed(data, date, report.0, report.1);
  }
}
