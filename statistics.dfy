/**
 * `getInsights`: how many days are tracked, how many blocks carry a
 * category, and a per-category usage list sorted by count.
 *
 * The reference for the counts is `AssignedIds(days)`, the multiset of
 * the category ids of every assigned block of every day. The tally loop
 * is proved to count exactly that multiset; the sort and the resolution
 * of ids to categories are then proved to keep counts, order and
 * membership.
 */
module Statistics {
  import opened Wrappers
  import opened Types
  import opened Store

  /** One `[id, count]` pair of `Object.entries(categoryUsage)`. */
  datatype Entry = Entry(id: string, count: nat)

  /** One element of `categoryUsage`. */
  datatype CategoryCount = CategoryCount(category: Category, count: nat)

  /** The value `getInsights` returns. */
  datatype Insights = Insights(
    totalDaysTracked: nat,
    totalBlocksAssigned: nat,
    mostUsedCategory: Option<Category>,
    categoryUsage: seq<CategoryCount>)

  // ---------------------------------------------------------------------
  // The reference counts
  // ---------------------------------------------------------------------

  /** The id a block contributes to the tally: its category when truthy. */
  function Tag(b: TimeBlock): multiset<string>
  {
    if Assigned(b.categoryId) then multiset{b.categoryId.value} else multiset{}
  }

  /** The ids of the assigned blocks of one day, with multiplicity. */
  function BlockIds(blocks: seq<TimeBlock>): (ids: multiset<string>)
    ensures |ids| <= |blocks|
  {
    if |blocks| == 0 then multiset{}
    else BlockIds(blocks[..|blocks| - 1]) + Tag(blocks[|blocks| - 1])
  }

  ghost function PickDate(days: map<string, Day>): (d: string)
    requires days != map[]
    ensures d in days
  {
    var d :| d in days; d
  }

  /** The ids of the assigned blocks of every day, with multiplicity. */
  ghost function AssignedIds(days: map<string, Day>): multiset<string>
    decreases |days|
  {
    if days == map[] then multiset{}
    else
      var d := PickDate(days);
      AssignedIds(days - {d}) + BlockIds(days[d].blocks)
  }

  /** The fold over the days does not depend on which day is taken first. */
  lemma {:induction false} AssignedIdsRemove(days: map<string, Day>, date: string)
    requires date in days
    ensures AssignedIds(days) == AssignedIds(days - {date}) + BlockIds(days[date].blocks)
    decreases |days|
  {
    var d := PickDate(days);
    if d != date {
      var rest, others := days - {d}, days - {date};
      assert date in rest && rest[date] == days[date];
      assert d in others && others[d] == days[d];
      assert rest - {date} == others - {d};
      var core := AssignedIds(rest - {date});
      var bd, bdate := BlockIds(days[d].blocks), BlockIds(days[date].blocks);
      calc {
        AssignedIds(days);
        AssignedIds(rest) + bd;
        { AssignedIdsRemove(rest, date); }
        core + bdate + bd;
        core + bd + bdate;
        { AssignedIdsRemove(others, d); }
        AssignedIds(others) + bdate;
      }
    }
  }

  /** A day none of whose blocks is assigned adds nothing to the counts. */
  lemma {:induction false} BlockIdsUnassigned(blocks: seq<TimeBlock>)
    requires forall i :: 0 <= i < |blocks| ==> blocks[i].categoryId == None
    ensures BlockIds(blocks) == multiset{}
  {
    if |blocks| > 0 {
      BlockIdsUnassigned(blocks[..|blocks| - 1]);
    }
  }

  /** `getOrCreateDay` on a new date adds a day but no assigned block. */
  lemma AssignedIdsWithEmptyDay(days: map<string, Day>, date: string)
    requires date !in days
    ensures AssignedIds(days[date := InitializeEmptyDay(date)]) == AssignedIds(days)
  {
    var m := days[date := InitializeEmptyDay(date)];
    var none := BlockIds(InitializeEmptyDay(date).blocks);
    assert none == multiset{} by {
      BlockIdsUnassigned(InitializeEmptyDay(date).blocks);
    }
    assert m - {date} == days;
    calc {
      AssignedIds(m);
      { AssignedIdsRemove(m, date); }
      AssignedIds(days) + none;
    }
  }

  /** The ids of a concatenation are the ids of its parts. */
  lemma {:induction false} BlockIdsConcat(a: seq<TimeBlock>, c: seq<TimeBlock>)
    ensures BlockIds(a + c) == BlockIds(a) + BlockIds(c)
  {
    if |c| == 0 {
      assert a + c == a;
    } else {
      var n := |c| - 1;
      assert (a + c)[..|a + c| - 1] == a + c[..n];
      BlockIdsConcat(a, c[..n]);
    }
  }

  /** Overwriting one block changes the day's ids by exactly that block's contribution. */
  lemma BlockIdsUpdate(blocks: seq<TimeBlock>, i: nat, b: TimeBlock)
    requires i < |blocks|
    ensures BlockIds(blocks[i := b]) + Tag(blocks[i]) == BlockIds(blocks) + Tag(b)
  {
    var pre, post := blocks[..i], blocks[i + 1..];
    assert blocks == pre + [blocks[i]] + post;
    assert blocks[i := b] == pre + [b] + post;
    BlockIdsConcat(pre + [blocks[i]], post);
    BlockIdsConcat(pre + [b], post);
    assert BlockIds(pre + [blocks[i]]) == BlockIds(pre) + Tag(blocks[i]) by {
      assert (pre + [blocks[i]])[..i] == pre;
    }
    assert BlockIds(pre + [b]) == BlockIds(pre) + Tag(b) by {
      assert (pre + [b])[..i] == pre;
    }
    Rearrange(BlockIds(pre), BlockIds(post), Tag(blocks[i]), Tag(b));
  }

  /** Multiset arithmetic: `(p + y + q) + x == (p + x + q) + y`. */
  lemma Rearrange(p: multiset<string>, q: multiset<string>, x: multiset<string>, y: multiset<string>)
    ensures p + y + q + x == p + x + q + y
  {
    forall id ensures (p + y + q + x)[id] == (p + x + q + y)[id] {
    }
  }

  /** Replacing one day swaps that day's ids for the new day's. */
  lemma ReplaceDay(days: map<string, Day>, date: string, day: Day)
    requires date in days
    ensures AssignedIds(days[date := day]) + BlockIds(days[date].blocks) == AssignedIds(days) + BlockIds(day.blocks)
  {
    var after := days[date := day];
    assert after - {date} == days - {date};
    AssignedIdsRemove(after, date);
    AssignedIdsRemove(days, date);
  }

  /**
   * After `updateBlock`, the counts differ from those of the day as it was
   * by exactly the old block's id leaving and the new one arriving.
   */
  lemma AssignedIdsAfterSetBlock(data: AppData, date: string, hour: int, categoryId: Option<string>)
    ensures var before := WithDay(data, date).days;
      match FindHour(before[date].blocks, hour)
      case None => SetBlock(data, date, hour, categoryId).days == before
      case Some(i) =>
        AssignedIds(SetBlock(data, date, hour, categoryId).days) + Tag(before[date].blocks[i])
          == AssignedIds(before) + Tag(TimeBlock(before[date].blocks[i].hour, categoryId))
  {
    var before := WithDay(data, date).days;
    var day := before[date];
    match FindHour(day.blocks, hour)
    case None =>
    case Some(i) =>
      var b := TimeBlock(day.blocks[i].hour, categoryId);
      var newDay := day.(blocks := day.blocks[i := b]);
      var after := before[date := newDay];
      assert SetBlock(data, date, hour, categoryId).days == after;
      ReplaceDay(before, date, newDay);
      BlockIdsUpdate(day.blocks, i, b);
      Rebalance(AssignedIds(after), BlockIds(day.blocks), AssignedIds(before), BlockIds(newDay.blocks), Tag(day.blocks[i]), Tag(b));
  }

  /** Multiset arithmetic: chaining two balances cancels the common part. */
  lemma Rebalance(a: multiset<string>, p: multiset<string>, c: multiset<string>, q: multiset<string>,
                  x: multiset<string>, y: multiset<string>)
    requires a + p == c + q && q + x == p + y
    ensures a + x == c + y
  {
    forall id ensures (a + x)[id] == (c + y)[id] {
      assert (a + p)[id] == (c + q)[id] && (q + x)[id] == (p + y)[id];
    }
  }

  /** The cascade of one day removes every copy of `id` and nothing else. */
  lemma {:induction false} BlockIdsCleared(blocks: seq<TimeBlock>, id: string)
    ensures BlockIds(ClearBlocks(blocks, id)) == BlockIds(blocks)[id := 0]
  {
    if |blocks| > 0 {
      var n := |blocks| - 1;
      assert ClearBlocks(blocks, id)[..n] == ClearBlocks(blocks[..n], id);
      BlockIdsCleared(blocks[..n], id);
    }
  }

  /** Dropping every copy of `id` distributes over a union. */
  lemma DropUnion(a: multiset<string>, b: multiset<string>, id: string)
    ensures (a + b)[id := 0] == a[id := 0] + b[id := 0]
  {
  }

  /** After `deleteCategory(id)` no block counts for `id`, and every other count is unchanged. */
  lemma {:induction false} AssignedIdsAfterRemove(days: map<string, Day>, id: string)
    ensures AssignedIds(ClearDays(days, id)) == AssignedIds(days)[id := 0]
    decreases |days|
  {
    var cleared := ClearDays(days, id);
    if days == map[] {
      assert cleared == map[];
    } else {
      var d := PickDate(days);
      var rest := days - {d};
      assert d in cleared && cleared[d].blocks == ClearBlocks(days[d].blocks, id);
      assert cleared - {d} == ClearDays(rest, id);
      calc {
        AssignedIds(cleared);
        { AssignedIdsRemove(cleared, d); }
        AssignedIds(ClearDays(rest, id)) + BlockIds(ClearBlocks(days[d].blocks, id));
        { AssignedIdsAfterRemove(rest, id); BlockIdsCleared(days[d].blocks, id); }
        AssignedIds(rest)[id := 0] + BlockIds(days[d].blocks)[id := 0];
        { DropUnion(AssignedIds(rest), BlockIds(days[d].blocks), id); }
        (AssignedIds(rest) + BlockIds(days[d].blocks))[id := 0];
        AssignedIds(days)[id := 0];
      }
    }
  }

  // ---------------------------------------------------------------------
  // The tally loop
  // ---------------------------------------------------------------------

  /** The dictionary `usage` holds exactly the multiplicities of `seen`. */
  ghost predicate Tallies(usage: map<string, nat>, seen: multiset<string>)
  {
    && (forall id :: id in usage ==> 0 < usage[id] == seen[id])
    && (forall id :: id in seen ==> id in usage)
  }

  /** Counting one more occurrence of `id` keeps the dictionary exact. */
  lemma TallyAdd(usage: map<string, nat>, seen: multiset<string>, id: string)
    requires Tallies(usage, seen)
    ensures Tallies(usage[id := (if id in usage then usage[id] else 0) + 1], seen + multiset{id})
  {
  }

  /** The callback of the inner `forEach`: count one block when its id is truthy. */
  method TallyBlock(b: TimeBlock, usage0: map<string, nat>, total0: nat, ghost seen: multiset<string>)
    returns (usage: map<string, nat>, total: nat)
    requires Tallies(usage0, seen) && total0 == |seen|
    ensures Tallies(usage, seen + Tag(b)) && total == |seen + Tag(b)|
  {
    usage, total := usage0, total0;
    if b.categoryId.Some? && b.categoryId.value != "" {
      var id := b.categoryId.value;
      TallyAdd(usage, seen, id);
      usage := usage[id := (if id in usage then usage[id] else 0) + 1];
      total := total + 1;
    } else {
      assert seen + Tag(b) == seen;
    }
  }

  /** Looking at one more block of a day adds that block's tag. */
  lemma BlockIdsStep(blocks: seq<TimeBlock>, seen: multiset<string>, i: nat)
    requires i < |blocks|
    ensures seen + BlockIds(blocks[..i + 1]) == (seen + BlockIds(blocks[..i])) + Tag(blocks[i])
  {
    assert blocks[..i + 1][..i] == blocks[..i];
  }

  /** The inner `forEach` of `getInsights`: count the assigned blocks of one day. */
  method TallyBlocks(blocks: seq<TimeBlock>, usage0: map<string, nat>, total0: nat, ghost seen: multiset<string>)
    returns (usage: map<string, nat>, total: nat)
    requires Tallies(usage0, seen) && total0 == |seen|
    ensures Tallies(usage, seen + BlockIds(blocks)) && total == |seen + BlockIds(blocks)|
  {
    usage, total := usage0, total0;
    ghost var acc := seen;
    var i := 0;
    while i < |blocks|
      invariant 0 <= i <= |blocks|
      invariant acc == seen + BlockIds(blocks[..i])
      invariant Tallies(usage, acc) && total == |acc|
    {
      BlockIdsStep(blocks, seen, i);
      usage, total := TallyBlock(blocks[i], usage, total, acc);
      acc := acc + Tag(blocks[i]);
      i := i + 1;
    }
    assert blocks[..|blocks|] == blocks;
  }

  /** The outer `forEach` of `getInsights`: count every assigned block of every day. */
  method TallyDays(days: map<string, Day>) returns (usage: map<string, nat>, total: nat)
    ensures Tallies(usage, AssignedIds(days)) && total == |AssignedIds(days)|
  {
    usage, total := map[], 0;
    var pending := days.Keys;
    assert days - pending == map[];
    while pending != {}
      invariant pending <= days.Keys
      invariant Tallies(usage, AssignedIds(days - pending)) && total == |AssignedIds(days - pending)|
      decreases pending
    {
      var d :| d in pending;
      ghost var done := days - pending;
      ghost var next := days - (pending - {d});
      assert d in next && next[d] == days[d] && next - {d} == done;
      AssignedIdsRemove(next, d);
      usage, total := TallyBlocks(days[d].blocks, usage, total, AssignedIds(done));
      pending := pending - {d};
    }
    assert days - pending == days;
  }

  // ---------------------------------------------------------------------
  // Object.entries, sort, map to categories, filter
  // ---------------------------------------------------------------------

  function Sum(entries: seq<Entry>): nat
  {
    if |entries| == 0 then 0 else entries[0].count + Sum(entries[1..])
  }

  /** The ids the entries stand for, each repeated by its count. */
  function EntryBag(entries: seq<Entry>): (bag: multiset<string>)
    ensures |bag| == Sum(entries)
  {
    if |entries| == 0 then multiset{}
    else multiset{}[entries[0].id := entries[0].count] + EntryBag(entries[1..])
  }

  /** The ids of the entries, each once per entry. */
  function IdsOf(entries: seq<Entry>): multiset<string>
  {
    if |entries| == 0 then multiset{} else multiset{entries[0].id} + IdsOf(entries[1..])
  }

  /** `entries` lists exactly the keys of `usage` outside `pending`, each with its count. */
  ghost predicate Listed(usage: map<string, nat>, pending: set<string>, entries: seq<Entry>)
  {
    && (forall i :: 0 <= i < |entries| ==> entries[i].id in usage && entries[i].count == usage[entries[i].id])
    && (forall id :: IdsOf(entries)[id] == if id in usage && id !in pending then 1 else 0)
    && (forall id :: EntryBag(entries)[id] == if id in usage && id !in pending then usage[id] else 0)
  }

  /** Listing one more pending key keeps `Listed`. */
  lemma ListOne(usage: map<string, nat>, pending: set<string>, entries: seq<Entry>, id: string)
    requires Listed(usage, pending, entries) && id in pending && pending <= usage.Keys
    ensures Listed(usage, pending - {id}, [Entry(id, usage[id])] + entries)
  {
    Prepend(Entry(id, usage[id]), entries);
  }

  /** `Object.entries(categoryUsage)`, in an unspecified key order. */
  method UsageEntries(usage: map<string, nat>, ghost seen: multiset<string>) returns (entries: seq<Entry>)
    requires Tallies(usage, seen)
    ensures EntryBag(entries) == seen
    ensures forall id :: IdsOf(entries)[id] == if id in usage then 1 else 0
    ensures forall i :: 0 <= i < |entries| ==> entries[i].id in usage && entries[i].count == usage[entries[i].id]
    ensures forall id :: id in usage ==> exists i :: 0 <= i < |entries| && entries[i].id == id
  {
    entries := [];
    var pending := usage.Keys;
    while pending != {}
      invariant pending <= usage.Keys
      invariant Listed(usage, pending, entries)
      decreases pending
    {
      var id :| id in pending;
      ListOne(usage, pending, entries, id);
      entries := [Entry(id, usage[id])] + entries;
      pending := pending - {id};
    }
    ListedAll(usage, seen, entries);
  }

  /** Once no key is pending, the entries hold exactly the tallied counts. */
  lemma ListedAll(usage: map<string, nat>, seen: multiset<string>, entries: seq<Entry>)
    requires Tallies(usage, seen) && Listed(usage, {}, entries)
    ensures EntryBag(entries) == seen
    ensures forall id :: IdsOf(entries)[id] == if id in usage then 1 else 0
    ensures forall id :: id in usage ==> exists i :: 0 <= i < |entries| && entries[i].id == id
  {
    assert EntryBag(entries) == seen by {
      ListedBag(usage, seen, EntryBag(entries));
    }
    forall id | id in usage ensures exists i :: 0 <= i < |entries| && entries[i].id == id {
      IdsOfMember(entries, id);
    }
  }

  /** A bag holding each key's tallied count is the multiset that was tallied. */
  lemma ListedBag(usage: map<string, nat>, seen: multiset<string>, bag: multiset<string>)
    requires Tallies(usage, seen)
    requires forall id :: bag[id] == if id in usage then usage[id] else 0
    ensures bag == seen
  {
    forall id ensures bag[id] == seen[id] {
      if id !in usage {
        assert id !in seen;
      }
    }
  }

  /** Putting `e` in front adds its id, its count and itself, and shifts the rest by one. */
  lemma Prepend(e: Entry, entries: seq<Entry>)
    ensures IdsOf([e] + entries) == multiset{e.id} + IdsOf(entries)
    ensures EntryBag([e] + entries) == multiset{}[e.id := e.count] + EntryBag(entries)
    ensures forall i :: 0 <= i < |entries| ==> ([e] + entries)[i + 1] == entries[i]
  {
    assert ([e] + entries)[1..] == entries;
  }

  /** An id counted by `IdsOf` belongs to some entry. */
  lemma {:induction false} IdsOfMember(entries: seq<Entry>, id: string)
    requires id in IdsOf(entries)
    ensures exists i :: 0 <= i < |entries| && entries[i].id == id
  {
    if entries[0].id != id {
      IdsOfMember(entries[1..], id);
      var i :| 0 <= i < |entries[1..]| && entries[1..][i].id == id;
      assert entries[i + 1].id == id;
    }
  }

  predicate NonIncreasing(entries: seq<Entry>)
  {
    forall i, j :: 0 <= i < j < |entries| ==> entries[i].count >= entries[j].count
  }

  /** Insert into a list sorted by decreasing count, before the entries of equal count. */
  function InsertByCount(e: Entry, entries: seq<Entry>): seq<Entry>
  {
    if |entries| == 0 || entries[0].count <= e.count then [e] + entries
    else [entries[0]] + InsertByCount(e, entries[1..])
  }

  /** Inserting keeps the list sorted, adds exactly `e`, and puts nothing above the larger of the two heads. */
  lemma {:induction false} InsertByCountSorted(e: Entry, entries: seq<Entry>)
    requires NonIncreasing(entries)
    ensures NonIncreasing(InsertByCount(e, entries))
    ensures forall k :: 0 <= k < |InsertByCount(e, entries)| ==> InsertByCount(e, entries)[k].count <= e.count || (|entries| > 0 && InsertByCount(e, entries)[k].count <= entries[0].count)
  {
    if |entries| > 0 && entries[0].count > e.count {
      InsertByCountSorted(e, entries[1..]);
    }
  }

  /** Inserting adds exactly `e` to the elements. */
  lemma {:induction false} InsertByCountAdds(e: Entry, entries: seq<Entry>)
    ensures multiset(InsertByCount(e, entries)) == multiset{e} + multiset(entries)
  {
    if |entries| > 0 && entries[0].count > e.count {
      var tail := InsertByCount(e, entries[1..]);
      InsertByCountAdds(e, entries[1..]);
      assert multiset(entries) == multiset{entries[0]} + multiset(entries[1..]) by {
        assert entries == [entries[0]] + entries[1..];
      }
    }
  }

  /** Inserting adds `e`'s id to the ids and its count to the total. */
  lemma {:induction false} InsertByCountTotals(e: Entry, entries: seq<Entry>)
    ensures IdsOf(InsertByCount(e, entries)) == multiset{e.id} + IdsOf(entries)
    ensures Sum(InsertByCount(e, entries)) == e.count + Sum(entries)
  {
    if |entries| == 0 || entries[0].count <= e.count {
      assert ([e] + entries)[1..] == entries;
    } else {
      var tail := InsertByCount(e, entries[1..]);
      InsertByCountTotals(e, entries[1..]);
      assert ([entries[0]] + tail)[1..] == tail;
    }
  }


  /** `.sort(([, a], [, b]) => b - a)`: by decreasing count. */
  function SortByCount(entries: seq<Entry>): seq<Entry>
  {
    if |entries| == 0 then [] else InsertByCount(entries[0], SortByCount(entries[1..]))
  }

  /** The sort yields a list in decreasing count order. */
  lemma {:induction false} SortByCountSorted(entries: seq<Entry>)
    ensures NonIncreasing(SortByCount(entries))
  {
    if |entries| > 0 {
      SortByCountSorted(entries[1..]);
      InsertByCountSorted(entries[0], SortByCount(entries[1..]));
    }
  }

  /** The sort is a permutation of its input. */
  lemma {:induction false} SortByCountPermutes(entries: seq<Entry>)
    ensures multiset(SortByCount(entries)) == multiset(entries)
  {
    if |entries| > 0 {
      SortByCountPermutes(entries[1..]);
      InsertByCountAdds(entries[0], SortByCount(entries[1..]));
      assert multiset(entries) == multiset{entries[0]} + multiset(entries[1..]) by {
        assert entries == [entries[0]] + entries[1..];
      }
    }
  }

  /** The sort keeps the ids and the total. */
  lemma {:induction false} SortByCountTotals(entries: seq<Entry>)
    ensures IdsOf(SortByCount(entries)) == IdsOf(entries)
    ensures Sum(SortByCount(entries)) == Sum(entries)
  {
    if |entries| > 0 {
      SortByCountTotals(entries[1..]);
      InsertByCountTotals(entries[0], SortByCount(entries[1..]));
    }
  }



  function SumUsage(usage: seq<CategoryCount>): nat
  {
    if |usage| == 0 then 0 else usage[0].count + SumUsage(usage[1..])
  }

  /** The category ids of a usage list, each once per element. */
  function UsageIds(usage: seq<CategoryCount>): multiset<string>
  {
    if |usage| == 0 then multiset{} else multiset{usage[0].category.id} + UsageIds(usage[1..])
  }

  /** `.map(...find...)` then `.filter(category !== undefined)`: ids become categories; unknown ids drop out. */
  function Resolve(entries: seq<Entry>, categories: seq<Category>): seq<CategoryCount>
  {
    if |entries| == 0 then []
    else match LookupCategory(categories, entries[0].id)
      case None => Resolve(entries[1..], categories)
      case Some(c) => [CategoryCount(c, entries[0].count)] + Resolve(entries[1..], categories)
  }

  /** Each resolved element is a known category carrying the count of an entry for its id. */
  lemma {:induction false} ResolveSound(entries: seq<Entry>, categories: seq<Category>)
    ensures forall i :: 0 <= i < |Resolve(entries, categories)| ==>
        LookupCategory(categories, Resolve(entries, categories)[i].category.id) == Some(Resolve(entries, categories)[i].category)
        && Entry(Resolve(entries, categories)[i].category.id, Resolve(entries, categories)[i].count) in entries
  {
    if |entries| > 0 {
      var rest := Resolve(entries[1..], categories);
      ResolveSound(entries[1..], categories);
      assert forall x :: x in entries[1..] ==> x in entries;
      match LookupCategory(categories, entries[0].id)
      case None =>
        assert Resolve(entries, categories) == rest;
      case Some(c) =>
        var r := [CategoryCount(c, entries[0].count)] + rest;
        assert Resolve(entries, categories) == r;
        assert forall i :: 0 < i < |r| ==> r[i] == rest[i - 1];
        assert entries[0] in entries;
    }
  }

  /** Every entry whose id names a known category is kept. */
  lemma {:induction false} ResolveComplete(entries: seq<Entry>, categories: seq<Category>)
    ensures forall x :: x in entries && LookupCategory(categories, x.id).Some? ==>
      CategoryCount(LookupCategory(categories, x.id).value, x.count) in Resolve(entries, categories)
  {
    if |entries| > 0 {
      ResolveComplete(entries[1..], categories);
      assert entries == [entries[0]] + entries[1..];
    }
  }

  /** Dropping entries can only lower the sum, and keeps a sub-multiset of the ids. */
  lemma {:induction false} ResolveDrops(entries: seq<Entry>, categories: seq<Category>)
    ensures SumUsage(Resolve(entries, categories)) <= Sum(entries)
    ensures UsageIds(Resolve(entries, categories)) <= IdsOf(entries)
  {
    if |entries| > 0 {
      ResolveDrops(entries[1..], categories);
      var rest := Resolve(entries[1..], categories);
      match LookupCategory(categories, entries[0].id)
      case None =>
      case Some(c) =>
        assert ([CategoryCount(c, entries[0].count)] + rest)[1..] == rest;
    }
  }

  /** Resolving a sorted list keeps it sorted, below the head of its input. */
  lemma {:induction false} ResolveSorted(entries: seq<Entry>, categories: seq<Category>)
    requires NonIncreasing(entries)
    ensures forall i :: 0 <= i < |Resolve(entries, categories)| ==> |entries| > 0 && Resolve(entries, categories)[i].count <= entries[0].count
    ensures forall i, j :: 0 <= i < j < |Resolve(entries, categories)| ==> Resolve(entries, categories)[i].count >= Resolve(entries, categories)[j].count
  {
    if |entries| > 0 {
      var tail := entries[1..];
      assert NonIncreasing(tail) by {
        assert forall i :: 0 <= i < |tail| ==> tail[i] == entries[i + 1];
      }
      ResolveSorted(tail, categories);
      var rest := Resolve(tail, categories);
      if |tail| > 0 {
        assert tail[0] == entries[1] && entries[1].count <= entries[0].count;
      }
      assert forall i :: 0 <= i < |rest| ==> rest[i].count <= entries[0].count;
      match LookupCategory(categories, entries[0].id)
      case None =>
        assert Resolve(entries, categories) == rest;
      case Some(c) =>
        var r := [CategoryCount(c, entries[0].count)] + rest;
        assert Resolve(entries, categories) == r;
        forall i | 0 <= i < |r| ensures r[i].count <= entries[0].count {
          if i > 0 {
            assert r[i] == rest[i - 1];
          }
        }
        forall i, j | 0 <= i < j < |r| ensures r[i].count >= r[j].count {
          assert r[j] == rest[j - 1];
          if i > 0 {
            assert r[i] == rest[i - 1];
          }
        }
    } else {
      assert Resolve(entries, categories) == [];
    }
  }

  /** An id that occurs at most once in a usage list's ids belongs to at most one element. */
  lemma {:induction false} UsageIdsDistinct(usage: seq<CategoryCount>)
    requires forall id :: UsageIds(usage)[id] <= 1
    ensures forall i, j :: 0 <= i < j < |usage| ==> usage[i].category.id != usage[j].category.id
  {
    if |usage| > 0 {
      var tail := usage[1..];
      var head := usage[0].category.id;
      assert UsageIds(usage) == multiset{head} + UsageIds(tail);
      assert forall id :: UsageIds(tail)[id] <= UsageIds(usage)[id];
      UsageIdsDistinct(tail);
      assert UsageIds(tail)[head] == 0;
      forall i, j | 0 <= i < j < |usage| ensures usage[i].category.id != usage[j].category.id {
        if i == 0 {
          UsageIdsHas(tail, j - 1);
        } else {
          assert usage[i] == tail[i - 1] && usage[j] == tail[j - 1];
        }
      }
    }
  }

  /** Every element's id is among the usage list's ids. */
  lemma {:induction false} UsageIdsHas(usage: seq<CategoryCount>, k: nat)
    requires k < |usage|
    ensures usage[k].category.id in UsageIds(usage)
  {
    if k > 0 {
      UsageIdsHas(usage[1..], k - 1);
    }
  }

  // ---------------------------------------------------------------------
  // getInsights
  // ---------------------------------------------------------------------

  /**
   * What `getInsights` promises about a document: the day count, the number
   * of assigned blocks, and a usage list with one entry per known category
   * that is used, each with its true count, sorted by decreasing count,
   * whose counts add up to at most the number of assigned blocks; the most
   * used category is the head of that list.
   */
  ghost predicate Describes(data: AppData, ins: Insights)
  {
    var ids := AssignedIds(data.days);
    var u := ins.categoryUsage;
    && ins.totalDaysTracked == |data.days|
    && ins.totalBlocksAssigned == |ids|
    && (forall i :: 0 <= i < |u| ==> LookupCategory(data.categories, u[i].category.id) == Some(u[i].category))
    && (forall i :: 0 <= i < |u| ==> 0 < u[i].count == ids[u[i].category.id])
    && (forall c :: c in data.categories && ids[c.id] > 0 ==> exists i :: 0 <= i < |u| && u[i].category.id == c.id)
    && (forall i, j :: 0 <= i < j < |u| ==> u[i].count >= u[j].count)
    && (forall i, j :: 0 <= i < j < |u| ==> u[i].category.id != u[j].category.id)
    && SumUsage(u) <= ins.totalBlocksAssigned
    && ins.mostUsedCategory == if |u| == 0 then None else Some(u[0].category)
  }

  /** Each resolved count is the true number of blocks carrying that category. */
  lemma ResolvedCountsTrue(usage: map<string, nat>, ids: multiset<string>, entries: seq<Entry>, categories: seq<Category>, u: seq<CategoryCount>)
    requires u == Resolve(SortByCount(entries), categories)
    requires Tallies(usage, ids)
    requires forall i :: 0 <= i < |entries| ==> entries[i].id in usage && entries[i].count == usage[entries[i].id]
    ensures forall i :: 0 <= i < |u| ==> 0 < u[i].count == ids[u[i].category.id]
  {
    var sorted := SortByCount(entries);
    SortByCountPermutes(entries);
    ResolveSound(sorted, categories);
    forall i | 0 <= i < |u| ensures 0 < u[i].count == ids[u[i].category.id] {
      var e := Entry(u[i].category.id, u[i].count);
      assert e in sorted;
      assert e in multiset(sorted);
      assert e in multiset(entries);
      var k :| 0 <= k < |entries| && entries[k] == e;
    }
  }

  /** Every known category that some block carries appears in the resolved list. */
  lemma ResolvedComplete(usage: map<string, nat>, ids: multiset<string>, entries: seq<Entry>, categories: seq<Category>, u: seq<CategoryCount>)
    requires u == Resolve(SortByCount(entries), categories)
    requires Tallies(usage, ids)
    requires forall id :: id in usage ==> exists i :: 0 <= i < |entries| && entries[i].id == id
    ensures forall c :: c in categories && ids[c.id] > 0 ==> exists i :: 0 <= i < |u| && u[i].category.id == c.id
  {
    var sorted := SortByCount(entries);
    SortByCountPermutes(entries);
    ResolveComplete(sorted, categories);
    forall c | c in categories && ids[c.id] > 0 ensures exists i :: 0 <= i < |u| && u[i].category.id == c.id {
      ResolvedHas(usage, ids, entries, sorted, categories, c);
    }
  }

  /** One step of the completeness proof: the category `c` is found among the resolved elements. */
  lemma ResolvedHas(usage: map<string, nat>, ids: multiset<string>, entries: seq<Entry>, sorted: seq<Entry>,
                    categories: seq<Category>, c: Category)
    requires Tallies(usage, ids) && multiset(sorted) == multiset(entries)
    requires forall id :: id in usage ==> exists i :: 0 <= i < |entries| && entries[i].id == id
    requires forall x :: x in sorted && LookupCategory(categories, x.id).Some? ==>
      CategoryCount(LookupCategory(categories, x.id).value, x.count) in Resolve(sorted, categories)
    requires c in categories && ids[c.id] > 0
    ensures exists i :: 0 <= i < |Resolve(sorted, categories)| && Resolve(sorted, categories)[i].category.id == c.id
  {
    var u := Resolve(sorted, categories);
    assert c.id in ids;
    assert c.id in usage;
    var k :| 0 <= k < |entries| && entries[k].id == c.id;
    var x := entries[k];
    assert x in multiset(entries);
    assert x in sorted;
    var found := LookupCategory(categories, c.id);
    assert found.Some?;
    var cc := CategoryCount(found.value, x.count);
    assert cc in u;
    var i :| 0 <= i < |u| && u[i] == cc;
    assert u[i].category.id == c.id;
  }

  /** No category appears twice in the resolved list, since no id appears twice among the entries. */
  lemma ResolvedDistinct(entries: seq<Entry>, categories: seq<Category>, u: seq<CategoryCount>)
    requires u == Resolve(SortByCount(entries), categories)
    requires forall id :: IdsOf(entries)[id] <= 1
    ensures forall i, j :: 0 <= i < j < |u| ==> u[i].category.id != u[j].category.id
  {
    var sorted := SortByCount(entries);
    SortByCountTotals(entries);
    ResolveDrops(sorted, categories);
    assert forall id :: UsageIds(u)[id] <= IdsOf(sorted)[id];
    UsageIdsDistinct(u);
  }

  /** The body of `getInsights` for an initialized store. */
  method ComputeInsights(data: AppData) returns (ins: Insights)
    ensures Describes(data, ins)
  {
    var usage, total := TallyDays(data.days);
    ghost var ids := AssignedIds(data.days);
    var entries := UsageEntries(usage, ids);
    var sorted := SortByCount(entries);
    var categoryUsage := Resolve(sorted, data.categories);
    var mostUsed := if |categoryUsage| == 0 then None else Some(categoryUsage[0].category);
    ins := Insights(|data.days.Keys|, total, mostUsed, categoryUsage);

    SortByCountSorted(entries);
    SortByCountTotals(entries);
    ResolveSound(sorted, data.categories);
    ResolveSorted(sorted, data.categories);
    ResolveDrops(sorted, data.categories);
    ResolvedCountsTrue(usage, ids, entries, data.categories, categoryUsage);
    ResolvedComplete(usage, ids, entries, data.categories, categoryUsage);
    ResolvedDistinct(entries, data.categories, categoryUsage);
    assert |ids| == |EntryBag(entries)| == Sum(entries);
  }
}
