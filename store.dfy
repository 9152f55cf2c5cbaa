/**
 * What each operation of the data store does to the cached document:
 * CRUD on days, blocks and categories, and the cascade that forgets a
 * deleted category everywhere.
 *
 * Each effect is a function on `AppData` (`WithDay`, `SetBlock`,
 * `AppendCategory`, `UpdateCategories`, `RemoveCategory`); the lemmas
 * state what those effects mean. The `DataService` class (module
 * `Service`) is proved to have exactly these effects.
 */
module Store {
  import opened Wrappers
  import opened Types

  /** The message every mutator throws before `initialize`. */
  const NotInitialized := "Data not initialized"
  /** The message of the `data` getter before `initialize`. */
  const NotInitializedGetter := "Data not initialized. Call initialize() first."

  /** The argument of `addCategory`: a category without its id. */
  datatype CategoryFields = CategoryFields(name: string, color: string, darkColor: Option<string>)

  /** The argument of `updateCategory`: each field is either absent or a new value. */
  datatype CategoryUpdate = CategoryUpdate(name: Option<string>, color: Option<string>, darkColor: Option<string>)

  /**
   * What a store-built document always looks like: category ids are
   * distinct, every day sits under its own date and holds 24 blocks,
   * block `i` being hour `i`.
   */
  predicate WellFormed(data: AppData)
  {
    && DistinctIds(data.categories)
    && forall date :: date in data.days ==>
         && data.days[date].date == date
         && |data.days[date].blocks| == 24
         && HourIndexed(data.days[date].blocks)
  }

  // ---------------------------------------------------------------------
  // Lookups (`Array.prototype.find`)
  // ---------------------------------------------------------------------

  /** Index of the first block whose hour is `hour`, if any. */
  function FindHour(blocks: seq<TimeBlock>, hour: int): (r: Option<nat>)
    ensures r.Some? ==> r.value < |blocks| && blocks[r.value].hour == hour
    ensures r.Some? ==> forall j :: 0 <= j < r.value ==> blocks[j].hour != hour
    ensures r.None? ==> forall j :: 0 <= j < |blocks| ==> blocks[j].hour != hour
  {
    if |blocks| == 0 then None
    else if blocks[0].hour == hour then Some(0)
    else match FindHour(blocks[1..], hour)
      case Some(i) => Some(i + 1)
      case None => None
  }

  /** In a store-built day the block of hour `h` is block `h`. */
  lemma FindHourIndexed(blocks: seq<TimeBlock>, hour: int)
    requires HourIndexed(blocks)
    ensures FindHour(blocks, hour) == if 0 <= hour < |blocks| then Some(hour) else None
  {
    if 0 <= hour < |blocks| {
      assert blocks[hour].hour == hour;
    }
  }

  /**
   * Index of the first category with id `id`, if any. It is the same
   * first-match search as `FindHour`, kept apart because the two model
   * separate searches of the source over different element types: blocks
   * by hour, categories by id.
   */
  function FindCategory(categories: seq<Category>, id: string): (r: Option<nat>)
    ensures r.Some? ==> r.value < |categories| && categories[r.value].id == id
    ensures r.Some? ==> forall j :: 0 <= j < r.value ==> categories[j].id != id
    ensures r.None? ==> forall j :: 0 <= j < |categories| ==> categories[j].id != id
  {
    if |categories| == 0 then None
    else if categories[0].id == id then Some(0)
    else match FindCategory(categories[1..], id)
      case Some(i) => Some(i + 1)
      case None => None
  }

  /** `categories.find(c => c.id === id)`: the first category with that id. */
  function LookupCategory(categories: seq<Category>, id: string): (r: Option<Category>)
    ensures r.Some? ==> r.value in categories && r.value.id == id
    ensures r.None? <==> forall c :: c in categories ==> c.id != id
    ensures r.Some? ==> exists i :: 0 <= i < |categories| && categories[i] == r.value
                                     && forall j :: 0 <= j < i ==> categories[j].id != id
  {
    match FindCategory(categories, id)
    case Some(i) => Some(categories[i])
    case None => None
  }

  // ---------------------------------------------------------------------
  // Effects of the operations on the document
  // ---------------------------------------------------------------------

  /** Effect of `getOrCreateDay(date)`: an absent date gets a fresh empty day. */
  function WithDay(data: AppData, date: string): AppData
  {
    if date in data.days then data
    else data.(days := data.days[date := InitializeEmptyDay(date)])
  }

  /** Effect of `updateBlock(date, hour, categoryId)`. */
  function SetBlock(data: AppData, date: string, hour: int, categoryId: Option<string>): AppData
  {
    var d := WithDay(data, date);
    var day := d.days[date];
    match FindHour(day.blocks, hour)
    case None => d
    case Some(i) =>
      d.(days := d.days[date := day.(blocks := day.blocks[i := day.blocks[i].(categoryId := categoryId)])])
  }

  /** The category `addCategory` builds: the given fields under the new id. */
  function NewCategory(fields: CategoryFields, id: string): Category
  {
    Category(id, fields.name, fields.color, fields.darkColor)
  }

  /** Effect of `addCategory`: the new category goes last. */
  function AppendCategory(data: AppData, fields: CategoryFields, id: string): AppData
  {
    data.(categories := data.categories + [NewCategory(fields, id)])
  }

  /** `Object.assign(category, updates)`: fields present in the update overwrite. */
  function Patch(c: Category, u: CategoryUpdate): Category
  {
    Category(c.id, u.name.GetOr(c.name), u.color.GetOr(c.color),
             if u.darkColor.Some? then u.darkColor else c.darkColor)
  }

  /** Effect of `updateCategory(id, u)` on the category list. */
  function UpdateCategories(categories: seq<Category>, id: string, u: CategoryUpdate): seq<Category>
  {
    match FindCategory(categories, id)
    case None => categories
    case Some(i) => categories[i := Patch(categories[i], u)]
  }

  /** `categories.filter(c => c.id !== id)`. */
  function WithoutCategory(categories: seq<Category>, id: string): (r: seq<Category>)
    ensures forall c :: c in r <==> c in categories && c.id != id
    ensures |r| <= |categories|
  {
    if |categories| == 0 then []
    else if categories[0].id == id then WithoutCategory(categories[1..], id)
    else [categories[0]] + WithoutCategory(categories[1..], id)
  }

  /** One block after the cascade: a reference to `id` becomes null. */
  function ClearBlock(b: TimeBlock, id: string): TimeBlock
  {
    if b.categoryId == Some(id) then b.(categoryId := None) else b
  }

  /** A day's blocks after the cascade. */
  function ClearBlocks(blocks: seq<TimeBlock>, id: string): (r: seq<TimeBlock>)
    ensures |r| == |blocks|
    ensures forall i :: 0 <= i < |r| ==> r[i].hour == blocks[i].hour && r[i].categoryId != Some(id)
    ensures forall i :: 0 <= i < |r| && blocks[i].categoryId != Some(id) ==> r[i] == blocks[i]
    ensures forall i :: 0 <= i < |r| && blocks[i].categoryId == Some(id) ==> r[i].categoryId == None
  {
    seq(|blocks|, i requires 0 <= i < |blocks| => ClearBlock(blocks[i], id))
  }

  /** Every day after the cascade. */
  function ClearDays(days: map<string, Day>, id: string): map<string, Day>
  {
    map date | date in days :: days[date].(blocks := ClearBlocks(days[date].blocks, id))
  }

  /** Effect of `deleteCategory(id)`. */
  function RemoveCategory(data: AppData, id: string): AppData
  {
    AppData(WithoutCategory(data.categories, id), ClearDays(data.days, id))
  }

  // ---------------------------------------------------------------------
  // What the effects mean
  // ---------------------------------------------------------------------

  /** `getOrCreateDay` adds exactly an empty day for an absent date and changes nothing for a present one. */
  lemma WithDayEffect(data: AppData, date: string)
    ensures var r := WithDay(data, date);
      && r.categories == data.categories
      && r.days.Keys == data.days.Keys + {date}
      && (date in data.days ==> r.days == data.days)
      && (date !in data.days ==>
            && r.days[date] == InitializeEmptyDay(date)
            && forall d :: d in data.days ==> r.days[d] == data.days[d])
  {
  }

  /**
   * `updateBlock` writes `categoryId` into the first block of the day whose
   * hour matches and nowhere else: every other block (including later
   * blocks with the same hour), other days and the
   * categories are untouched; without a matching block only the day's
   * creation remains.
   */
  lemma SetBlockEffect(data: AppData, date: string, hour: int, categoryId: Option<string>)
    ensures var r := SetBlock(data, date, hour, categoryId);
      var before := WithDay(data, date).days[date];
      && r.categories == data.categories
      && r.days.Keys == data.days.Keys + {date}
      && (forall d :: d in data.days && d != date ==> r.days[d] == data.days[d])
      && r.days[date].date == before.date
      && |r.days[date].blocks| == |before.blocks|
      && (forall i :: 0 <= i < |before.blocks| ==> r.days[date].blocks[i].hour == before.blocks[i].hour)
      && (forall i :: 0 <= i < |before.blocks| && Some(i) != FindHour(before.blocks, hour) ==>
            r.days[date].blocks[i] == before.blocks[i])
      && (FindHour(before.blocks, hour).None? ==> r == WithDay(data, date))
      && (FindHour(before.blocks, hour).Some? ==>
            r.days[date].blocks[FindHour(before.blocks, hour).value].categoryId == categoryId)
  {
  }

  /** On a store-built day, `updateBlock(date, h, c)` with `0 <= h < 24` sets exactly block `h`. */
  lemma SetBlockWellFormed(data: AppData, date: string, hour: int, categoryId: Option<string>)
    requires WellFormed(data) && 0 <= hour < 24
    ensures var r := SetBlock(data, date, hour, categoryId);
      var before := WithDay(data, date).days[date];
      && r.days[date].blocks[hour] == TimeBlock(hour, categoryId)
      && forall i :: 0 <= i < 24 && i != hour ==> r.days[date].blocks[i] == before.blocks[i]
  {
    var before := WithDay(data, date).days[date];
    FindHourIndexed(before.blocks, hour);
  }

  /** `addCategory` appends one category with the given fields and id and keeps the rest. */
  lemma AppendCategoryEffect(data: AppData, fields: CategoryFields, id: string)
    ensures var r := AppendCategory(data, fields, id);
      && |r.categories| == |data.categories| + 1
      && r.categories[..|data.categories|] == data.categories
      && r.categories[|data.categories|] == Category(id, fields.name, fields.color, fields.darkColor)
      && r.days == data.days
  {
    var r := AppendCategory(data, fields, id);
    assert r.categories[..|data.categories|] == data.categories;
  }

  /**
   * `updateCategory` overwrites the fields present in the update on the
   * first category with that id, keeps its id, and leaves every other
   * category alone; an unknown id changes nothing.
   */
  lemma UpdateCategoriesEffect(categories: seq<Category>, id: string, u: CategoryUpdate)
    ensures var r := UpdateCategories(categories, id, u);
      && |r| == |categories|
      && (FindCategory(categories, id).None? ==> r == categories)
      && (FindCategory(categories, id).Some? ==>
            var i := FindCategory(categories, id).value;
            && r[i].id == id
            && r[i].name == (if u.name.Some? then u.name.value else categories[i].name)
            && r[i].color == (if u.color.Some? then u.color.value else categories[i].color)
            && r[i].darkColor == (if u.darkColor.Some? then u.darkColor else categories[i].darkColor)
            && forall j :: 0 <= j < |r| && j != i ==> r[j] == categories[j])
  {
  }

  /** Filtering distributes over concatenation, so the survivors keep their relative order. */
  lemma {:induction false} WithoutCategoryConcat(a: seq<Category>, b: seq<Category>, id: string)
    ensures WithoutCategory(a + b, id) == WithoutCategory(a, id) + WithoutCategory(b, id)
  {
    if |a| == 0 {
      assert a + b == b;
    } else {
      assert (a + b)[0] == a[0] && (a + b)[1..] == a[1..] + b;
      WithoutCategoryConcat(a[1..], b, id);
    }
  }

  /** A category list with distinct ids keeps them distinct after a filter. */
  lemma {:induction false} WithoutCategoryDistinct(categories: seq<Category>, id: string)
    requires DistinctIds(categories)
    ensures DistinctIds(WithoutCategory(categories, id))
  {
    if |categories| > 0 {
      var tail := categories[1..];
      assert DistinctIds(tail) by {
        forall i, j | 0 <= i < j < |tail| ensures tail[i].id != tail[j].id {
          assert tail[i] == categories[i + 1] && tail[j] == categories[j + 1];
        }
      }
      WithoutCategoryDistinct(tail, id);
      var rest := WithoutCategory(tail, id);
      forall c | c in rest ensures c.id != categories[0].id {
        var k :| 0 <= k < |tail| && tail[k] == c;
        assert categories[k + 1] == c;
      }
    }
  }

  /**
   * `deleteCategory(id)`: no category with that id survives, the others keep
   * their order, no block anywhere refers to it afterwards, blocks with
   * other ids or none are untouched, and the set of dates is unchanged.
   */
  lemma RemoveCategoryEffect(data: AppData, id: string)
    ensures var r := RemoveCategory(data, id);
      && (forall c :: c in r.categories <==> c in data.categories && c.id != id)
      && r.days.Keys == data.days.Keys
      && (forall d, i :: d in r.days && 0 <= i < |r.days[d].blocks| ==>
            r.days[d].blocks[i].categoryId != Some(id))
      && (forall d, i :: d in r.days && 0 <= i < |data.days[d].blocks| ==>
            && |r.days[d].blocks| == |data.days[d].blocks|
            && r.days[d].blocks[i].hour == data.days[d].blocks[i].hour
            && (data.days[d].blocks[i].categoryId != Some(id) ==> r.days[d].blocks[i] == data.days[d].blocks[i]))
      && (forall d :: d in r.days ==> r.days[d].date == data.days[d].date)
  {
  }

  /** Fresh application data has the store's shape. */
  lemma InitialDataWellFormed()
    ensures WellFormed(InitializeAppData())
  {
  }

  /** `getOrCreateDay` and `updateBlock` keep the store's shape. */
  lemma SetBlockPreservesWellFormed(data: AppData, date: string, hour: int, categoryId: Option<string>)
    requires WellFormed(data)
    ensures WellFormed(WithDay(data, date))
    ensures WellFormed(SetBlock(data, date, hour, categoryId))
  {
    var d := WithDay(data, date);
    var r := SetBlock(data, date, hour, categoryId);
    forall k | k in r.days ensures r.days[k].date == k && |r.days[k].blocks| == 24 && HourIndexed(r.days[k].blocks) {
      if k != date {
        assert r.days[k] == data.days[k];
      }
    }
  }

  /** `addCategory` keeps the store's shape when the new id is not already taken. */
  lemma AppendCategoryPreservesWellFormed(data: AppData, fields: CategoryFields, newId: string)
    requires WellFormed(data)
    requires forall c :: c in data.categories ==> c.id != newId
    ensures WellFormed(AppendCategory(data, fields, newId))
  {
    var cs := AppendCategory(data, fields, newId).categories;
    forall i, j | 0 <= i < j < |cs| ensures cs[i].id != cs[j].id {
      if j == |data.categories| {
        assert cs[i] in data.categories;
      } else {
        assert cs[i] == data.categories[i] && cs[j] == data.categories[j];
      }
    }
  }

  /** `updateCategory` keeps the store's shape: ids never change. */
  lemma UpdateCategoriesPreservesWellFormed(data: AppData, id: string, u: CategoryUpdate)
    requires WellFormed(data)
    ensures WellFormed(data.(categories := UpdateCategories(data.categories, id, u)))
  {
    var cs := UpdateCategories(data.categories, id, u);
    assert forall i :: 0 <= i < |cs| ==> cs[i].id == data.categories[i].id;
  }

  /** `deleteCategory` keeps the store's shape. */
  lemma RemoveCategoryPreservesWellFormed(data: AppData, id: string)
    requires WellFormed(data)
    ensures WellFormed(RemoveCategory(data, id))
  {
    WithoutCategoryDistinct(data.categories, id);
    var r := RemoveCategory(data, id);
    forall d | d in r.days ensures r.days[d].date == d && |r.days[d].blocks| == 24 && HourIndexed(r.days[d].blocks) {
      assert r.days[d].blocks == ClearBlocks(data.days[d].blocks, id);
    }
  }

  /** The inner `forEach` of `deleteCategory`: null each block that refers to `id`. */
  method ClearReferences(blocks: seq<TimeBlock>, id: string) returns (r: seq<TimeBlock>)
    ensures r == ClearBlocks(blocks, id)
  {
    r := blocks;
    var i := 0;
    while i < |r|
      invariant 0 <= i <= |r| == |blocks|
      invariant forall j :: 0 <= j < i ==> r[j] == ClearBlock(blocks[j], id)
      invariant forall j :: i <= j < |r| ==> r[j] == blocks[j]
    {
      if r[i].categoryId == Some(id) {
        r := r[i := r[i].(categoryId := None)];
      }
      i := i + 1;
    }
  }
}
