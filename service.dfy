/**
 * The `DataService` singleton: one optional cached document that every
 * operation reads or replaces. Storage is reduced to a ghost count of the
 * writes `save` makes; the operations run one at a time.
 */
module Service {
  import opened Wrappers
  import opened Types
  import opened Store
  import opened Statistics

  /**
   * What `AsyncStorage.getItem` and `JSON.parse` produced at start-up.
   * `Parsed(None)` is a document that parses to `null` (or another falsy
   * value); `Absent` covers a missing or empty record.
   */
  datatype StoredDocument = Absent | Unreadable | Parsed(document: Option<AppData>)

  class DataService {
    /** The cached document, `null` until `initialize`. */
    var cache: Option<AppData>
    /** How many times `save` has written the document to storage. */
    ghost var writes: nat

    constructor ()
      ensures cache == None && writes == 0
    {
      cache := None;
      writes := 0;
    }

    /** `save`: writes the cache to storage when there is one. */
    method Save()
      modifies this`writes
      ensures writes == old(writes) + (if cache.Some? then 1 else 0)
    {
      if cache.None? {
        return;
      }
      writes := writes + 1;
    }

    /**
     * `initialize`: adopt the parsed document, or fall back to the defaults
     * and save them when there was none or it could not be read.
     */
    method Initialize(stored: StoredDocument)
      modifies this
      ensures stored.Parsed? ==> cache == stored.document && writes == old(writes)
      ensures !stored.Parsed? ==> cache == Some(InitializeAppData()) && writes == old(writes) + 1
    {
      if stored.Parsed? {
        cache := stored.document;
        return;
      }
      cache := Some(InitializeAppData());
      Save();
    }

    /** The `data` getter. */
    function Data(): (r: Result<AppData>)
      reads this
      ensures r.Ok? <==> cache.Some?
      ensures r.Ok? ==> r.value == cache.value
      ensures r.Err? ==> r.message == NotInitializedGetter
    {
      match cache
      case None => Err(NotInitializedGetter)
      case Some(data) => Ok(data)
    }

    /** `getOrCreateDay(date)`: the stored day, created empty (and saved) when absent. */
    method GetOrCreateDay(date: string) returns (r: Result<Day>)
      modifies this
      ensures old(cache).None? ==> r == Err(NotInitialized) && cache == old(cache) && writes == old(writes)
      ensures old(cache).Some? ==>
        && cache == Some(WithDay(old(cache).value, date))
        && r == Ok(cache.value.days[date])
        && writes == old(writes) + (if date in old(cache).value.days then 0 else 1)
    {
      if cache.None? {
        return Err(NotInitialized);
      }
      var data := cache.value;
      if date !in data.days {
        cache := Some(data.(days := data.days[date := InitializeEmptyDay(date)]));
        Save();
      }
      r := Ok(cache.value.days[date]);
    }

    /** `updateBlock(date, hour, categoryId)`. */
    method UpdateBlock(date: string, hour: int, categoryId: Option<string>) returns (r: Result<()>)
      modifies this
      ensures old(cache).None? ==> r == Err(NotInitialized) && cache == old(cache) && writes == old(writes)
      ensures old(cache).Some? ==>
        var created := WithDay(old(cache).value, date);
        && r == Ok(())
        && cache == Some(SetBlock(old(cache).value, date, hour, categoryId))
        && writes == old(writes) + (if date in old(cache).value.days then 0 else 1)
                                 + (if FindHour(created.days[date].blocks, hour).Some? then 1 else 0)
    {
      if cache.None? {
        return Err(NotInitialized);
      }
      var got := GetOrCreateDay(date);
      var day := got.value;
      var found := FindHour(day.blocks, hour);
      if found.Some? {
        var i := found.value;
        var data := cache.value;
        cache := Some(data.(days := data.days[date := day.(blocks := day.blocks[i := day.blocks[i].(categoryId := categoryId)])]));
        Save();
      }
      r := Ok(());
    }

    /** `getCategory(id)`: the first category with that id; nothing before `initialize`. */
    function GetCategory(id: string): (r: Option<Category>)
      reads this
      ensures cache.None? ==> r.None?
      ensures cache.Some? ==> r == LookupCategory(cache.value.categories, id)
    {
      match cache
      case None => None
      case Some(data) => LookupCategory(data.categories, id)
    }

    /** `addCategory(fields)`, with the generated id passed in as `newId`. */
    method AddCategory(fields: CategoryFields, newId: string) returns (r: Result<Category>)
      modifies this
      ensures old(cache).None? ==> r == Err(NotInitialized) && cache == old(cache) && writes == old(writes)
      ensures old(cache).Some? ==>
        && r == Ok(NewCategory(fields, newId))
        && cache == Some(AppendCategory(old(cache).value, fields, newId))
        && cache.value.categories[|cache.value.categories| - 1] == r.value
        && writes == old(writes) + 1
    {
      if cache.None? {
        return Err(NotInitialized);
      }
      var category := NewCategory(fields, newId);
      var data := cache.value;
      cache := Some(data.(categories := data.categories + [category]));
      Save();
      r := Ok(category);
    }

    /** `updateCategory(id, updates)`: saves only when the id is found. */
    method UpdateCategory(id: string, u: CategoryUpdate) returns (r: Result<()>)
      modifies this
      ensures old(cache).None? ==> r == Err(NotInitialized) && cache == old(cache) && writes == old(writes)
      ensures old(cache).Some? ==>
        var data := old(cache).value;
        && r == Ok(())
        && cache == Some(data.(categories := UpdateCategories(data.categories, id, u)))
        && writes == old(writes) + (if FindCategory(data.categories, id).Some? then 1 else 0)
    {
      if cache.None? {
        return Err(NotInitialized);
      }
      var data := cache.value;
      var found := FindCategory(data.categories, id);
      if found.Some? {
        var i := found.value;
        cache := Some(data.(categories := data.categories[i := Patch(data.categories[i], u)]));
        Save();
      }
      r := Ok(());
    }

    /** `deleteCategory(id)`: filter the list, then null every block that refers to `id`. */
    method DeleteCategory(id: string) returns (r: Result<()>)
      modifies this
      ensures old(cache).None? ==> r == Err(NotInitialized) && cache == old(cache) && writes == old(writes)
      ensures old(cache).Some? ==>
        && r == Ok(())
        && cache == Some(RemoveCategory(old(cache).value, id))
        && writes == old(writes) + 1
    {
      if cache.None? {
        return Err(NotInitialized);
      }
      var data := cache.value;
      var categories := WithoutCategory(data.categories, id);
      var days := data.days;
      var pending := days.Keys;
      while pending != {}
        invariant cache == old(cache) && writes == old(writes)
        invariant pending <= data.days.Keys && days.Keys == data.days.Keys
        invariant forall d :: d in days ==>
          days[d] == if d in pending then data.days[d] else data.days[d].(blocks := ClearBlocks(data.days[d].blocks, id))
        decreases pending
      {
        var d :| d in pending;
        var blocks := ClearReferences(days[d].blocks, id);
        days := days[d := days[d].(blocks := blocks)];
        pending := pending - {d};
      }
      assert days == ClearDays(data.days, id);
      cache := Some(AppData(categories, days));
      Save();
      r := Ok(());
    }

    /** `getDays()`: the live day map, or an empty one before `initialize`. */
    function GetDays(): (r: map<string, Day>)
      reads this
      ensures cache.None? ==> r == map[]
      ensures cache.Some? ==> r == cache.value.days
    {
      match cache
      case None => map[]
      case Some(data) => data.days
    }

    /** `getInsights()`: the statistics of the cached document; nothing before `initialize`. */
    method GetInsights() returns (r: Option<Insights>)
      ensures cache.None? ==> r.None?
      ensures cache.Some? ==> r.Some? && Describes(cache.value, r.value)
    {
      if cache.None? {
        return None;
      }
      var ins := ComputeInsights(cache.value);
      r := Some(ins);
    }

    /** `clearAll()`: back to the defaults; the stored record is removed, not written. */
    method ClearAll()
      modifies this
      ensures cache == Some(InitializeAppData()) && writes == old(writes)
    {
      cache := Some(InitializeAppData());
    }
  }

}
