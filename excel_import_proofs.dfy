/** Properties of the spreadsheet merge modelled in ExcelImport. */
module ExcelImportProofs {
  import opened Wrappers
  import opened ExcelImport

  // ---------------------------------------------------------------------------
  // The id sets

  /** A key is among a list's category ids exactly when some category carries it. */
  lemma {:induction false} CatIdsMembership(cats: seq<Category>, x: int)
    ensures x in CatIds(cats) <==> exists k :: 0 <= k < |cats| && CatKey(cats[k].id) == x
    decreases |cats|
  {
    if cats != [] {
      var prefix := cats[..|cats| - 1];
      CatIdsMembership(prefix, x);
      if x in CatIds(prefix) {
        var k :| 0 <= k < |prefix| && CatKey(prefix[k].id) == x;
        assert cats[k] == prefix[k];
      }
      if exists k :: 0 <= k < |cats| && CatKey(cats[k].id) == x {
        var k :| 0 <= k < |cats| && CatKey(cats[k].id) == x;
        if k < |prefix| { assert prefix[k] == cats[k]; }
      }
    }
  }

  /** The category ids of a concatenation are the ids of both parts. */
  lemma {:induction false} CatIdsAppend(a: seq<Category>, b: seq<Category>)
    ensures CatIds(a + b) == CatIds(a) + CatIds(b)
    decreases |b|
  {
    if b == [] {
      assert a + b == a;
    } else {
      assert (a + b)[..|a + b| - 1] == a + b[..|b| - 1];
      CatIdsAppend(a, b[..|b| - 1]);
    }
  }

  /** A number is among some items' ids exactly when one of them carries it. */
  lemma {:induction false} NumericIdsMembership(items: seq<Item>, x: int)
    ensures x in NumericIds(items) <==> exists k :: 0 <= k < |items| && items[k].id == ItemNumber(x)
    decreases |items|
  {
    if items != [] {
      var prefix := items[..|items| - 1];
      NumericIdsMembership(prefix, x);
      if x in NumericIds(prefix) {
        var k :| 0 <= k < |prefix| && prefix[k].id == ItemNumber(x);
        assert items[k] == prefix[k];
      }
      if exists k :: 0 <= k < |items| && items[k].id == ItemNumber(x) {
        var k :| 0 <= k < |items| && items[k].id == ItemNumber(x);
        if k < |prefix| { assert prefix[k] == items[k]; }
      }
    }
  }

  /** Flattening a concatenation concatenates the flattenings. */
  lemma {:induction false} FlattenAppend(a: seq<Category>, b: seq<Category>)
    ensures Flatten(a + b) == Flatten(a) + Flatten(b)
    decreases |b|
  {
    if b == [] {
      assert a + b == a;
    } else {
      assert (a + b)[..|a + b| - 1] == a + b[..|b| - 1];
      FlattenAppend(a, b[..|b| - 1]);
    }
  }

  /** Appending an item to the current category appends it to the flattened item sequence,
      and leaves every category's id and name, and every earlier category, as they were. */
  lemma AppendItemEffect(cats: seq<Category>, item: Item)
    requires |cats| > 0
    ensures var r := AppendItem(cats, item);
      && |r| == |cats|
      && Flatten(r) == Flatten(cats) + [item]
      && CatIds(r) == CatIds(cats)
      && (forall j :: 0 <= j < |cats| ==> r[j].id == cats[j].id && r[j].name == cats[j].name)
      && (forall j :: 0 <= j < |cats| ==> r[..j] == cats[..j])
  {
    var r := AppendItem(cats, item);
    assert r[..|r| - 1] == cats[..|cats| - 1];
  }

  // ---------------------------------------------------------------------------
  // Row classification

  /** The marker rows among some rows, in order. */
  function MarkerRows(rows: seq<Row>): seq<Row> {
    if rows == [] then []
    else MarkerRows(rows[..|rows| - 1]) + (if IsMarker(rows[|rows| - 1]) then [rows[|rows| - 1]] else [])
  }

  /** The rows that become items, in order. */
  function ItemRows(rows: seq<Row>): seq<Row> {
    if rows == [] then []
    else ItemRows(rows[..|rows| - 1]) + (if IsItemRow(rows[|rows| - 1]) then [rows[|rows| - 1]] else [])
  }

  // ---------------------------------------------------------------------------
  // Invariants of the fold

  /** Every category opened by a marker row has a numeric id in (0, 1000) that no category
      before it in the merged list (existing ones included) already carries. */
  ghost predicate FreshCategoryIds(existing: seq<Category>, newCats: seq<Category>) {
    forall j :: 1 <= j < |newCats| ==>
      newCats[j].id.CatNumber? && 0 < newCats[j].id.n < CatIdBound &&
      newCats[j].id.n !in CatIds(existing + newCats[..j])
  }

  /** The categories of the fold state: the synthetic one first, then one per marker row,
      named after that row's description cell, with fresh ids. */
  ghost predicate CategoriesInv(existing: seq<Category>, rows: seq<Row>, st: ImportState) {
    && |st.newCategories| == 1 + |MarkerRows(rows)|
    && st.newCategories[0].id == CatIdOf(LeastFree(CatIds(existing), CatIdBound))
    && st.newCategories[0].name == Str(SyntheticName)
    && (forall j :: 1 <= j < |st.newCategories| ==> st.newCategories[j].name == MarkerRows(rows)[j - 1].description)
    && FreshCategoryIds(existing, st.newCategories)
  }

  /** Each new item got the least id in [0, 10000) not used by an existing item or by a
      new item before it (or None when there was none). */
  ghost predicate ItemIdsAllocated(existingIds: set<int>, items: seq<Item>) {
    forall k :: 0 <= k < |items| ==>
      items[k].id == ItemIdOf(LeastFree(existingIds + NumericIds(items[..k]), ItemIdBound))
  }

  /** The running id set is the existing item ids plus the ids handed out so far. */
  ghost predicate IdSetInv(existing: seq<Category>, st: ImportState) {
    st.itemsIds == NumericIds(Flatten(existing)) + NumericIds(Flatten(st.newCategories))
  }

  /** The new items are the item rows, in order, each normalised. */
  ghost predicate NormalizedInv(rows: seq<Row>, lim: Limits, items: seq<Item>) {
    && |items| == |ItemRows(rows)|
    && (forall k :: 0 <= k < |items| ==> items[k] == NewItem(items[k].id, ItemRows(rows)[k], lim))
  }

  /** The items of the fold state: one per item row, normalised from it, with allocated ids. */
  ghost predicate ItemsInv(existing: seq<Category>, rows: seq<Row>, lim: Limits, st: ImportState) {
    && IdSetInv(existing, st)
    && ItemIdsAllocated(NumericIds(Flatten(existing)), Flatten(st.newCategories))
    && NormalizedInv(rows, lim, Flatten(st.newCategories))
  }

  /** A marker row's new category never draws id 0: the synthetic category (or an existing
      one) already holds the key 0, so `if not new_id` fires only when every id is taken. */
  lemma MarkerIdNeverZero(existing: seq<Category>, st: ImportState)
    requires |st.newCategories| > 0
    requires st.newCategories[0].id == CatIdOf(LeastFree(CatIds(existing), CatIdBound))
    ensures 0 in CatIds(existing + st.newCategories)
    ensures LeastFree(CatIds(existing + st.newCategories), CatIdBound) != Some(0)
  {
    CatIdsAppend(existing, st.newCategories);
    CatIdsMembership(st.newCategories, CatKey(st.newCategories[0].id));
    var first := LeastFree(CatIds(existing), CatIdBound);
    if first.Some? && first.value != 0 {
      assert 0 in CatIds(existing);
    }
  }

  /** On a marker row the import fails exactly when all 1000 category ids are taken. */
  lemma MarkerRowFailsIffExhausted(existing: seq<Category>, st: ImportState, row: Row, lim: Limits)
    requires |st.newCategories| > 0
    requires st.newCategories[0].id == CatIdOf(LeastFree(CatIds(existing), CatIdBound))
    requires IsMarker(row)
    ensures Step(existing, st, row, lim).Err? <==> AllTaken(CatIds(existing + st.newCategories), CatIdBound)
  {
    MarkerIdNeverZero(existing, st);
  }

  /** A marker row keeps the category invariant: the category it opens is fresh. */
  lemma MarkerStepCategories(existing: seq<Category>, rows: seq<Row>, row: Row, lim: Limits, st: ImportState)
    requires |st.newCategories| > 0 && CategoriesInv(existing, rows, st)
    requires IsMarker(row) && Step(existing, st, row, lim).Ok?
    ensures CategoriesInv(existing, rows + [row], Step(existing, st, row, lim).value)
  {
    var st' := Step(existing, st, row, lim).value;
    var n := |st.newCategories|;
    assert (rows + [row])[..|rows|] == rows;
    assert MarkerRows(rows + [row]) == MarkerRows(rows) + [row];
    assert st'.newCategories[..n] == st.newCategories;
    forall j | 1 <= j < |st'.newCategories|
      ensures st'.newCategories[j].id.CatNumber? && 0 < st'.newCategories[j].id.n < CatIdBound
      ensures st'.newCategories[j].id.n !in CatIds(existing + st'.newCategories[..j])
    {
      if j < n {
        assert st'.newCategories[..j] == st.newCategories[..j];
      } else {
        MarkerIdNeverZero(existing, st);
      }
    }
  }

  /** A row that is not a marker keeps the category invariant: ids and names stay put. */
  lemma OtherStepCategories(existing: seq<Category>, rows: seq<Row>, row: Row, lim: Limits, st: ImportState)
    requires |st.newCategories| > 0 && CategoriesInv(existing, rows, st)
    requires !IsMarker(row)
    ensures CategoriesInv(existing, rows + [row], Step(existing, st, row, lim).value)
    ensures var st' := Step(existing, st, row, lim).value;
      && |st'.newCategories| == |st.newCategories|
      && forall j :: 0 <= j < |st.newCategories| ==>
           st'.newCategories[j].id == st.newCategories[j].id && st'.newCategories[j].name == st.newCategories[j].name
  {
    assert (rows + [row])[..|rows|] == rows;
    assert MarkerRows(rows + [row]) == MarkerRows(rows);
    if IsItemRow(row) {
      var newId := LeastFree(st.itemsIds, ItemIdBound);
      AppendItemEffect(st.newCategories, NewItem(ItemIdOf(newId), row, lim));
    }
  }

  /** The category part of the fold invariant. */
  lemma {:induction false} RunCategories(existing: seq<Category>, rows: seq<Row>, lim: Limits)
    requires Run(existing, rows, lim).Ok?
    ensures CategoriesInv(existing, rows, Run(existing, rows, lim).value)
    decreases |rows|
  {
    if rows != [] {
      var prefix := rows[..|rows| - 1];
      var row := rows[|rows| - 1];
      assert rows == prefix + [row];
      var st := Run(existing, prefix, lim).value;
      RunCategories(existing, prefix, lim);
      if IsMarker(row) {
        MarkerStepCategories(existing, prefix, row, lim, st);
      } else {
        OtherStepCategories(existing, prefix, row, lim, st);
      }
    }
  }

  /** Handing the least free id to one more item keeps the allocation invariant. */
  lemma AllocatedExtend(existingIds: set<int>, items: seq<Item>, item: Item)
    requires ItemIdsAllocated(existingIds, items)
    requires item.id == ItemIdOf(LeastFree(existingIds + NumericIds(items), ItemIdBound))
    ensures ItemIdsAllocated(existingIds, items + [item])
  {
    var items' := items + [item];
    assert items'[..|items|] == items;
    forall k | 0 <= k < |items'|
      ensures items'[k].id == ItemIdOf(LeastFree(existingIds + NumericIds(items'[..k]), ItemIdBound))
    {
      if k < |items| {
        assert items'[..k] == items[..k];
      }
    }
  }

  /** What one item row does to the fold state: one item appended to the flattened items,
      its id (when there was one) added to the running id set. */
  lemma ItemStepEffect(existing: seq<Category>, st: ImportState, row: Row, lim: Limits)
    requires |st.newCategories| > 0 && IsItemRow(row)
    ensures var newId := LeastFree(st.itemsIds, ItemIdBound);
      var st' := Step(existing, st, row, lim).value;
      && Step(existing, st, row, lim).Ok?
      && Flatten(st'.newCategories) == Flatten(st.newCategories) + [NewItem(ItemIdOf(newId), row, lim)]
      && st'.itemsIds == st.itemsIds + (if newId.Some? then {newId.value} else {})
  {
    var newId := LeastFree(st.itemsIds, ItemIdBound);
    AppendItemEffect(st.newCategories, NewItem(ItemIdOf(newId), row, lim));
  }

  /** The normalised items of some rows, extended by one more row. */
  lemma NormalizedExtend(rows: seq<Row>, row: Row, lim: Limits, items: seq<Item>, item: Item)
    requires NormalizedInv(rows, lim, items) && IsItemRow(row)
    requires item == NewItem(item.id, row, lim)
    ensures NormalizedInv(rows + [row], lim, items + [item])
  {
    assert (rows + [row])[..|rows|] == rows;
    assert ItemRows(rows + [row]) == ItemRows(rows) + [row];
  }

  /** A number handed to one more item joins the running id set. */
  lemma IdSetExtend(items: seq<Item>, item: Item, x: Option<nat>)
    requires item.id == ItemIdOf(x)
    ensures NumericIds(items + [item]) == NumericIds(items) + (if x.Some? then {x.value} else {})
  {
    assert (items + [item])[..|items|] == items;
  }

  /** One more normalised item with the least free id, its id joining the running set,
      keeps the item invariant. */
  lemma ItemsInvExtend(existing: seq<Category>, rows: seq<Row>, row: Row, lim: Limits, st: ImportState, st': ImportState)
    requires ItemsInv(existing, rows, lim, st) && IsItemRow(row)
    requires var newId := LeastFree(st.itemsIds, ItemIdBound);
      && Flatten(st'.newCategories) == Flatten(st.newCategories) + [NewItem(ItemIdOf(newId), row, lim)]
      && st'.itemsIds == st.itemsIds + (if newId.Some? then {newId.value} else {})
    ensures ItemsInv(existing, rows + [row], lim, st')
  {
    var existingIds := NumericIds(Flatten(existing));
    var items := Flatten(st.newCategories);
    var newId := LeastFree(st.itemsIds, ItemIdBound);
    var item := NewItem(ItemIdOf(newId), row, lim);
    AllocatedExtend(existingIds, items, item);
    NormalizedExtend(rows, row, lim, items, item);
    IdSetExtend(items, item, newId);
  }

  /** A row that becomes an item keeps the item invariant: its id is the least free one. */
  lemma ItemStepItems(existing: seq<Category>, rows: seq<Row>, row: Row, lim: Limits, st: ImportState)
    requires |st.newCategories| > 0 && ItemsInv(existing, rows, lim, st)
    requires IsItemRow(row)
    ensures ItemsInv(existing, rows + [row], lim, Step(existing, st, row, lim).value)
  {
    ItemStepEffect(existing, st, row, lim);
    ItemsInvExtend(existing, rows, row, lim, st, Step(existing, st, row, lim).value);
  }

  /** A row that does not become an item keeps the item invariant: no item is added. */
  lemma OtherStepItems(existing: seq<Category>, rows: seq<Row>, row: Row, lim: Limits, st: ImportState)
    requires |st.newCategories| > 0 && ItemsInv(existing, rows, lim, st)
    requires !IsItemRow(row) && Step(existing, st, row, lim).Ok?
    ensures ItemsInv(existing, rows + [row], lim, Step(existing, st, row, lim).value)
  {
    var st' := Step(existing, st, row, lim).value;
    assert (rows + [row])[..|rows|] == rows;
    assert ItemRows(rows + [row]) == ItemRows(rows);
    if IsMarker(row) {
      var n := |st.newCategories|;
      assert st'.newCategories[..n] == st.newCategories;
      assert Flatten(st'.newCategories) == Flatten(st.newCategories);
    }
  }

  /** The item part of the fold invariant. */
  lemma {:induction false} RunItems(existing: seq<Category>, rows: seq<Row>, lim: Limits)
    requires Run(existing, rows, lim).Ok?
    ensures ItemsInv(existing, rows, lim, Run(existing, rows, lim).value)
    decreases |rows|
  {
    if rows != [] {
      var prefix := rows[..|rows| - 1];
      var row := rows[|rows| - 1];
      assert rows == prefix + [row];
      var st := Run(existing, prefix, lim).value;
      RunItems(existing, prefix, lim);
      if IsItemRow(row) {
        ItemStepItems(existing, prefix, row, lim, st);
      } else {
        OtherStepItems(existing, prefix, row, lim, st);
      }
    }
  }

  // ---------------------------------------------------------------------------
  // Consequences for the new categories and items

  /** All categories a run creates carry pairwise different keys, and every category a marker
      row opened has a key no existing category has. */
  lemma NewCategoryIdsDistinct(existing: seq<Category>, rows: seq<Row>, lim: Limits)
    requires Run(existing, rows, lim).Ok?
    ensures var cats := Run(existing, rows, lim).value.newCategories;
      && (forall i, j :: 0 <= i < j < |cats| ==> CatKey(cats[i].id) != CatKey(cats[j].id))
      && (forall j :: 1 <= j < |cats| ==> cats[j].id.CatNumber? && cats[j].id.n !in CatIds(existing))
  {
    var cats := Run(existing, rows, lim).value.newCategories;
    RunCategories(existing, rows, lim);
    forall i, j | 0 <= i < j < |cats|
      ensures CatKey(cats[i].id) != CatKey(cats[j].id)
    {
      CatIdsAppend(existing, cats[..j]);
      CatIdsMembership(cats[..j], CatKey(cats[i].id));
      assert cats[..j][i] == cats[i];
    }
    forall j | 1 <= j < |cats|
      ensures cats[j].id.CatNumber? && cats[j].id.n !in CatIds(existing)
    {
      CatIdsAppend(existing, cats[..j]);
    }
  }

  /** Every numeric id a run hands out lies in [0, 10000), is not the id of an existing item
      and differs from the id of every other new item; an item is left without an id only
      when all 10000 were in use at that point. */
  lemma NewItemIdsFreshAndDistinct(existing: seq<Category>, rows: seq<Row>, lim: Limits)
    requires Run(existing, rows, lim).Ok?
    ensures var items := Flatten(Run(existing, rows, lim).value.newCategories);
      && (forall k :: 0 <= k < |items| && items[k].id.ItemNumber? ==>
            0 <= items[k].id.n < ItemIdBound && items[k].id.n !in NumericIds(Flatten(existing)))
      && (forall i, k :: 0 <= i < k < |items| && items[k].id.ItemNumber? ==> items[i].id != items[k].id)
      && (forall k :: 0 <= k < |items| && items[k].id == ItemNone ==>
            AllTaken(NumericIds(Flatten(existing)) + NumericIds(items[..k]), ItemIdBound))
  {
    var items := Flatten(Run(existing, rows, lim).value.newCategories);
    RunItems(existing, rows, lim);
    forall i, k | 0 <= i < k < |items| && items[k].id.ItemNumber?
      ensures items[i].id != items[k].id
    {
      if items[i].id.ItemNumber? {
        NumericIdsMembership(items[..k], items[i].id.n);
        assert items[..k][i] == items[i];
      }
    }
  }

  // ---------------------------------------------------------------------------
  // The whole import

  /** Column A with more than 2000 cells or with none is refused before anything is built. */
  lemma ImportRowCountErrors(data: Columns, existing: seq<Category>, lim: Limits)
    ensures |data.names| > MaxRows ==> ImportFromExcel(data, existing, lim) == Err(TooManyItems)
    ensures |data.names| == 0 ==> ImportFromExcel(data, existing, lim) == Err(NoItemsProvided)
  {
  }

  /** Past the row-count check the only failure is running out of category ids, and that
      needs a marker row: rows without a marker always import. */
  lemma {:induction false} RunFailsOnlyAtMarker(existing: seq<Category>, rows: seq<Row>, lim: Limits)
    requires Run(existing, rows, lim).Err?
    ensures Run(existing, rows, lim).error == NoFreeCategoryId
    ensures exists k :: 0 <= k < |rows| && IsMarker(rows[k])
    decreases |rows|
  {
    var prefix := rows[..|rows| - 1];
    if Run(existing, prefix, lim).Err? {
      RunFailsOnlyAtMarker(existing, prefix, lim);
      var k :| 0 <= k < |prefix| && IsMarker(prefix[k]);
      assert rows[k] == prefix[k];
    } else {
      assert IsMarker(rows[|rows| - 1]);
    }
  }

  /** An accepted spreadsheet without marker rows always imports. */
  lemma ImportWithoutMarkersSucceeds(data: Columns, existing: seq<Category>, lim: Limits)
    requires 1 <= |data.names| <= MaxRows
    requires forall k :: 0 <= k < |data.names| ==> data.names[k] != Str(CategoryMarker)
    ensures ImportFromExcel(data, existing, lim).Ok?
  {
    var rows := Zip(data);
    if Run(existing, rows, lim).Err? {
      RunFailsOnlyAtMarker(existing, rows, lim);
      assert false;
    }
  }

  /** The result is the existing list unchanged, followed by the synthetic category (with the
      least free category id, or False) and one category per marker row, named after the
      marker row's description cell. */
  lemma ImportKeepsExistingPrefix(data: Columns, existing: seq<Category>, lim: Limits)
    requires ImportFromExcel(data, existing, lim).Ok?
    ensures var out := ImportFromExcel(data, existing, lim).value;
      && |out| == |existing| + 1 + |MarkerRows(Zip(data))|
      && out[..|existing|] == existing
      && out[|existing|].name == Str(SyntheticName)
      && out[|existing|].id == CatIdOf(LeastFree(CatIds(existing), CatIdBound))
      && (forall j :: 0 <= j < |MarkerRows(Zip(data))| ==>
            out[|existing| + 1 + j].name == MarkerRows(Zip(data))[j].description)
  {
    RunCategories(existing, Zip(data), lim);
    var out := ImportFromExcel(data, existing, lim).value;
    assert out[..|existing|] == existing;
  }

  /** The new items are exactly the item rows, in order, each with its name and description
      truncated and its weight clamped. */
  lemma ImportItemsFollowRows(data: Columns, existing: seq<Category>, lim: Limits)
    requires ImportFromExcel(data, existing, lim).Ok?
    ensures var out := ImportFromExcel(data, existing, lim).value;
      var items := Flatten(out[|existing|..]);
      && Flatten(out) == Flatten(existing) + items
      && |items| == |ItemRows(Zip(data))|
      && (forall k :: 0 <= k < |items| ==> items[k] == NewItem(items[k].id, ItemRows(Zip(data))[k], lim))
  {
    var st := Run(existing, Zip(data), lim).value;
    RunItems(existing, Zip(data), lim);
    var out := ImportFromExcel(data, existing, lim).value;
    assert out[|existing|..] == st.newCategories;
    FlattenAppend(existing, st.newCategories);
  }

  /** Categories whose ids are all missing from the existing list share no id with it. */
  lemma NewIdsAvoidExisting(existing: seq<Category>, cats: seq<Category>)
    requires forall j :: 0 <= j < |cats| ==> CatKey(cats[j].id) !in CatIds(existing)
    ensures forall i, j :: 0 <= i < |existing| && 0 <= j < |cats| ==> CatKey(existing[i].id) != CatKey(cats[j].id)
  {
    forall i, j | 0 <= i < |existing| && 0 <= j < |cats|
      ensures CatKey(existing[i].id) != CatKey(cats[j].id)
    {
      CatIdsMembership(existing, CatKey(existing[i].id));
    }
  }

  /** No two categories of the merged list compare equal by id, provided none of the existing
      ones did and a category id was still free for the synthetic category. */
  lemma ImportCategoryIdsDistinct(data: Columns, existing: seq<Category>, lim: Limits)
    requires ImportFromExcel(data, existing, lim).Ok?
    requires forall i, j :: 0 <= i < j < |existing| ==> CatKey(existing[i].id) != CatKey(existing[j].id)
    requires !AllTaken(CatIds(existing), CatIdBound)
    ensures var out := ImportFromExcel(data, existing, lim).value;
      forall i, j :: 0 <= i < j < |out| ==> CatKey(out[i].id) != CatKey(out[j].id)
  {
    var rows := Zip(data);
    var cats := Run(existing, rows, lim).value.newCategories;
    NewCategoryIdsDistinct(existing, rows, lim);
    forall j | 0 <= j < |cats| ensures CatKey(cats[j].id) !in CatIds(existing) {
      if j == 0 {
        assert cats[0].id == CatIdOf(LeastFree(CatIds(existing), CatIdBound));
      }
    }
    NewIdsAvoidExisting(existing, cats);
    var out := ImportFromExcel(data, existing, lim).value;
    assert out == existing + cats;
    forall i, j | 0 <= i < j < |out|
      ensures CatKey(out[i].id) != CatKey(out[j].id)
    {
      if j < |existing| {
        assert out[i] == existing[i] && out[j] == existing[j];
      } else if i >= |existing| {
        assert out[i] == cats[i - |existing|] && out[j] == cats[j - |existing|];
      } else {
        assert out[i] == existing[i] && out[j] == cats[j - |existing|];
      }
    }
  }


  /** As written, the synthetic category's id is not checked: when the existing categories
      already use every id below 1000, it is False, which equals the existing id 0, so a
      successful import holds two categories comparing equal by id. */
  lemma SyntheticIdCollidesWhenExhausted(data: Columns, existing: seq<Category>, lim: Limits)
    requires AllTaken(CatIds(existing), CatIdBound)
    ensures InitialState(existing).newCategories[0].id == CatFalse
    ensures CatKey(CatFalse) in CatIds(existing)
    ensures ImportFromExcel(data, existing, lim).Ok? ==>
      var out := ImportFromExcel(data, existing, lim).value;
      exists i :: 0 <= i < |existing| && CatKey(out[i].id) == CatKey(out[|existing|].id)
  {
    assert 0 in CatIds(existing);
    CatIdsMembership(existing, 0);
    if ImportFromExcel(data, existing, lim).Ok? {
      ImportKeepsExistingPrefix(data, existing, lim);
      var out := ImportFromExcel(data, existing, lim).value;
      var k :| 0 <= k < |existing| && CatKey(existing[k].id) == 0;
      assert out[..|existing|][k] == existing[k];
      assert CatKey(out[k].id) == CatKey(out[|existing|].id);
    }
  }

  /** No two items of the merged list share a numeric id, provided no two existing items did. */
  lemma ImportItemIdsDistinct(data: Columns, existing: seq<Category>, lim: Limits)
    requires ImportFromExcel(data, existing, lim).Ok?
    requires var was := Flatten(existing);
      forall i, j :: 0 <= i < j < |was| && was[j].id.ItemNumber? ==> was[i].id != was[j].id
    ensures var all := Flatten(ImportFromExcel(data, existing, lim).value);
      forall i, j :: 0 <= i < j < |all| && all[j].id.ItemNumber? ==> all[i].id != all[j].id
  {
    var rows := Zip(data);
    var cats := Run(existing, rows, lim).value.newCategories;
    var was := Flatten(existing);
    var items := Flatten(cats);
    FlattenAppend(existing, cats);
    var all := was + items;
    NewItemIdsFreshAndDistinct(existing, rows, lim);
    forall i, j | 0 <= i < j < |all| && all[j].id.ItemNumber?
      ensures all[i].id != all[j].id
    {
      if i < |was| && j >= |was| {
        NumericIdsMembership(was, all[j].id.n);
        assert items[j - |was|] == all[j];
      } else if i >= |was| {
        assert items[i - |was|] == all[i] && items[j - |was|] == all[j];
      }
    }
  }

  /** A row that becomes an item lands in the most recently opened category; the other
      categories are untouched. A blank non-marker row changes nothing. */
  lemma RunAppendsToCurrentCategory(existing: seq<Category>, rows: seq<Row>, row: Row, lim: Limits)
    requires Run(existing, rows, lim).Ok?
    ensures var st := Run(existing, rows, lim).value;
      var cats := st.newCategories;
      var n := |cats|;
      assert (rows + [row])[..|rows|] == rows;
      && (IsItemRow(row) ==>
           && Run(existing, rows + [row], lim).Ok?
           && var cats' := Run(existing, rows + [row], lim).value.newCategories;
           && |cats'| == n
           && cats'[..n - 1] == cats[..n - 1]
           && cats'[n - 1].id == cats[n - 1].id && cats'[n - 1].name == cats[n - 1].name
           && cats'[n - 1].items == cats[n - 1].items +
                [NewItem(ItemIdOf(LeastFree(st.itemsIds, ItemIdBound)), row, lim)])
      && (!IsMarker(row) && !IsItemRow(row) ==> Run(existing, rows + [row], lim) == Ok(st))
  {
    assert (rows + [row])[..|rows|] == rows;
  }

  // ---------------------------------------------------------------------------
  // Cell normalisation

  /** Truncating an already truncated text again changes nothing. */
  lemma TruncateIdempotent(c: Cell, maxLen: nat)
    ensures Truncate(Str(Truncate(c, maxLen)), maxLen) == Truncate(c, maxLen)
  {
  }

  /** Clamping a clamped weight again changes nothing (for a non-negative cap). */
  lemma ClampWeightIdempotent(c: Cell, maxWeight: int)
    requires maxWeight >= 0
    ensures ClampWeight(Int(ClampWeight(c, maxWeight)), maxWeight) == ClampWeight(c, maxWeight)
  {
  }

  // ---------------------------------------------------------------------------
  // The scenario of the view test

  /** The spreadsheet of the view test: two items, a marker row without a weight cell, an item. */
  function ExampleColumns(): Columns {
    Columns([Str("plecak"), Str("śpiwór"), Str("kategoria"), Str("karimata")],
            [Str("OMW"), Str("haha"), Str("nazwa kategorii"), Str("decathlon")],
            [Int(110), Int(232), Empty, Int(11)])
  }

  /** The caps under which the test's cell values pass unchanged. */
  predicate RoomyLimits(lim: Limits) {
    lim.maxNameLen >= 8 && lim.maxDescriptionLen >= 9 && lim.maxWeight >= 232
  }

  function ExampleSynthetic(items: seq<Item>): Category {
    Category(CatNumber(0), Str(SyntheticName), items)
  }

  lemma ExampleFirstItems(lim: Limits)
    requires RoomyLimits(lim)
    ensures Run([], Zip(ExampleColumns())[..2], lim) == Ok(ImportState({0, 1},
      [ExampleSynthetic([Item(ItemNumber(0), "plecak", "OMW", 110), Item(ItemNumber(1), "śpiwór", "haha", 232)])]))
  {
    var rows := Zip(ExampleColumns());
    var syn := ExampleSynthetic([]);
    assert LeastFree({}, CatIdBound) == Some(0);
    assert Run([], rows[..0], lim) == Ok(ImportState({}, [syn]));
    var i0 := Item(ItemNumber(0), "plecak", "OMW", 110);
    assert LeastFree({}, ItemIdBound) == Some(0);
    assert rows[0] == Row(Str("plecak"), Str("OMW"), Int(110));
    assert NewItem(ItemNumber(0), rows[0], lim) == i0;
    assert rows[..1][..0] == rows[..0];
    assert [syn][..0] == [] && syn.items + [i0] == [i0];
    var none: set<int> := {};
    assert none + {0} == {0};
    assert Run([], rows[..1], lim) == Step([], ImportState({}, [syn]), rows[0], lim);
    assert !IsMarker(rows[0]) && Truthy(rows[0].name);
    assert Step([], ImportState({}, [syn]), rows[0], lim) == Ok(ImportState(none + {0}, AppendItem([syn], i0)));
    assert AppendItem([syn], i0) == [syn.(items := [i0])];
    assert Run([], rows[..1], lim) == Ok(ImportState({0}, [syn.(items := [i0])]));
    var i1 := Item(ItemNumber(1), "śpiwór", "haha", 232);
    assert LeastFreeFrom({0}, 1, ItemIdBound) == Some(1);
    assert rows[1] == Row(Str("śpiwór"), Str("haha"), Int(232));
    assert NewItem(ItemNumber(1), rows[1], lim) == i1;
    assert rows[..2][..1] == rows[..1];
    assert [syn.(items := [i0])][..0] == [] && [i0] + [i1] == [i0, i1];
    var st1 := ImportState({0}, [syn.(items := [i0])]);
    assert Run([], rows[..2], lim) == Step([], st1, rows[1], lim);
    assert !IsMarker(rows[1]) && Truthy(rows[1].name);
    assert LeastFree({0}, ItemIdBound) == Some(1);
    assert Step([], st1, rows[1], lim) == Ok(ImportState({0} + {1}, AppendItem(st1.newCategories, i1)));
    assert AppendItem(st1.newCategories, i1) == [syn.(items := [i0, i1])];
    assert {0} + {1} == {0, 1};
  }

  lemma ExampleMarker(lim: Limits)
    requires RoomyLimits(lim)
    ensures var c0 := ExampleSynthetic([Item(ItemNumber(0), "plecak", "OMW", 110), Item(ItemNumber(1), "śpiwór", "haha", 232)]);
      Run([], Zip(ExampleColumns())[..3], lim) == Ok(ImportState({0, 1},
        [c0, Category(CatNumber(1), Str("nazwa kategorii"), [])]))
  {
    var rows := Zip(ExampleColumns());
    var c0 := ExampleSynthetic([Item(ItemNumber(0), "plecak", "OMW", 110), Item(ItemNumber(1), "śpiwór", "haha", 232)]);
    ExampleFirstItems(lim);
    assert rows[..3][..2] == rows[..2];
    assert rows[2] == Row(Str("kategoria"), Str("nazwa kategorii"), Empty);
    assert [] + [c0] == [c0];
    assert CatIds([c0][..0]) == {};
    assert CatIds([c0]) == {0};
    assert LeastFreeFrom({0}, 1, CatIdBound) == Some(1);
    var st2 := ImportState({0, 1}, [c0]);
    assert Run([], rows[..3], lim) == Step([], st2, rows[2], lim);
    assert IsMarker(rows[2]);
    assert LeastFree(CatIds([] + [c0]), CatIdBound) == Some(1);
    assert [c0] + [Category(CatNumber(1), Str("nazwa kategorii"), [])] == [c0, Category(CatNumber(1), Str("nazwa kategorii"), [])];
  }

  /** Four rows into an empty list: two items under the synthetic category, then the category
      named by the marker row holding the last item, as the view test expects. */
  lemma ExampleSpreadsheet(lim: Limits)
    requires RoomyLimits(lim)
    ensures ImportFromExcel(ExampleColumns(), [], lim) == Ok([
        ExampleSynthetic([Item(ItemNumber(0), "plecak", "OMW", 110), Item(ItemNumber(1), "śpiwór", "haha", 232)]),
        Category(CatNumber(1), Str("nazwa kategorii"), [Item(ItemNumber(2), "karimata", "decathlon", 11)])])
  {
    var rows := Zip(ExampleColumns());
    var c0 := ExampleSynthetic([Item(ItemNumber(0), "plecak", "OMW", 110), Item(ItemNumber(1), "śpiwór", "haha", 232)]);
    var c1 := Category(CatNumber(1), Str("nazwa kategorii"), []);
    ExampleMarker(lim);
    assert rows[..4][..3] == rows[..3];
    assert rows[..4] == rows;
    var i2 := Item(ItemNumber(2), "karimata", "decathlon", 11);
    assert rows[3] == Row(Str("karimata"), Str("decathlon"), Int(11));
    assert NewItem(ItemNumber(2), rows[3], lim) == i2;
    assert LeastFreeFrom({0, 1}, 2, ItemIdBound) == Some(2);
    assert [c0, c1][..1] == [c0] && c1.items + [i2] == [i2];
    assert [] + [c0, c1.(items := [i2])] == [c0, c1.(items := [i2])];
    var st3 := ImportState({0, 1}, [c0, c1]);
    assert Run([], rows, lim) == Step([], st3, rows[3], lim);
    assert !IsMarker(rows[3]) && Truthy(rows[3].name);
    assert LeastFree({0, 1}, ItemIdBound) == Some(2);
    assert AppendItem(st3.newCategories, i2) == [c0, c1.(items := [i2])];
    assert Step([], st3, rows[3], lim) == Ok(ImportState({0, 1} + {2}, [c0, c1.(items := [i2])]));
    assert Run([], rows, lim).value.newCategories == [c0, c1.(items := [i2])];
  }
}
