/** Model of app/functions/excel_import.py: merging the rows of a spreadsheet into a
    user's private gear list, handing out collision-free category and item ids. */
module ExcelImport {
  import opened Wrappers

  /** The value of one spreadsheet cell, as the spreadsheet reader hands it over. */
  datatype Cell =
    | Empty                 // no value (Python None)
    | Str(s: string)
    | Int(i: int)
    | Other(truthy: bool)   // any other value (a float, a date); only its truth value is used

  /** Python truthiness of a cell value: None, '' and 0 are false. */
  predicate Truthy(c: Cell) {
    match c
    case Empty => false
    case Str(s) => s != ""
    case Int(i) => i != 0
    case Other(t) => t
  }

  /** The cells of columns A, B and C of the active sheet. */
  datatype Columns = Columns(names: seq<Cell>, descriptions: seq<Cell>, weights: seq<Cell>)

  /** One row as the import loop sees it: name, description and weight cells. */
  datatype Row = Row(name: Cell, description: Cell, weight: Cell)

  datatype ImportError = TooManyItems | NoItemsProvided | NoFreeCategoryId

  /** A category id. CatFalse is the value False that the category allocator returns
      when every id is taken; the import stores it unchecked for its first category. */
  datatype CatId = CatNumber(n: int) | CatFalse

  /** An item id. ItemNone is the None an item keeps when every item id is taken. */
  datatype ItemId = ItemNumber(n: int) | ItemNone

  datatype Item = Item(id: ItemId, name: string, description: string, weight: int)

  /** A gear category. Its name is whatever value the marker row's description cell held. */
  datatype Category = Category(id: CatId, name: Cell, items: seq<Item>)

  /** The configured caps: item_max_name_len, item_max_description_len, item_max_weight. */
  datatype Limits = Limits(maxNameLen: nat, maxDescriptionLen: nat, maxWeight: int)

  const MaxRows: nat := 2000
  const CatIdBound: nat := 1000
  const ItemIdBound: nat := 10000
  const CategoryMarker: string := "kategoria"
  const SyntheticName: string := "importowane z pliku excel"

  function Min(a: int, b: int): int { if a <= b then a else b }

  // ---------------------------------------------------------------------------
  // Row-count validation

  /** validate_excel_file after the workbook has been read: only column A's length is checked. */
  function ValidateExcelFile(data: Columns): (r: Result<Columns, ImportError>)
    ensures r.Ok? <==> 1 <= |data.names| <= MaxRows
    ensures r.Ok? ==> r.value == data
    ensures |data.names| > MaxRows ==> r == Err(TooManyItems)
    ensures |data.names| == 0 ==> r == Err(NoItemsProvided)
  {
    if |data.names| > MaxRows then Err(TooManyItems)
    else if |data.names| == 0 then Err(NoItemsProvided)
    else Ok(data)
  }

  /** Python's zip over the three columns: it stops at the shortest one. */
  function Zip(data: Columns): (rows: seq<Row>)
    ensures |rows| <= |data.names| && |rows| <= |data.descriptions| && |rows| <= |data.weights|
    ensures |rows| == |data.names| || |rows| == |data.descriptions| || |rows| == |data.weights|
    ensures forall k :: 0 <= k < |rows| ==> rows[k] == Row(data.names[k], data.descriptions[k], data.weights[k])
  {
    var n := Min(Min(|data.names|, |data.descriptions|), |data.weights|);
    seq(n, k requires 0 <= k < n => Row(data.names[k], data.descriptions[k], data.weights[k]))
  }

  // ---------------------------------------------------------------------------
  // Id spaces

  /** The integer a category id equals under Python's ==, where False == 0. */
  function CatKey(id: CatId): int {
    match id
    case CatNumber(n) => n
    case CatFalse => 0
  }

  /** The ids new_my_gear_cat_id collects from a list, one per category. */
  function CatIds(cats: seq<Category>): set<int> {
    if cats == [] then {} else CatIds(cats[..|cats| - 1]) + {CatKey(cats[|cats| - 1].id)}
  }

  /** All items of a list of categories, category by category. */
  function Flatten(cats: seq<Category>): seq<Item> {
    if cats == [] then [] else Flatten(cats[..|cats| - 1]) + cats[|cats| - 1].items
  }

  /** The integer ids among some items; a None id never equals a candidate id. */
  function NumericIds(items: seq<Item>): set<int> {
    if items == [] then {}
    else NumericIds(items[..|items| - 1]) +
         (match items[|items| - 1].id case ItemNumber(n) => {n} case ItemNone => {})
  }

  /** Every candidate in [0, bound) is in use. */
  predicate AllTaken(used: set<int>, bound: nat) {
    forall y :: 0 <= y < bound ==> y in used
  }

  /** The scan `for x in range(from, bound): if x not in used: ...`: the first free candidate. */
  function LeastFreeFrom(used: set<int>, from: nat, bound: nat): (r: Option<nat>)
    ensures r.Some? ==> from <= r.value < bound && r.value !in used
    ensures r.Some? ==> forall y :: from <= y < r.value ==> y in used
    ensures r.None? ==> forall y :: from <= y < bound ==> y in used
    decreases bound - from
  {
    if from >= bound then None
    else if from !in used then Some(from)
    else LeastFreeFrom(used, from + 1, bound)
  }

  /** The least id in [0, bound) that is not used, or None when all are. */
  function LeastFree(used: set<int>, bound: nat): (r: Option<nat>)
    ensures r.Some? ==> r.value < bound && r.value !in used
    ensures r.Some? ==> forall y :: 0 <= y < r.value ==> y in used
    ensures r.None? <==> AllTaken(used, bound)
  {
    LeastFreeFrom(used, 0, bound)
  }

  /** The category id stored for an allocator answer: the answer itself, or False. */
  function CatIdOf(r: Option<nat>): CatId {
    match r
    case Some(x) => CatNumber(x)
    case None => CatFalse
  }

  /** The item id stored for an allocator answer: the answer itself, or None. */
  function ItemIdOf(r: Option<nat>): ItemId {
    match r
    case Some(x) => ItemNumber(x)
    case None => ItemNone
  }

  // ---------------------------------------------------------------------------
  // Cell normalisation

  /** Python's slice s[:n] for n >= 0. */
  function Prefix(s: string, n: nat): (r: string)
    ensures |r| == Min(|s|, n) && r == s[..|r|]
  {
    if |s| <= n then s else s[..n]
  }

  /** A text cell cut to at most maxLen characters; a cell that is not a string gives "". */
  function Truncate(c: Cell, maxLen: nat): (r: string)
    ensures |r| <= maxLen
    ensures c.Str? ==> |r| <= |c.s| && r == c.s[..|r|] && (|c.s| <= maxLen ==> r == c.s) && (|c.s| >= maxLen ==> |r| == maxLen)
    ensures !c.Str? ==> r == ""
  {
    match c
    case Str(s) => Prefix(s, maxLen)
    case _ => ""
  }

  /** An integer weight capped from above (never from below); any other cell gives 0. */
  function ClampWeight(c: Cell, maxWeight: int): (r: int)
    ensures c.Int? ==> r <= maxWeight && r <= c.i && (r == c.i || r == maxWeight)
    ensures !c.Int? ==> r == 0
  {
    match c
    case Int(w) => if w <= maxWeight then w else maxWeight
    case _ => 0
  }

  /** The item a non-marker row becomes, given the id it was allocated. */
  function NewItem(id: ItemId, row: Row, lim: Limits): Item {
    Item(id, Truncate(row.name, lim.maxNameLen), Truncate(row.description, lim.maxDescriptionLen),
         ClampWeight(row.weight, lim.maxWeight))
  }

  /** A row whose name cell is the literal marker opens a new category. */
  predicate IsMarker(row: Row) {
    row.name == Str(CategoryMarker)
  }

  /** A row that becomes an item: not a marker, and name or description is truthy. */
  predicate IsItemRow(row: Row) {
    !IsMarker(row) && (Truthy(row.name) || Truthy(row.description))
  }

  // ---------------------------------------------------------------------------
  // The merge fold, as a specification

  /** What the loop carries from row to row: items_ids and new_categories. */
  datatype ImportState = ImportState(itemsIds: set<int>, newCategories: seq<Category>)

  /** The state before the first row: the existing item ids and the synthetic category. */
  function InitialState(existing: seq<Category>): ImportState {
    ImportState(NumericIds(Flatten(existing)),
                [Category(CatIdOf(LeastFree(CatIds(existing), CatIdBound)), Str(SyntheticName), [])])
  }

  /** new_categories[-1]['items'].append(item). */
  function AppendItem(cats: seq<Category>, item: Item): seq<Category>
    requires |cats| > 0
  {
    cats[..|cats| - 1] + [cats[|cats| - 1].(items := cats[|cats| - 1].items + [item])]
  }

  /** One pass of the loop body over one row. */
  function Step(existing: seq<Category>, st: ImportState, row: Row, lim: Limits): (r: Result<ImportState, ImportError>)
    requires |st.newCategories| > 0
    ensures r.Err? ==> IsMarker(row) && r.error == NoFreeCategoryId
    ensures r.Ok? && IsMarker(row) ==>
      && r.value.itemsIds == st.itemsIds
      && |r.value.newCategories| == |st.newCategories| + 1
      && r.value.newCategories[..|st.newCategories|] == st.newCategories
    ensures r.Ok? && !IsMarker(row) ==>
      && |r.value.newCategories| == |st.newCategories|
      && forall j :: 0 <= j < |st.newCategories| ==>
           r.value.newCategories[j].id == st.newCategories[j].id &&
           r.value.newCategories[j].name == st.newCategories[j].name
  {
    if IsMarker(row) then
      var newId := LeastFree(CatIds(existing + st.newCategories), CatIdBound);
      // `if not new_id`: both False and 0 are falsy
      if newId.None? || newId.value == 0 then Err(NoFreeCategoryId)
      else Ok(st.(newCategories := st.newCategories + [Category(CatNumber(newId.value), row.description, [])]))
    else if Truthy(row.name) || Truthy(row.description) then
      var newId := LeastFree(st.itemsIds, ItemIdBound);
      var used := if newId.Some? then st.itemsIds + {newId.value} else st.itemsIds;
      Ok(ImportState(used, AppendItem(st.newCategories, NewItem(ItemIdOf(newId), row, lim))))
    else
      Ok(st)
  }

  /** The loop over a sequence of rows, started from the initial state; the first failure stops it. */
  function Run(existing: seq<Category>, rows: seq<Row>, lim: Limits): (r: Result<ImportState, ImportError>)
    ensures r.Err? ==> r.error == NoFreeCategoryId
    ensures r.Ok? ==> |r.value.newCategories| > 0
    ensures r.Ok? ==> r.value.newCategories[0].id == InitialState(existing).newCategories[0].id
    ensures r.Ok? ==> r.value.newCategories[0].name == Str(SyntheticName)
  {
    if rows == [] then Ok(InitialState(existing))
    else
      match Run(existing, rows[..|rows| - 1], lim)
      case Err(e) => Err(e)
      case Ok(st) => Step(existing, st, rows[|rows| - 1], lim)
  }

  /** Once a prefix of the rows fails, the whole loop fails with the same error: a raised
      ValidationError ends the import. */
  lemma {:induction false} RunFailureIsFinal(existing: seq<Category>, rows: seq<Row>, k: nat, lim: Limits)
    requires k <= |rows| && Run(existing, rows[..k], lim).Err?
    ensures Run(existing, rows, lim) == Run(existing, rows[..k], lim)
    decreases |rows|
  {
    if k < |rows| {
      assert rows[..|rows| - 1][..k] == rows[..k];
      RunFailureIsFinal(existing, rows[..|rows| - 1], k, lim);
    } else {
      assert rows[..k] == rows;
    }
  }

  /** scrape_data_from_excel as a function: the existing list followed by the new categories. */
  function ImportFromExcel(data: Columns, existing: seq<Category>, lim: Limits): (r: Result<seq<Category>, ImportError>)
    ensures ValidateExcelFile(data).Err? ==> r == Err(ValidateExcelFile(data).error)
    ensures r.Err? ==> ValidateExcelFile(data).Err? || r.error == NoFreeCategoryId
    ensures r.Ok? ==> |r.value| > |existing| && r.value[..|existing|] == existing
    ensures r.Ok? ==> r.value[|existing|].name == Str(SyntheticName)
  {
    match ValidateExcelFile(data)
    case Err(e) => Err(e)
    case Ok(_) =>
      match Run(existing, Zip(data), lim)
      case Err(e) => Err(e)
      case Ok(st) => Ok(existing + st.newCategories)
  }

  // ---------------------------------------------------------------------------
  // The code

  /** new_my_gear_cat_id: collect the category ids, then scan 0..999 for the first free one. */
  method NewMyGearCatId(gearList: seq<Category>) returns (r: Option<nat>)
    ensures r == LeastFree(CatIds(gearList), CatIdBound)
    ensures r.Some? ==> r.value < CatIdBound && r.value !in CatIds(gearList)
    ensures r.Some? ==> forall y :: 0 <= y < r.value ==> y in CatIds(gearList)
    ensures r.None? <==> AllTaken(CatIds(gearList), CatIdBound)
  {
    var ids: set<int> := {};
    var i := 0;
    while i < |gearList|
      invariant 0 <= i <= |gearList|
      invariant ids == CatIds(gearList[..i])
    {
      assert gearList[..i + 1][..i] == gearList[..i];
      ids := ids + {CatKey(gearList[i].id)};
      i := i + 1;
    }
    assert gearList[..i] == gearList;
    var x := 0;
    while x < CatIdBound
      invariant 0 <= x <= CatIdBound
      invariant LeastFreeFrom(ids, x, CatIdBound) == LeastFree(ids, CatIdBound)
    {
      if x !in ids {
        return Some(x);
      }
      x := x + 1;
    }
    return None;
  }

  /** The item-id scan of scrape_data_from_excel: the first x below 10000 not in items_ids is
      taken and added to items_ids; when there is none the id stays None. */
  method AllocateItemId(itemsIds: set<int>) returns (finalId: ItemId, newIds: set<int>)
    ensures finalId == ItemIdOf(LeastFree(itemsIds, ItemIdBound))
    ensures newIds == if finalId.ItemNumber? then itemsIds + {finalId.n} else itemsIds
  {
    finalId := ItemNone;
    newIds := itemsIds;
    var x := 0;
    while x < ItemIdBound
      invariant 0 <= x <= ItemIdBound
      invariant newIds == itemsIds && finalId == ItemNone
      invariant LeastFreeFrom(itemsIds, x, ItemIdBound) == LeastFree(itemsIds, ItemIdBound)
    {
      if x !in newIds {
        newIds := newIds + {x};
        finalId := ItemNumber(x);
        break;
      }
      x := x + 1;
    }
  }

  /** NumericIds of two item sequences put together. */
  lemma {:induction false} NumericIdsAppend(a: seq<Item>, b: seq<Item>)
    ensures NumericIds(a + b) == NumericIds(a) + NumericIds(b)
    decreases |b|
  {
    if b == [] {
      assert a + b == a;
    } else {
      var b' := b[..|b| - 1];
      assert (a + b)[..|a + b| - 1] == a + b';
      NumericIdsAppend(a, b');
    }
  }

  /** The inner loop over one category's items: their ids join the collected set. */
  method AddItemIds(itemsIds: set<int>, items: seq<Item>) returns (r: set<int>)
    ensures r == itemsIds + NumericIds(items)
  {
    r := itemsIds;
    var j := 0;
    while j < |items|
      invariant 0 <= j <= |items|
      invariant r == itemsIds + NumericIds(items[..j])
    {
      assert items[..j + 1][..j] == items[..j];
      if items[j].id.ItemNumber? {
        r := r + {items[j].id.n};
      }
      j := j + 1;
    }
    assert items[..j] == items;
  }

  /** The first loop of scrape_data_from_excel: the id of every item of every existing
      category (a None id is collected too, but never matches a candidate id). */
  method CollectItemIds(privateGear: seq<Category>) returns (itemsIds: set<int>)
    ensures itemsIds == NumericIds(Flatten(privateGear))
  {
    itemsIds := {};
    var i := 0;
    while i < |privateGear|
      invariant 0 <= i <= |privateGear|
      invariant itemsIds == NumericIds(Flatten(privateGear[..i]))
    {
      itemsIds := AddItemIds(itemsIds, privateGear[i].items);
      assert privateGear[..i + 1][..i] == privateGear[..i];
      NumericIdsAppend(Flatten(privateGear[..i]), privateGear[i].items);
      i := i + 1;
    }
    assert privateGear[..i] == privateGear;
  }

  /** The body of the row loop of scrape_data_from_excel: one row against the current
      items_ids and new_categories. */
  method ImportRow(privateGear: seq<Category>, itemsIds: set<int>, newCategories: seq<Category>, row: Row, lim: Limits)
    returns (r: Result<ImportState, ImportError>)
    requires |newCategories| > 0
    ensures r == Step(privateGear, ImportState(itemsIds, newCategories), row, lim)
  {
    var itemsIds := itemsIds;
    var newCategories := newCategories;
    if row.name == Str(CategoryMarker) {
      var newId := NewMyGearCatId(privateGear + newCategories);
      if newId.None? || newId.value == 0 {
        return Err(NoFreeCategoryId);
      }
      newCategories := newCategories + [Category(CatNumber(newId.value), row.description, [])];
    } else if Truthy(row.name) || Truthy(row.description) {
      var finalId := ItemNone;
      var finalName := "";
      var finalDescription := "";
      var finalWeight := 0;

      finalId, itemsIds := AllocateItemId(itemsIds);
      if row.name.Str? {
        finalName := Prefix(row.name.s, lim.maxNameLen);
      }
      if row.description.Str? {
        finalDescription := Prefix(row.description.s, lim.maxDescriptionLen);
      }
      if row.weight.Int? {
        if row.weight.i <= lim.maxWeight {
          finalWeight := row.weight.i;
        } else {
          finalWeight := lim.maxWeight;
        }
      }

      var last := newCategories[|newCategories| - 1];
      newCategories := newCategories[..|newCategories| - 1] +
        [last.(items := last.items + [Item(finalId, finalName, finalDescription, finalWeight)])];
    }
    return Ok(ImportState(itemsIds, newCategories));
  }

  /** scrape_data_from_excel, given the three columns the workbook reader produced. */
  method ScrapeDataFromExcel(data: Columns, privateGear: seq<Category>, lim: Limits)
    returns (r: Result<seq<Category>, ImportError>)
    ensures r == ImportFromExcel(data, privateGear, lim)
  {
    var validated := ValidateExcelFile(data);
    if validated.Err? {
      return Err(validated.error);
    }

    var itemsIds := CollectItemIds(privateGear);

    var catId := NewMyGearCatId(privateGear);
    var newCategories := [Category(CatIdOf(catId), Str(SyntheticName), [])];

    var rows := Zip(data);
    var k := 0;
    while k < |rows|
      invariant 0 <= k <= |rows|
      invariant Run(privateGear, rows[..k], lim) == Ok(ImportState(itemsIds, newCategories))
    {
      var row := rows[k];
      assert rows[..k + 1][..k] == rows[..k];
      var next := ImportRow(privateGear, itemsIds, newCategories, row, lim);
      if next.Err? {
        RunFailureIsFinal(privateGear, rows, k + 1, lim);
        return Err(next.error);
      }
      itemsIds, newCategories := next.value.itemsIds, next.value.newCategories;
      k := k + 1;
    }
    assert rows[..k] == rows;
    return Ok(privateGear + newCategories);
  }
}
